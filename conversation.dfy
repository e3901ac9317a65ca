/**
 * The conversation log: a newest-first list of question/answer pairs capped at
 * 100 entries, fed by the live message handler and by a pass that recovers
 * pairs from the Discord history (a mention of the bot followed, within the
 * next four messages, by a message of the bot). The JSON file holding the list
 * is the `entries` field; whether reading or writing it fails is a parameter.
 * Timestamps are milliseconds since the epoch.
 */
module Conversations {
  import opened Wrappers
  import opened Text
  import opened Discord

  const MAX_CONVERSATIONS: nat := 100
  const DEDUP_WINDOW_MS: int := 30000
  /** A reply is looked for among the messages at positions i+1 .. i+4. */
  const REPLY_LOOKAHEAD: nat := 5

  datatype LogEntry = LogEntry(
    id: string,
    timestamp: int,
    username: string,
    userId: string,
    message: string,
    response: string)

  /** `splice(n)` on a list longer than `n`: only the first `n` entries stay. */
  function Truncate<T>(s: seq<T>, n: nat): (r: seq<T>)
    ensures |r| == if |s| > n then n else |s|
    ensures r == s[..|r|]
  {
    if |s| > n then s[..n] else s
  }

  /** The list after `unshift(e)` and the cut to 100: `e` first, then the newest of the old entries. */
  function Logged(entries: seq<LogEntry>, e: LogEntry): (r: seq<LogEntry>)
    ensures |r| == if |entries| + 1 > MAX_CONVERSATIONS then MAX_CONVERSATIONS else |entries| + 1
    ensures r[0] == e
    ensures r[1..] == entries[..|r| - 1]
    ensures |entries| < MAX_CONVERSATIONS ==> |r| == |entries| + 1
  {
    var r := Truncate([e] + entries, MAX_CONVERSATIONS);
    assert r[1..] == ([e] + entries)[1..|r|];
    r
  }

  /* ---- sorting (`Array.prototype.sort` with a numeric comparator) ---- */

  predicate SortedBy<T>(s: seq<T>, key: T -> int) {
    forall i, j | 0 <= i < j < |s| :: key(s[i]) <= key(s[j])
  }

  /** Inserts `x` after every element whose key is not larger, so equal keys keep their order. */
  function InsertBy<T>(x: T, s: seq<T>, key: T -> int): (r: seq<T>)
    ensures multiset(r) == multiset(s) + multiset{x}
    ensures |r| == |s| + 1
    decreases |s|
  {
    if s == [] then [x]
    else if key(x) < key(s[0]) then [x] + s
    else
      assert s == [s[0]] + s[1..];
      [s[0]] + InsertBy(x, s[1..], key)
  }

  /** Inserting `x` keeps every key at or above a bound that `x` and all of `s` respect. */
  lemma {:induction false} InsertByBound<T>(x: T, s: seq<T>, key: T -> int, bound: int)
    requires bound <= key(x)
    requires forall k | 0 <= k < |s| :: bound <= key(s[k])
    ensures forall k | 0 <= k < |InsertBy(x, s, key)| :: bound <= key(InsertBy(x, s, key)[k])
    decreases |s|
  {
    if s != [] && key(x) >= key(s[0]) {
      InsertByBound(x, s[1..], key, bound);
      var rest := InsertBy(x, s[1..], key);
      assert InsertBy(x, s, key) == [s[0]] + rest;
    }
  }

  /** A sorted list headed by an element no larger than any of it is sorted. */
  lemma ConsSorted<T>(a: T, rest: seq<T>, key: T -> int)
    requires SortedBy(rest, key)
    requires forall k | 0 <= k < |rest| :: key(a) <= key(rest[k])
    ensures SortedBy([a] + rest, key)
  {
    var r := [a] + rest;
    forall i, j | 0 <= i < j < |r| ensures key(r[i]) <= key(r[j]) {
      assert r[j] == rest[j - 1];
      if i > 0 { assert r[i] == rest[i - 1]; }
    }
  }

  /** Inserting into a sorted list keeps it sorted. */
  lemma {:induction false} InsertBySorted<T>(x: T, s: seq<T>, key: T -> int)
    requires SortedBy(s, key)
    ensures SortedBy(InsertBy(x, s, key), key)
    decreases |s|
  {
    if s == [] {
    } else if key(x) < key(s[0]) {
      ConsSorted(x, s, key);
    } else {
      var tail := s[1..];
      assert SortedBy(tail, key) by {
        forall i, j | 0 <= i < j < |tail| ensures key(tail[i]) <= key(tail[j]) {
          assert tail[i] == s[i + 1] && tail[j] == s[j + 1];
        }
      }
      assert forall k | 0 <= k < |tail| :: key(s[0]) <= key(tail[k]) by {
        forall k | 0 <= k < |tail| ensures key(s[0]) <= key(tail[k]) { assert tail[k] == s[k + 1]; }
      }
      InsertBySorted(x, tail, key);
      InsertByBound(x, tail, key, key(s[0]));
      ConsSorted(s[0], InsertBy(x, tail, key), key);
    }
  }

  /** Insertion sort: ascending by `key`, a permutation of the input. */
  function SortBy<T>(s: seq<T>, key: T -> int): (r: seq<T>)
    ensures SortedBy(r, key)
    ensures multiset(r) == multiset(s)
    ensures |r| == |s|
    decreases |s|
  {
    if s == [] then []
    else
      assert s == s[..|s| - 1] + [s[|s| - 1]];
      var sorted := SortBy(s[..|s| - 1], key);
      InsertBySorted(s[|s| - 1], sorted, key);
      InsertBy(s[|s| - 1], sorted, key)
  }

  /** `(a, b) => a.createdTimestamp - b.createdTimestamp`: oldest first. */
  function MessageTime(m: DiscordMessage): int { m.createdTimestamp }

  /** `(a, b) => b.timestamp - a.timestamp`: newest first. */
  function NewestFirst(e: LogEntry): int { -e.timestamp }

  /* ---- pairing a mention with the bot's reply ---- */

  /** The first position in `[j, hi)` whose message the bot wrote. */
  function FirstReplyFrom(botUserId: string, msgs: seq<DiscordMessage>, j: nat, hi: nat): (r: Option<nat>)
    requires hi <= |msgs|
    ensures r.Some? ==> j <= r.value < hi && msgs[r.value].authorId == botUserId
    ensures r.Some? ==> forall k | j <= k < r.value :: msgs[k].authorId != botUserId
    ensures r.None? ==> forall k | j <= k < hi :: msgs[k].authorId != botUserId
    decreases hi - j
  {
    if j >= hi then None
    else if msgs[j].authorId == botUserId then Some(j)
    else FirstReplyFrom(botUserId, msgs, j + 1, hi)
  }

  /** `Math.min(i + 5, sortedMessages.length)`. */
  function ReplyEnd(i: nat, n: nat): nat {
    if i + REPLY_LOOKAHEAD < n then i + REPLY_LOOKAHEAD else n
  }

  /** The message the bot answered `msgs[i]` with, if any. */
  function FirstReply(botUserId: string, msgs: seq<DiscordMessage>, i: nat): Option<DiscordMessage>
    requires i < |msgs|
  {
    match FirstReplyFrom(botUserId, msgs, i + 1, ReplyEnd(i, |msgs|))
    case Some(j) => Some(msgs[j])
    case None => None
  }

  /** A message that mentions the bot and was written by a human. */
  predicate IsCandidate(m: DiscordMessage) {
    m.mentionsBot && !m.authorIsBot
  }

  /** The log entry recovered from the candidate `msgs[i]` and its reply. */
  function Pairing(m: DiscordMessage, reply: DiscordMessage, botUserId: string): LogEntry {
    LogEntry(m.id, m.createdTimestamp, m.authorUsername, m.authorId, StripBotMention(m.content, botUserId), reply.content)
  }

  /** The pair found at position `i`: the candidate's stripped question and the bot's first reply. */
  function PairAt(botUserId: string, msgs: seq<DiscordMessage>, i: nat): Option<LogEntry>
    requires i < |msgs|
  {
    if !IsCandidate(msgs[i]) then None
    else match FirstReply(botUserId, msgs, i)
      case Some(reply) => Some(Pairing(msgs[i], reply, botUserId))
      case None => None
  }

  /**
   * A pair is found at `i` exactly when `msgs[i]` is a candidate and the bot
   * wrote one of the next four messages; it is then made of the question and
   * the first of those.
   */
  lemma PairAtSpec(botUserId: string, msgs: seq<DiscordMessage>, i: nat)
    requires i < |msgs|
    ensures PairAt(botUserId, msgs, i).Some? <==>
              IsCandidate(msgs[i]) && exists j | i + 1 <= j < ReplyEnd(i, |msgs|) :: msgs[j].authorId == botUserId
    ensures PairAt(botUserId, msgs, i).Some? ==>
              exists j | i + 1 <= j < ReplyEnd(i, |msgs|) ::
                msgs[j].authorId == botUserId && PairAt(botUserId, msgs, i).value == Pairing(msgs[i], msgs[j], botUserId) &&
                forall k | i + 1 <= k < j :: msgs[k].authorId != botUserId
  {
    var f := FirstReplyFrom(botUserId, msgs, i + 1, ReplyEnd(i, |msgs|));
    if f.Some? {
      assert msgs[f.value].authorId == botUserId;
    }
  }

  /* ---- de-duplication ---- */

  function Abs(x: int): nat { if x < 0 then -x else x }

  /** Same user, same question, timestamps less than 30 s apart. */
  predicate Similar(c: LogEntry, e: LogEntry) {
    c.userId == e.userId && c.message == e.message && Abs(c.timestamp - e.timestamp) < DEDUP_WINDOW_MS
  }

  /** `conversations.some(c => …)`: the list already holds an entry similar to `e`. */
  predicate Known(conv: seq<LogEntry>, e: LogEntry) {
    exists k | 0 <= k < |conv| :: Similar(conv[k], e)
  }

  /** The entry at `k` is not similar to any entry after it. */
  predicate Fresh(list: seq<LogEntry>, k: nat)
    requires k < |list|
  {
    !Known(list[k + 1..], list[k])
  }

  /** Each of the first `c` entries (the ones a pass added) was new when it was added. */
  predicate AddedFresh(list: seq<LogEntry>, c: nat)
    requires c <= |list|
  {
    forall k | 0 <= k < c :: Fresh(list, k)
  }

  /** Putting fresh entries in front of a list whose added prefix was fresh keeps both prefixes fresh. */
  lemma AddedFreshCompose(front: seq<LogEntry>, list: seq<LogEntry>, c: nat)
    requires c <= |list| && AddedFresh(list, c)
    requires AddedFresh(front + list, |front|)
    ensures AddedFresh(front + list, |front| + c)
  {
    var r := front + list;
    forall k | |front| <= k < |front| + c ensures Fresh(r, k) {
      assert r[k] == list[k - |front|];
      assert r[k + 1..] == list[k - |front| + 1..];
      assert Fresh(list, k - |front|);
    }
  }

  /** A pair is prepended when the list does not know it yet. */
  function Record(conv: seq<LogEntry>, pair: Option<LogEntry>): (r: (seq<LogEntry>, nat))
    ensures r.1 == 1 <==> pair.Some? && !Known(conv, pair.value)
    ensures r.1 == 1 ==> r.0 == [pair.value] + conv
    ensures r.1 != 1 ==> r == (conv, 0)
  {
    if pair.Some? && !Known(conv, pair.value) then ([pair.value] + conv, 1) else (conv, 0)
  }

  /** A list that knows an entry still knows it once more are put in front. */
  lemma KnownPrepend(front: seq<LogEntry>, conv: seq<LogEntry>, e: LogEntry)
    requires Known(conv, e)
    ensures Known(front + conv, e)
  {
    var k :| 0 <= k < |conv| && Similar(conv[k], e);
    assert (front + conv)[|front| + k] == conv[k];
  }

  /** `r` is `conv` with `r.1` entries put in front. */
  predicate Prepends(r: (seq<LogEntry>, nat), conv: seq<LogEntry>) {
    |r.0| == |conv| + r.1 && r.0[r.1..] == conv
  }

  /** Two passes in a row prepend what both added. */
  lemma PrependsTrans(r: (seq<LogEntry>, nat), before: (seq<LogEntry>, nat), conv: seq<LogEntry>)
    requires Prepends(r, before.0) && Prepends(before, conv)
    ensures Prepends((r.0, before.1 + r.1), conv)
  {
    assert r.0[before.1 + r.1..] == r.0[r.1..][before.1..];
  }

  /**
   * The list and the number of entries added after the pairs have been
   * offered in order: the new entries sit in front, one per pair at most.
   */
  function Scan(pairs: seq<Option<LogEntry>>, conv: seq<LogEntry>): (r: (seq<LogEntry>, nat))
    ensures r.1 <= |pairs| && |r.0| == |conv| + r.1
    decreases |pairs|
  {
    if pairs == [] then (conv, 0)
    else
      var before := Scan(pairs[..|pairs| - 1], conv);
      var step := Record(before.0, pairs[|pairs| - 1]);
      (step.0, before.1 + step.1)
  }

  /** A pass only puts entries in front: the old list is what follows the ones it counted. */
  lemma {:induction false} ScanPrepends(pairs: seq<Option<LogEntry>>, conv: seq<LogEntry>)
    ensures Prepends(Scan(pairs, conv), conv)
    decreases |pairs|
  {
    if pairs != [] {
      var before := Scan(pairs[..|pairs| - 1], conv);
      var step := Record(before.0, pairs[|pairs| - 1]);
      ScanPrepends(pairs[..|pairs| - 1], conv);
      assert Prepends(step, before.0) by { assert step.0[step.1..] == before.0; }
      PrependsTrans(step, before, conv);
    }
  }

  /** Offering one more pair is one more `Record` step. */
  lemma ScanSnoc(pairs: seq<Option<LogEntry>>, p: Option<LogEntry>, conv: seq<LogEntry>)
    ensures Scan(pairs + [p], conv) ==
              (Record(Scan(pairs, conv).0, p).0, Scan(pairs, conv).1 + Record(Scan(pairs, conv).0, p).1)
  {
    assert (pairs + [p])[..|pairs + [p]| - 1] == pairs;
  }

  /** Offering two runs of pairs is offering the second to what the first left. */
  lemma {:induction false} ScanAppend(p1: seq<Option<LogEntry>>, p2: seq<Option<LogEntry>>, conv: seq<LogEntry>)
    ensures Scan(p1 + p2, conv) ==
              (Scan(p2, Scan(p1, conv).0).0, Scan(p1, conv).1 + Scan(p2, Scan(p1, conv).0).1)
    decreases |p2|
  {
    if p2 == [] {
      assert p1 + p2 == p1;
    } else {
      var init, last := p2[..|p2| - 1], p2[|p2| - 1];
      assert p2 == init + [last];
      assert p1 + p2 == (p1 + init) + [last];
      ScanAppend(p1, init, conv);
      ScanSnoc(p1 + init, last, conv);
      ScanSnoc(init, last, Scan(p1, conv).0);
    }
  }

  /** Each entry a pass adds was new to the list when it was added: no duplicates are logged. */
  lemma {:induction false} ScanFresh(pairs: seq<Option<LogEntry>>, conv: seq<LogEntry>)
    ensures AddedFresh(Scan(pairs, conv).0, Scan(pairs, conv).1)
    decreases |pairs|
  {
    if pairs != [] {
      var before := Scan(pairs[..|pairs| - 1], conv);
      var step := Record(before.0, pairs[|pairs| - 1]);
      ScanFresh(pairs[..|pairs| - 1], conv);
      var front := step.0[..step.1];
      assert step.0 == front + before.0;
      if step.1 == 1 {
        assert Fresh(step.0, 0) by { assert step.0[1..] == before.0; }
      }
      AddedFreshCompose(front, before.0, before.1);
    }
  }

  /** Every pair offered is known to the list afterwards: added then, or already there. */
  lemma {:induction false} ScanCovers(pairs: seq<Option<LogEntry>>, conv: seq<LogEntry>, i: nat)
    requires i < |pairs| && pairs[i].Some?
    ensures Known(Scan(pairs, conv).0, pairs[i].value)
    decreases |pairs|
  {
    var init := pairs[..|pairs| - 1];
    var before := Scan(init, conv);
    var step := Record(before.0, pairs[|pairs| - 1]);
    if i < |pairs| - 1 {
      assert init[i] == pairs[i];
      ScanCovers(init, conv, i);
      KnownPrepend(step.0[..step.1], before.0, pairs[i].value);
      assert step.0 == step.0[..step.1] + before.0;
    } else if step.1 == 1 {
      assert Similar(step.0[0], pairs[i].value);
    }
  }

  /** A list that already knows every pair gains nothing from them. */
  lemma {:induction false} ScanNoop(pairs: seq<Option<LogEntry>>, conv: seq<LogEntry>)
    requires forall i | 0 <= i < |pairs| && pairs[i].Some? :: Known(conv, pairs[i].value)
    ensures Scan(pairs, conv) == (conv, 0)
    decreases |pairs|
  {
    if pairs != [] {
      var init := pairs[..|pairs| - 1];
      forall i | 0 <= i < |init| && init[i].Some? ensures Known(conv, init[i].value) {
        assert init[i] == pairs[i];
      }
      ScanNoop(init, conv);
    }
  }

  /** Offering the same pairs twice: the second time nothing is added. */
  lemma ScanTwice(pairs: seq<Option<LogEntry>>, conv: seq<LogEntry>)
    ensures Scan(pairs, Scan(pairs, conv).0) == (Scan(pairs, conv).0, 0)
  {
    forall i | 0 <= i < |pairs| && pairs[i].Some? ensures Known(Scan(pairs, conv).0, pairs[i].value) {
      ScanCovers(pairs, conv, i);
    }
    ScanNoop(pairs, Scan(pairs, conv).0);
  }

  /* ---- walking guilds and channels ---- */

  /** The fetched messages of a channel; a failed fetch is an empty collection. */
  function ChannelMessages(c: DiscordChannel): seq<DiscordMessage> {
    match c.messages
    case Success(ms) => ms
    case Failure(_) => []
  }

  /** The channels of a guild; an unavailable guild or a failed fetch has none. */
  function GuildChannels(g: Option<DiscordGuild>): seq<DiscordChannel> {
    match g
    case None => []
    case Some(guild) => match guild.channels case Success(cs) => cs case Failure(_) => []
  }

  /** The messages of a text channel in ascending time; other channels are skipped. */
  function ScannedMessages(c: DiscordChannel): (ms: seq<DiscordMessage>)
    ensures c.channelType != TEXT_CHANNEL ==> ms == []
    ensures c.channelType == TEXT_CHANNEL ==>
              SortedBy(ms, MessageTime) && multiset(ms) == multiset(ChannelMessages(c))
  {
    if c.channelType != TEXT_CHANNEL then [] else SortBy(ChannelMessages(c), MessageTime)
  }

  /** The pair (or its absence) at each of the first `n` positions of a message list. */
  function MessagePairs(botUserId: string, msgs: seq<DiscordMessage>, n: nat): (r: seq<Option<LogEntry>>)
    requires n <= |msgs|
    ensures |r| == n
    decreases n
  {
    if n == 0 then [] else MessagePairs(botUserId, msgs, n - 1) + [PairAt(botUserId, msgs, n - 1)]
  }

  /** The pairs a channel offers: none unless it is a text channel. */
  function ChannelPairs(botUserId: string, c: DiscordChannel): seq<Option<LogEntry>> {
    var ms := ScannedMessages(c);
    MessagePairs(botUserId, ms, |ms|)
  }

  /** The pairs offered by the first `n` channels, in order. */
  function ChannelsPairs(botUserId: string, cs: seq<DiscordChannel>, n: nat): seq<Option<LogEntry>>
    requires n <= |cs|
    decreases n
  {
    if n == 0 then [] else ChannelsPairs(botUserId, cs, n - 1) + ChannelPairs(botUserId, cs[n - 1])
  }

  /** The pairs offered by the channels of the first `n` guilds, in order. */
  function GuildsPairs(botUserId: string, gs: seq<Option<DiscordGuild>>, n: nat): seq<Option<LogEntry>>
    requires n <= |gs|
    decreases n
  {
    if n == 0 then [] else GuildsPairs(botUserId, gs, n - 1) + ChannelsPairs(botUserId, GuildChannels(gs[n - 1]), |GuildChannels(gs[n - 1])|)
  }

  /**
   * The list written back after a pass that added entries: newest first, at
   * most 100, drawn from the list.
   */
  function Finalized(list: seq<LogEntry>): (r: seq<LogEntry>)
    ensures SortedBy(r, NewestFirst)
    ensures |r| == if |list| > MAX_CONVERSATIONS then MAX_CONVERSATIONS else |list|
    ensures multiset(r) <= multiset(list)
    ensures |list| <= MAX_CONVERSATIONS ==> multiset(r) == multiset(list)
    ensures forall x, y | x in multiset(r) && y in multiset(list) - multiset(r) :: y.timestamp <= x.timestamp
  {
    var sorted := SortBy(list, NewestFirst);
    var r := Truncate(sorted, MAX_CONVERSATIONS);
    CutKeepsNewest(list, sorted, |r|);
    r
  }

  /** Cutting a list sorted newest first keeps part of the original list, and nothing cut is newer than what is kept. */
  lemma CutKeepsNewest(list: seq<LogEntry>, sorted: seq<LogEntry>, k: nat)
    requires SortedBy(sorted, NewestFirst) && multiset(sorted) == multiset(list) && k <= |sorted|
    ensures multiset(sorted[..k]) <= multiset(list)
    ensures forall x, y | x in multiset(sorted[..k]) && y in multiset(list) - multiset(sorted[..k]) ::
              y.timestamp <= x.timestamp
  {
    assert sorted == sorted[..k] + sorted[k..];
    assert multiset(list) - multiset(sorted[..k]) == multiset(sorted[k..]);
    SortedSplitNewest(sorted, k);
  }

  /** In a list sorted newest first, nothing after position `k` is newer than anything before it. */
  lemma SortedSplitNewest(sorted: seq<LogEntry>, k: nat)
    requires SortedBy(sorted, NewestFirst) && k <= |sorted|
    ensures forall x, y | x in multiset(sorted[..k]) && y in multiset(sorted[k..]) :: y.timestamp <= x.timestamp
  {
    forall x, y | x in multiset(sorted[..k]) && y in multiset(sorted[k..]) ensures y.timestamp <= x.timestamp {
      assert x in sorted[..k];
      assert y in sorted[k..];
      var i :| 0 <= i < k && sorted[..k][i] == x;
      var j :| 0 <= j < |sorted| - k && sorted[k..][j] == y;
      assert sorted[i] == x && sorted[k + j] == y;
      assert NewestFirst(sorted[i]) <= NewestFirst(sorted[k + j]);
    }
  }

  /** What a history pass returns and leaves in the log, given the failures of its outer steps. */
  function SyncOutcome(botUserId: string, entries: seq<LogEntry>, readOk: bool,
                       guilds: Option<seq<Option<DiscordGuild>>>, writeOk: bool): (r: (seq<LogEntry>, nat))
    ensures !readOk || guilds.None? ==> r == (entries, 0)
    ensures r.1 == 0 ==> r.0 == entries
    ensures r.1 > 0 ==> writeOk && r == (Finalized(Scan(GuildsPairs(botUserId, guilds.value, |guilds.value|), entries).0),
                                         Scan(GuildsPairs(botUserId, guilds.value, |guilds.value|), entries).1)
    ensures readOk && guilds.Some? && writeOk ==> r.1 == Scan(GuildsPairs(botUserId, guilds.value, |guilds.value|), entries).1
  {
    if !readOk || guilds.None? then (entries, 0)
    else
      var scanned := Scan(GuildsPairs(botUserId, guilds.value, |guilds.value|), entries);
      if scanned.1 == 0 then (entries, 0)
      else if !writeOk then (entries, 0)
      else (Finalized(scanned.0), scanned.1)
  }

  /** The outcome of a pass whose file was read and whose guilds were fetched, given what its scan gave. */
  lemma SyncOutcomeOfScan(botUserId: string, entries: seq<LogEntry>, gs: seq<Option<DiscordGuild>>, writeOk: bool,
                          conversations: seq<LogEntry>, count: nat)
    requires (conversations, count) == Scan(GuildsPairs(botUserId, gs, |gs|), entries)
    ensures SyncOutcome(botUserId, entries, true, Some(gs), writeOk)
            == if count > 0 && writeOk then (Finalized(conversations), count) else (entries, 0)
  {
  }

  /** Lists that are permutations of each other know the same entries. */
  lemma KnownPermutation(a: seq<LogEntry>, b: seq<LogEntry>, e: LogEntry)
    requires multiset(a) == multiset(b)
    ensures Known(a, e) <==> Known(b, e)
  {
    if Known(a, e) {
      var k :| 0 <= k < |a| && Similar(a[k], e);
      assert a[k] in multiset(b);
      var m :| 0 <= m < |b| && b[m] == a[k];
    }
    if Known(b, e) {
      var k :| 0 <= k < |b| && Similar(b[k], e);
      assert b[k] in multiset(a);
      var m :| 0 <= m < |a| && a[m] == b[k];
    }
  }

  /**
   * Syncing the same history twice adds nothing the second time, as long as
   * the first sync did not have to drop entries to stay within 100.
   */
  lemma SyncTwiceAddsNothing(botUserId: string, entries: seq<LogEntry>, gs: seq<Option<DiscordGuild>>)
    requires |Scan(GuildsPairs(botUserId, gs, |gs|), entries).0| <= MAX_CONVERSATIONS
    ensures var first := SyncOutcome(botUserId, entries, true, Some(gs), true);
            SyncOutcome(botUserId, first.0, true, Some(gs), true).1 == 0
  {
    var pairs := GuildsPairs(botUserId, gs, |gs|);
    var scanned := Scan(pairs, entries);
    var first := SyncOutcome(botUserId, entries, true, Some(gs), true);
    ScanPrepends(pairs, entries);
    assert scanned.1 == 0 ==> scanned.0 == entries;
    forall i | 0 <= i < |pairs| && pairs[i].Some? ensures Known(first.0, pairs[i].value) {
      ScanCovers(pairs, entries, i);
      if scanned.1 > 0 {
        KnownPermutation(scanned.0, first.0, pairs[i].value);
      }
    }
    ScanNoop(pairs, first.0);
  }

  /**
   * Past 100 entries the cut is undone by the next sync: a pair of the history
   * that the first sync's cut left out of the log is added again, so the
   * second sync counts it and writes the file once more.
   */
  lemma SyncReAddsDropped(botUserId: string, entries: seq<LogEntry>, gs: seq<Option<DiscordGuild>>, i: nat)
    requires i < |GuildsPairs(botUserId, gs, |gs|)| && GuildsPairs(botUserId, gs, |gs|)[i].Some?
    requires !Known(SyncOutcome(botUserId, entries, true, Some(gs), true).0, GuildsPairs(botUserId, gs, |gs|)[i].value)
    ensures var first := SyncOutcome(botUserId, entries, true, Some(gs), true);
            SyncOutcome(botUserId, first.0, true, Some(gs), true).1 > 0
  {
    var pairs := GuildsPairs(botUserId, gs, |gs|);
    var first := SyncOutcome(botUserId, entries, true, Some(gs), true);
    ScanPrepends(pairs, first.0);
    ScanCovers(pairs, first.0, i);
  }

  /** One more channel scanned: its pairs are offered to what the channels before it left. */
  lemma ChannelStep(botUserId: string, cs: seq<DiscordChannel>, c: nat, conv: seq<LogEntry>,
                    start: (seq<LogEntry>, nat), step: (seq<LogEntry>, nat))
    requires c < |cs|
    requires start == Scan(ChannelsPairs(botUserId, cs, c), conv)
    requires step == Scan(ChannelPairs(botUserId, cs[c]), start.0)
    ensures (step.0, start.1 + step.1) == Scan(ChannelsPairs(botUserId, cs, c + 1), conv)
  {
    ScanAppendStep(ChannelsPairs(botUserId, cs, c), ChannelPairs(botUserId, cs[c]), conv, start, step);
  }

  lemma ScanAppendStep(p1: seq<Option<LogEntry>>, p2: seq<Option<LogEntry>>, conv: seq<LogEntry>,
                    start: (seq<LogEntry>, nat), step: (seq<LogEntry>, nat))
    requires start == Scan(p1, conv)
    requires step == Scan(p2, start.0)
    ensures (step.0, start.1 + step.1) == Scan(p1 + p2, conv)
  {
    ScanAppend(p1, p2, conv);
  }

  /** One more guild scanned: its channels' pairs are offered to what the guilds before it left. */
  lemma GuildStep(botUserId: string, gs: seq<Option<DiscordGuild>>, g: nat, conv: seq<LogEntry>,
                  start: (seq<LogEntry>, nat), step: (seq<LogEntry>, nat))
    requires g < |gs|
    requires start == Scan(GuildsPairs(botUserId, gs, g), conv)
    requires step == Scan(ChannelsPairs(botUserId, GuildChannels(gs[g]), |GuildChannels(gs[g])|), start.0)
    ensures (step.0, start.1 + step.1) == Scan(GuildsPairs(botUserId, gs, g + 1), conv)
  {
    ScanAppendStep(GuildsPairs(botUserId, gs, g), ChannelsPairs(botUserId, GuildChannels(gs[g]), |GuildChannels(gs[g])|), conv, start, step);
  }

  /** One more message considered: its pair is offered to what the messages before it left. */
  lemma MessageStep(botUserId: string, msgs: seq<DiscordMessage>, i: nat, conv: seq<LogEntry>,
                    start: (seq<LogEntry>, nat), step: (seq<LogEntry>, nat))
    requires i < |msgs|
    requires start == Scan(MessagePairs(botUserId, msgs, i), conv)
    requires step == Record(start.0, PairAt(botUserId, msgs, i))
    ensures (step.0, start.1 + step.1) == Scan(MessagePairs(botUserId, msgs, i + 1), conv)
  {
    ScanSnocStep(MessagePairs(botUserId, msgs, i), PairAt(botUserId, msgs, i), conv, start, step);
  }

  lemma ScanSnocStep(pairs: seq<Option<LogEntry>>, p: Option<LogEntry>, conv: seq<LogEntry>,
                     start: (seq<LogEntry>, nat), step: (seq<LogEntry>, nat))
    requires start == Scan(pairs, conv)
    requires step == Record(start.0, p)
    ensures (step.0, start.1 + step.1) == Scan(pairs + [p], conv)
  {
    ScanSnoc(pairs, p, conv);
  }

  /* ---- the imperative passes ---- */

  /** The inner `j` loop: the bot's first message among the next four, found with `break`. */
  method FindReply(botUserId: string, msgs: seq<DiscordMessage>, i: nat) returns (nextMsg: Option<DiscordMessage>)
    requires i < |msgs|
    ensures nextMsg == FirstReply(botUserId, msgs, i)
  {
    nextMsg := None;
    var hi := ReplyEnd(i, |msgs|);
    var j := i + 1;
    while j < hi
      invariant i + 1 <= j
      invariant j <= hi || j == i + 1
      invariant FirstReplyFrom(botUserId, msgs, i + 1, hi) == FirstReplyFrom(botUserId, msgs, j, hi)
      decreases hi - j
    {
      if msgs[j].authorId == botUserId {
        nextMsg := Some(msgs[j]);
        break;
      }
      j := j + 1;
    }
  }

  /** The body of the `i` loop: the pair at `i`, if any, is prepended unless the list already knows it. */
  method ConsiderMessage(botUserId: string, msgs: seq<DiscordMessage>, i: nat, conv: seq<LogEntry>)
    returns (conversations: seq<LogEntry>, added: nat)
    requires i < |msgs|
    ensures (conversations, added) == Record(conv, PairAt(botUserId, msgs, i))
  {
    conversations, added := conv, 0;
    var msg := msgs[i];
    if msg.mentionsBot && !msg.authorIsBot {
      var content := StripBotMention(msg.content, botUserId);
      var nextMsg := FindReply(botUserId, msgs, i);
      if nextMsg.Some? {
        var entry := LogEntry(msg.id, msg.createdTimestamp, msg.authorUsername, msg.authorId, content, nextMsg.value.content);
        assert PairAt(botUserId, msgs, i) == Some(entry);
        var logged := Known(conversations, entry);
        if !logged {
          conversations := [entry] + conversations;
          added := 1;
        }
      }
    }
  }

  /** The `i` loop over one channel's sorted messages: prepends each new pair and counts it. */
  method ScanMessages(botUserId: string, msgs: seq<DiscordMessage>, conv: seq<LogEntry>)
    returns (conversations: seq<LogEntry>, syncCount: nat)
    ensures (conversations, syncCount) == Scan(MessagePairs(botUserId, msgs, |msgs|), conv)
  {
    conversations, syncCount := conv, 0;
    for i := 0 to |msgs|
      invariant conversations == Scan(MessagePairs(botUserId, msgs, i), conv).0
      invariant syncCount == Scan(MessagePairs(botUserId, msgs, i), conv).1
    {
      ghost var before := (conversations, syncCount);
      var added;
      conversations, added := ConsiderMessage(botUserId, msgs, i, conversations);
      MessageStep(botUserId, msgs, i, conv, before, (conversations, added));
      syncCount := syncCount + added;
    }
  }

  class ConversationLog {
    /** The contents of `logs/conversations.json`, newest first. */
    var entries: seq<LogEntry>

    constructor ()
      ensures entries == []
    {
      entries := [];
    }

    /**
     * `logConversation`: the entry (id and timestamp from the clock) goes in
     * front and the list is cut to 100; true on success, false when the file
     * cannot be read or written, and then the log is unchanged.
     * The bot document id `botId` that the message handler passes is accepted and ignored.
     */
    method LogConversation(username: string, userId: string, message: string, response: string,
                           botId: string, now: nat, ioOk: bool) returns (ok: bool)
      modifies this
      ensures ok == ioOk
      ensures ok ==> entries == Logged(old(entries), LogEntry(NatToString(now), now, username, userId, message, response))
      ensures !ok ==> entries == old(entries)
    {
      if !ioOk {
        return false;
      }
      var conversations := entries;
      var newEntry := LogEntry(NatToString(now), now, username, userId, message, response);
      conversations := [newEntry] + conversations;
      if |conversations| > MAX_CONVERSATIONS {
        conversations := conversations[..MAX_CONVERSATIONS];
      }
      entries := conversations;
      return true;
    }

    /** One channel of the channel loop: a text channel's messages are sorted and scanned. */
    static method ScanChannel(botUserId: string, channel: DiscordChannel, conv: seq<LogEntry>)
      returns (conversations: seq<LogEntry>, added: nat)
      ensures (conversations, added) == Scan(ChannelPairs(botUserId, channel), conv)
    {
      var ms := ScannedMessages(channel);
      conversations, added := ScanMessages(botUserId, ms, conv);
    }

    /** The channel loop of one guild. */
    static method ScanGuildChannels(botUserId: string, channels: seq<DiscordChannel>, conv: seq<LogEntry>)
      returns (conversations: seq<LogEntry>, added: nat)
      ensures (conversations, added) == Scan(ChannelsPairs(botUserId, channels, |channels|), conv)
    {
      conversations, added := conv, 0;
      for c := 0 to |channels|
        invariant conversations == Scan(ChannelsPairs(botUserId, channels, c), conv).0
        invariant added == Scan(ChannelsPairs(botUserId, channels, c), conv).1
      {
        ghost var start := (conversations, added);
        var channelCount;
        conversations, channelCount := ScanChannel(botUserId, channels[c], conversations);
        ChannelStep(botUserId, channels, c, conv, start, (conversations, channelCount));
        added := added + channelCount;
      }
    }

    /** The guild loop: every channel of every guild, in order. */
    static method ScanGuilds(botUserId: string, gs: seq<Option<DiscordGuild>>, conv: seq<LogEntry>)
      returns (conversations: seq<LogEntry>, added: nat)
      ensures (conversations, added) == Scan(GuildsPairs(botUserId, gs, |gs|), conv)
    {
      conversations, added := conv, 0;
      for g := 0 to |gs|
        invariant conversations == Scan(GuildsPairs(botUserId, gs, g), conv).0
        invariant added == Scan(GuildsPairs(botUserId, gs, g), conv).1
      {
        ghost var start := (conversations, added);
        var guildCount;
        conversations, guildCount := ScanGuildChannels(botUserId, GuildChannels(gs[g]), conversations);
        GuildStep(botUserId, gs, g, conv, start, (conversations, guildCount));
        added := added + guildCount;
      }
    }

    /**
     * `syncDiscordHistory` as seen by the client whose Discord account id is `botUserId`: `readOk` is whether
     * the log file can be read, `guilds` what `client.guilds.fetch` resolves
     * to (None when it throws; an entry is None when that guild cannot be
     * fetched), `writeOk` whether the file can be written. Returns the number
     * of entries added, or 0 when an outer step throws.
     */
    method SyncDiscordHistory(botUserId: string, readOk: bool, guilds: Option<seq<Option<DiscordGuild>>>, writeOk: bool)
      returns (syncCount: nat)
      modifies this
      ensures (entries, syncCount) == SyncOutcome(botUserId, old(entries), readOk, guilds, writeOk)
    {
      if !readOk || guilds.None? {
        return 0;
      }
      var conversations;
      conversations, syncCount := ScanGuilds(botUserId, guilds.value, entries);
      SyncOutcomeOfScan(botUserId, entries, guilds.value, writeOk, conversations, syncCount);
      if syncCount > 0 {
        if !writeOk {
          return 0;
        }
        entries := Finalized(conversations);
      }
    }
  }
}
