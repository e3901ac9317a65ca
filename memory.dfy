/**
 * Rolling per-channel conversation memory: each channel keeps its last 20
 * messages, each add restarts a 30-minute inactivity timer that clears the
 * channel, and the context handed to the model is the text of the messages
 * younger than 30 minutes. The clock is the explicit `now` parameter (ms).
 */
module Memory {
  import opened Wrappers
  import opened Text

  const MEMORY_TTL: int := 30 * 60 * 1000
  const MAX_MESSAGES: nat := 20

  /** `'user'` or `'model'`, the roles of the model's chat format. */
  datatype Speaker = UserTurn | ModelTurn

  datatype MemoryMessage = MemoryMessage(role: Speaker, text: string, timestamp: int)

  /** A channel's record: its messages, last activity, and when its clear timer fires (None before one is set). */
  datatype ChannelMemory = ChannelMemory(messages: seq<MemoryMessage>, lastActivity: int, timer: Option<int>)

  /** The entry `addMessageToMemory` appends. */
  function Entry(username: string, content: string, isBot: bool, now: int): MemoryMessage {
    MemoryMessage(if isBot then ModelTurn else UserTurn, username + ": " + content, now)
  }

  /** `messages.push(m)` followed by one `shift()` when there are more than 20. */
  function PushBounded(messages: seq<MemoryMessage>, m: MemoryMessage): (r: seq<MemoryMessage>)
    ensures |messages| <= MAX_MESSAGES ==> |r| <= MAX_MESSAGES
    ensures |r| > 0 && r[|r| - 1] == m
    ensures |messages| < MAX_MESSAGES ==> r == messages + [m]
    ensures |messages| >= MAX_MESSAGES ==> r == messages[1..] + [m]
  {
    var pushed := messages + [m];
    if |pushed| > MAX_MESSAGES then pushed[1..] else pushed
  }

  /** The store after `addMessageToMemory(channelId, username, content, isBot)` at time `now`. */
  function Added(store: map<string, ChannelMemory>, channelId: string, username: string, content: string,
                 isBot: bool, now: int): (r: map<string, ChannelMemory>)
    ensures r.Keys == store.Keys + {channelId}
    ensures forall c | c in store && c != channelId :: r[c] == store[c]
    ensures r[channelId].lastActivity == now && r[channelId].timer == Some(now + MEMORY_TTL)
  {
    var before := if channelId in store then store[channelId].messages else [];
    store[channelId := ChannelMemory(PushBounded(before, Entry(username, content, isBot, now)), now, Some(now + MEMORY_TTL))]
  }

  /** A message is still active when it is younger than the TTL. */
  predicate IsActive(m: MemoryMessage, now: int) {
    now - m.timestamp < MEMORY_TTL
  }

  /** `messages.filter(m => now - m.timestamp < MEMORY_TTL)`: the active messages, in stored order. */
  function Active(messages: seq<MemoryMessage>, now: int): (r: seq<MemoryMessage>)
    ensures |r| <= |messages|
    ensures forall k | 0 <= k < |r| :: IsActive(r[k], now) && r[k] in messages
    ensures forall k | 0 <= k < |messages| :: IsActive(messages[k], now) ==> messages[k] in r
    decreases |messages|
  {
    if messages == [] then []
    else if IsActive(messages[0], now) then [messages[0]] + Active(messages[1..], now)
    else Active(messages[1..], now)
  }

  /** Filtering distributes over appending one message. */
  lemma {:induction false} ActiveSnoc(messages: seq<MemoryMessage>, m: MemoryMessage, now: int)
    ensures Active(messages + [m], now) == Active(messages, now) + (if IsActive(m, now) then [m] else [])
    decreases |messages|
  {
    if messages == [] {
      assert messages + [m] == [m];
    } else {
      assert (messages + [m])[1..] == messages[1..] + [m];
      ActiveSnoc(messages[1..], m, now);
    }
  }

  /** Nothing survives the filter when every message is at least a TTL old. */
  lemma {:induction false} ActiveNone(messages: seq<MemoryMessage>, now: int)
    requires forall k | 0 <= k < |messages| :: !IsActive(messages[k], now)
    ensures Active(messages, now) == []
    decreases |messages|
  {
    if messages != [] {
      assert !IsActive(messages[0], now);
      ActiveNone(messages[1..], now);
    }
  }

  function Texts(messages: seq<MemoryMessage>): (r: seq<string>)
    ensures |r| == |messages|
    ensures forall k | 0 <= k < |r| :: r[k] == messages[k].text
  {
    seq(|messages|, k requires 0 <= k < |messages| => messages[k].text)
  }

  /** The texts of a buffer grown by one message end with that message's text. */
  lemma TextsSnoc(messages: seq<MemoryMessage>, m: MemoryMessage)
    ensures Texts(messages + [m]) == Texts(messages) + [m.text]
  {
    assert |Texts(messages + [m])| == |Texts(messages) + [m.text]|;
    forall k | 0 <= k < |messages| + 1
      ensures Texts(messages + [m])[k] == (Texts(messages) + [m.text])[k]
    {
      if k < |messages| { assert (messages + [m])[k] == messages[k]; }
    }
  }

  /**
   * `getContext(channelId)` at time `now`: "" for an unknown channel or an
   * empty buffer, otherwise the active messages' texts joined by newlines.
   */
  function GetContext(store: map<string, ChannelMemory>, channelId: string, now: int): (r: string)
    ensures channelId !in store || store[channelId].messages == [] ==> r == ""
  {
    if channelId !in store then ""
    else if |store[channelId].messages| == 0 then ""
    else Join(Texts(Active(store[channelId].messages, now)), "\n")
  }

  /** Right after a message is added, the channel's context ends with that message's text. */
  lemma ContextEndsWithLatest(store: map<string, ChannelMemory>, channelId: string, username: string,
                              content: string, isBot: bool, now: int)
    ensures
      var r := GetContext(Added(store, channelId, username, content, isBot, now), channelId, now);
      var text := username + ": " + content;
      |text| <= |r| && r[|r| - |text|..] == text
  {
    var before := if channelId in store then store[channelId].messages else [];
    var e := Entry(username, content, isBot, now);
    var kept := PushBounded(before, e);
    var older := kept[..|kept| - 1];
    assert kept == older + [e];
    ActiveSnoc(older, e, now);
    var after := Added(store, channelId, username, content, isBot, now);
    assert after[channelId].messages == kept;
    var texts := Texts(Active(older, now));
    assert IsActive(e, now);
    assert Active(kept, now) == Active(older, now) + [e];
    TextsSnoc(Active(older, now), e);
    JoinSnoc(texts, e.text, "\n");
    var r := GetContext(after, channelId, now);
    assert r == Join(texts + [e.text], "\n");
    var text := username + ": " + content;
    assert e.text == text;
    if texts != [] {
      var front := Join(texts, "\n") + "\n";
      assert r == front + text;
      assert r[|front|..] == text;
    }
  }

  /** A context only ever contains messages younger than the TTL: after 30 idle minutes it is empty. */
  lemma ContextExpires(store: map<string, ChannelMemory>, channelId: string, now: int)
    requires channelId in store
    requires forall k | 0 <= k < |store[channelId].messages| :: store[channelId].messages[k].timestamp <= now - MEMORY_TTL
    ensures GetContext(store, channelId, now) == ""
  {
    ActiveNone(store[channelId].messages, now);
  }

  /** Every channel holds at most 20 messages and has its clear timer set 30 minutes after its last activity. */
  predicate ValidStore(store: map<string, ChannelMemory>) {
    forall c | c in store :: |store[c].messages| <= MAX_MESSAGES && store[c].timer == Some(store[c].lastActivity + MEMORY_TTL)
  }

  /** Adding a message keeps every channel within 20 messages and its timer in step with its activity. */
  lemma AddedKeepsValid(store: map<string, ChannelMemory>, channelId: string, username: string, content: string,
                        isBot: bool, now: int)
    requires ValidStore(store)
    ensures ValidStore(Added(store, channelId, username, content, isBot, now))
  {
    var r := Added(store, channelId, username, content, isBot, now);
    forall c | c in r
      ensures |r[c].messages| <= MAX_MESSAGES && r[c].timer == Some(r[c].lastActivity + MEMORY_TTL)
    {
      if c != channelId {
        assert r[c] == store[c];
      }
    }
  }

  class MemoryStore {
    /** `memoryStore`: channelId -> channel record. */
    var store: map<string, ChannelMemory>

    ghost predicate Valid()
      reads this
    {
      ValidStore(store)
    }

    constructor ()
      ensures Valid() && store == map[]
    {
      store := map[];
    }

    /**
     * `addMessageToMemory`: create the record if missing, stamp the activity,
     * restart the timer, push the entry and drop the oldest beyond 20.
     */
    method AddMessageToMemory(channelId: string, username: string, content: string, isBot: bool, now: int)
      requires Valid()
      modifies this
      ensures Valid()
      ensures store == Added(old(store), channelId, username, content, isBot, now)
    {
      ghost var before := store;
      if channelId !in store {
        store := store[channelId := ChannelMemory([], now, None)];
      }
      var memory := store[channelId];
      memory := memory.(lastActivity := now);
      memory := memory.(timer := Some(now + MEMORY_TTL));
      var messages := memory.messages + [Entry(username, content, isBot, now)];
      if |messages| > MAX_MESSAGES {
        messages := messages[1..];
      }
      store := store[channelId := memory.(messages := messages)];
      assert store == Added(before, channelId, username, content, isBot, now);
      AddedKeepsValid(before, channelId, username, content, isBot, now);
    }

    /** `clearMemory`: the channel's record is removed; nothing else changes. */
    method ClearMemory(channelId: string)
      requires Valid()
      modifies this
      ensures Valid()
      ensures store == old(store) - {channelId}
    {
      if channelId in store {
        store := store - {channelId};
      }
    }

    /** The clear timers due by `now` fire: every channel idle for the whole TTL is cleared. */
    method FireDueTimers(now: int)
      requires Valid()
      modifies this
      ensures Valid()
      ensures store == map c | c in old(store) && old(store)[c].lastActivity + MEMORY_TTL > now :: old(store)[c]
    {
      store := map c | c in store && store[c].timer.Some? && store[c].timer.value > now :: store[c];
    }
  }

  /** A channel written to at `t` survives every timer that fires before `t + TTL` and none at or after it. */
  lemma SurvivesUntilTtl(store: map<string, ChannelMemory>, channelId: string, username: string,
                         content: string, isBot: bool, t: int, now: int)
    ensures var after := Added(store, channelId, username, content, isBot, t);
            (channelId in (map c | c in after && after[c].lastActivity + MEMORY_TTL > now :: after[c]))
            <==> now < t + MEMORY_TTL
  {
  }
}
