/**
 * The guild service: finding a running bot that can reach a Discord guild
 * and listing that guild's text channels, and writing the channels an
 * operator selected into the channel collection.
 */
module GuildService {
  import opened Wrappers
  import opened Discord
  import opened Models
  import opened BotService

  const DISCORD_ERROR_PREFIX: string := "Lỗi Discord: "
  const NOT_INVITED_OPEN: string := "Bot Alice chưa được mời vào Server (ID: "
  const NOT_INVITED_CLOSE: string := ") hoặc ID bị sai. Vui lòng kiểm tra lại."

  /** The error when no running bot can reach the guild. */
  function NotInvited(guildId: string): string {
    NOT_INVITED_OPEN + guildId + NOT_INVITED_CLOSE
  }

  /** `{ id, name }` of a text channel. */
  datatype ChannelSummary = ChannelSummary(id: string, name: string)

  /** What `fetchDiscordGuildData` returns. */
  datatype GuildData = GuildData(name: string, channels: seq<ChannelSummary>)

  /** `channels.filter(c => c.type === 0).map(c => ({ id, name }))`. */
  function TextChannels(cs: seq<DiscordChannel>): seq<ChannelSummary>
    decreases |cs|
  {
    if cs == [] then []
    else
      var rest := TextChannels(cs[1..]);
      if cs[0].channelType == TEXT_CHANNEL then [ChannelSummary(cs[0].id, cs[0].name)] + rest else rest
  }

  /** The listing holds a summary of every text channel, in order, and of nothing else. */
  lemma {:induction false} TextChannelsExact(cs: seq<DiscordChannel>)
    ensures |TextChannels(cs)| <= |cs|
    ensures forall c | c in cs && c.channelType == TEXT_CHANNEL :: ChannelSummary(c.id, c.name) in TextChannels(cs)
    ensures forall x | x in TextChannels(cs) ::
              exists c | c in cs :: c.channelType == TEXT_CHANNEL && x == ChannelSummary(c.id, c.name)
    decreases |cs|
  {
    if cs != [] {
      TextChannelsExact(cs[1..]);
      forall c | c in cs && c.channelType == TEXT_CHANNEL ensures ChannelSummary(c.id, c.name) in TextChannels(cs) {
        if c != cs[0] {
          assert c in cs[1..];
        }
      }
      forall x | x in TextChannels(cs)
        ensures exists c | c in cs :: c.channelType == TEXT_CHANNEL && x == ChannelSummary(c.id, c.name)
      {
        if x in TextChannels(cs[1..]) {
          var c :| c in cs[1..] && c.channelType == TEXT_CHANNEL && x == ChannelSummary(c.id, c.name);
          assert c in cs;
        } else {
          assert cs[0] in cs;
        }
      }
    }
  }

  /**
   * The registered client can serve the guild: it is ready, and asking for
   * the guild in its cache or from Discord gives it, without the lookup
   * throwing (which needs its account for the log line).
   */
  predicate Reaches(r: Registry, k: nat, guildId: string)
    requires k < |r.order|
  {
    r.order[k] in r.clients
    && var session := r.clients[r.order[k]].session;
    session.ready && session.user.Some? && guildId in session.guilds
  }

  /** The first position from `i` on whose client reaches the guild. */
  function FirstReaching(r: Registry, guildId: string, i: nat): (k: Option<nat>)
    requires i <= |r.order|
    ensures k.Some? ==> i <= k.value < |r.order| && Reaches(r, k.value, guildId)
    decreases |r.order| - i
  {
    if i == |r.order| then None
    else if Reaches(r, i, guildId) then Some(i)
    else FirstReaching(r, guildId, i + 1)
  }

  /** The position found reaches the guild and none before it from `i` does; none is found exactly when none reaches it. */
  lemma {:induction false} FirstReachingSpec(r: Registry, guildId: string, i: nat)
    requires i <= |r.order|
    ensures var k := FirstReaching(r, guildId, i);
            k.Some? ==> i <= k.value < |r.order| && Reaches(r, k.value, guildId)
                        && forall j | i <= j < k.value :: !Reaches(r, j, guildId)
    ensures FirstReaching(r, guildId, i).None? <==> forall j | i <= j < |r.order| :: !Reaches(r, j, guildId)
    decreases |r.order| - i
  {
    if i < |r.order| && !Reaches(r, i, guildId) {
      FirstReachingSpec(r, guildId, i + 1);
    }
  }

  /**
   * The outcome of `fetchDiscordGuildData(guildId)` for the registry, where
   * `refetch` is what fetching the guild from the chosen client once more
   * yields: the name and text channels of the guild as the first client
   * reaching it sees it, with Discord's errors prefixed.
   */
  function GuildDataOf(r: Registry, guildId: string, refetch: Outcome<string>): Result<GuildData, string>
  {
    match FirstReaching(r, guildId, 0)
    case None => Failure(NotInvited(guildId))
    case Some(k) =>
      var guild := r.clients[r.order[k]].session.guilds[guildId];
      if refetch.Fail? then Failure(DISCORD_ERROR_PREFIX + refetch.error)
      else match guild.channels
        case Failure(e) => Failure(DISCORD_ERROR_PREFIX + e)
        case Success(cs) => Success(GuildData(guild.name, TextChannels(cs)))
  }

  /** No client reaching the guild is the one error that is not Discord's. */
  lemma NotInvitedIffNoClient(r: Registry, guildId: string, refetch: Outcome<string>)
    ensures GuildDataOf(r, guildId, refetch) == Failure(NotInvited(guildId)) <==>
              forall j | 0 <= j < |r.order| :: !Reaches(r, j, guildId)
  {
    FirstReachingSpec(r, guildId, 0);
    if FirstReaching(r, guildId, 0).Some? {
      var e := GuildDataOf(r, guildId, refetch);
      if e.Failure? {
        assert e.error[0] == DISCORD_ERROR_PREFIX[0] == 'L';
        assert NotInvited(guildId)[0] == 'B';
      }
    }
  }

  /** A listing comes from the guild as the earliest ready client that reaches it sees it. */
  lemma ListingFromFirstClient(r: Registry, guildId: string, refetch: Outcome<string>)
    requires GuildDataOf(r, guildId, refetch).Success?
    ensures exists k | 0 <= k < |r.order| ::
              && Reaches(r, k, guildId)
              && (forall j | 0 <= j < k :: !Reaches(r, j, guildId))
              && var guild := r.clients[r.order[k]].session.guilds[guildId];
                 guild.channels.Success?
                 && GuildDataOf(r, guildId, refetch).value == GuildData(guild.name, TextChannels(guild.channels.value))
  {
    FirstReachingSpec(r, guildId, 0);
    var k := FirstReaching(r, guildId, 0).value;
    assert 0 <= k < |r.order| && Reaches(r, k, guildId);
  }

  /**
   * `guildService.fetchDiscordGuildData(guildId)` over the clients of
   * `manager`: the loop over the clients in order that stops at the first one
   * that reaches the guild, then the listing of its channels.
   */
  method FetchDiscordGuildData(manager: BotManager, guildId: string, refetch: Outcome<string>)
    returns (result: Result<GuildData, string>)
    ensures result == GuildDataOf(manager.registry, guildId, refetch)
  {
    var r := manager.registry;
    var found: Option<nat> := None;
    var i := 0;
    while i < |r.order|
      invariant 0 <= i <= |r.order|
      invariant found.None?
      invariant FirstReaching(r, guildId, 0) == FirstReaching(r, guildId, i)
    {
      var id := r.order[i];
      if id !in r.clients || !r.clients[id].session.ready {
        i := i + 1;
        continue;
      }
      var session := r.clients[id].session;
      if session.user.None? {
        i := i + 1;
        continue;
      }
      if guildId in session.guilds {
        found := Some(i);
        break;
      }
      i := i + 1;
    }
    if found.None? {
      assert FirstReaching(r, guildId, 0).None?;
      return Failure(NotInvited(guildId));
    }
    assert FirstReaching(r, guildId, 0) == found;
    var client := r.clients[r.order[found.value]];
    var guild := client.session.guilds[guildId];
    if refetch.Fail? {
      return Failure(DISCORD_ERROR_PREFIX + refetch.error);
    }
    match guild.channels
    case Failure(e) =>
      result := Failure(DISCORD_ERROR_PREFIX + e);
    case Success(cs) =>
      result := Success(GuildData(guild.name, TextChannels(cs)));
  }

  // ---------------------------------------------------------------------------
  // syncChannels
  // ---------------------------------------------------------------------------

  /** An entry of `selectedChannels`; "" stands for a missing bot id. */
  datatype SelectedChannel = SelectedChannel(channelId: string, name: string, botId: string)

  /** The bot id a channel document gets: the selected one if given, otherwise `fallback`. */
  function BotIdOf(ch: SelectedChannel, fallback: Option<string>): Option<string> {
    if ch.botId != "" then Some(ch.botId) else fallback
  }

  /** One step of `syncChannels`: the existing document renamed and moved to the guild, or a new active one. */
  function Upsert(records: map<string, ChannelRecord>, guildId: string, ch: SelectedChannel): (r: map<string, ChannelRecord>)
    ensures r.Keys == records.Keys + {ch.channelId}
    ensures forall id | id in records && id != ch.channelId :: r[id] == records[id]
    ensures var rec := r[ch.channelId];
            rec.name == ch.name && rec.guildId == guildId
            && (ch.channelId in records ==>
                  rec == records[ch.channelId].(name := ch.name, guildId := guildId,
                                                botId := BotIdOf(ch, records[ch.channelId].botId)))
            && (ch.channelId !in records ==> rec == ChannelRecord(ch.channelId, guildId, ch.name, BotIdOf(ch, None), true))
  {
    if ch.channelId in records then
      var existing := records[ch.channelId];
      records[ch.channelId := existing.(name := ch.name, guildId := guildId, botId := BotIdOf(ch, existing.botId))]
    else
      records[ch.channelId := ChannelRecord(ch.channelId, guildId, ch.name, BotIdOf(ch, None), true)]
  }

  /** The channel collection after syncing `selected` in order. */
  function SyncAll(records: map<string, ChannelRecord>, guildId: string, selected: seq<SelectedChannel>): map<string, ChannelRecord>
    decreases |selected|
  {
    if selected == [] then records
    else Upsert(SyncAll(records, guildId, selected[..|selected| - 1]), guildId, selected[|selected| - 1])
  }

  /** `results.added`: how many selected entries found no document under their id when their turn came. */
  function AddedCount(records: map<string, ChannelRecord>, guildId: string, selected: seq<SelectedChannel>): nat
    decreases |selected|
  {
    if selected == [] then 0
    else
      var init := selected[..|selected| - 1];
      AddedCount(records, guildId, init) + (if selected[|selected| - 1].channelId in SyncAll(records, guildId, init) then 0 else 1)
  }

  /** The ids of the selected channels. */
  function SelectedIds(selected: seq<SelectedChannel>): set<string> {
    set k | 0 <= k < |selected| :: selected[k].channelId
  }

  /** The ids of a selection grown by one entry. */
  lemma SelectedIdsSnoc(selected: seq<SelectedChannel>)
    requires selected != []
    ensures SelectedIds(selected) == SelectedIds(selected[..|selected| - 1]) + {selected[|selected| - 1].channelId}
  {
    var init := selected[..|selected| - 1];
    forall id | id in SelectedIds(selected) ensures id in SelectedIds(init) + {selected[|selected| - 1].channelId} {
      var k :| 0 <= k < |selected| && selected[k].channelId == id;
      if k < |init| {
        assert init[k] == selected[k];
      }
    }
    forall id | id in SelectedIds(init) ensures id in SelectedIds(selected) {
      var k :| 0 <= k < |init| && init[k].channelId == id;
      assert selected[k] == init[k];
    }
  }

  /** Afterwards the collection holds exactly the documents it held and one per selected id. */
  lemma {:induction false} SyncAllKeys(records: map<string, ChannelRecord>, guildId: string, selected: seq<SelectedChannel>)
    ensures SyncAll(records, guildId, selected).Keys == records.Keys + SelectedIds(selected)
    decreases |selected|
  {
    if selected != [] {
      SyncAllKeys(records, guildId, selected[..|selected| - 1]);
      SelectedIdsSnoc(selected);
    }
  }

  /**
   * Every selected channel ends in the guild, a document not selected is
   * untouched, and no document's active flag is changed; new ones are active.
   */
  lemma {:induction false} SyncAllSpec(records: map<string, ChannelRecord>, guildId: string, selected: seq<SelectedChannel>)
    ensures forall id | id in SyncAll(records, guildId, selected) && id in SelectedIds(selected) ::
              SyncAll(records, guildId, selected)[id].guildId == guildId
    ensures forall id | id in records && id !in SelectedIds(selected) ::
              id in SyncAll(records, guildId, selected) && SyncAll(records, guildId, selected)[id] == records[id]
    ensures forall id | id in SyncAll(records, guildId, selected) ::
              SyncAll(records, guildId, selected)[id].isActive == (id in records ==> records[id].isActive)
    decreases |selected|
  {
    if selected != [] {
      var init := selected[..|selected| - 1];
      SyncAllSpec(records, guildId, init);
      SyncAllKeys(records, guildId, init);
      SelectedIdsSnoc(selected);
    }
  }

  /** Each document's id as a selected channel: with distinct ids, each one ends as upserting it alone would leave it. */
  lemma {:induction false} SyncDistinct(records: map<string, ChannelRecord>, guildId: string, selected: seq<SelectedChannel>, k: nat)
    requires forall i, j | 0 <= i < j < |selected| :: selected[i].channelId != selected[j].channelId
    requires k < |selected|
    ensures var r := SyncAll(records, guildId, selected);
            selected[k].channelId in r && r[selected[k].channelId] == Upsert(records, guildId, selected[k])[selected[k].channelId]
    decreases |selected|
  {
    var init := selected[..|selected| - 1];
    var last := selected[|selected| - 1];
    SyncAllSpec(records, guildId, init);
    SyncAllKeys(records, guildId, init);
    if k == |selected| - 1 {
      assert last.channelId !in SelectedIds(init) by {
        forall i | 0 <= i < |init| ensures init[i].channelId != last.channelId {
          assert init[i] == selected[i];
        }
      }
    } else {
      assert selected[k] == init[k];
      assert selected[k].channelId != last.channelId;
      SyncDistinct(records, guildId, init, k);
    }
  }

  /** Every entry is counted once, as added or as updated, and the counts follow the evolving collection. */
  lemma {:induction false} AddedCountBound(records: map<string, ChannelRecord>, guildId: string, selected: seq<SelectedChannel>)
    ensures AddedCount(records, guildId, selected) <= |selected|
    ensures (forall k | 0 <= k < |selected| :: selected[k].channelId in records) ==> AddedCount(records, guildId, selected) == 0
    decreases |selected|
  {
    if selected != [] {
      var init := selected[..|selected| - 1];
      AddedCountBound(records, guildId, init);
      SyncAllKeys(records, guildId, init);
      if forall k | 0 <= k < |selected| :: selected[k].channelId in records {
        forall k | 0 <= k < |init| ensures init[k].channelId in records {
          assert init[k] == selected[k];
        }
      }
    }
  }

  /** Syncing the same selection again adds nothing: every entry is then an update. */
  lemma SyncAgainAddsNothing(records: map<string, ChannelRecord>, guildId: string, selected: seq<SelectedChannel>)
    ensures AddedCount(SyncAll(records, guildId, selected), guildId, selected) == 0
  {
    var r := SyncAll(records, guildId, selected);
    SyncAllKeys(records, guildId, selected);
    forall k | 0 <= k < |selected| ensures selected[k].channelId in r {
      assert selected[k].channelId in SelectedIds(selected);
    }
    AddedCountBound(r, guildId, selected);
  }

  /** The channel collection (`Channel`), keyed by the unique `channelId`. */
  class ChannelStore {
    var records: map<string, ChannelRecord>

    constructor ()
      ensures records == map[]
    {
      records := map[];
    }

    /**
     * `syncChannels(guildId, selectedChannels)`: each entry in turn updates the
     * document with its id or creates an active one; the counts of each kind
     * are returned.
     */
    method SyncChannels(guildId: string, selected: seq<SelectedChannel>) returns (added: nat, updated: nat)
      modifies this
      ensures records == SyncAll(old(records), guildId, selected)
      ensures added == AddedCount(old(records), guildId, selected)
      ensures added + updated == |selected|
    {
      ghost var start := records;
      added, updated := 0, 0;
      for i := 0 to |selected|
        invariant records == SyncAll(start, guildId, selected[..i])
        invariant added == AddedCount(start, guildId, selected[..i])
        invariant added + updated == i
      {
        var ch := selected[i];
        assert selected[..i + 1][..i] == selected[..i] && selected[..i + 1][i] == ch;
        if ch.channelId in records {
          var existing := records[ch.channelId];
          existing := existing.(name := ch.name, guildId := guildId);
          if ch.botId != "" {
            existing := existing.(botId := Some(ch.botId));
          }
          records := records[ch.channelId := existing];
          updated := updated + 1;
        } else {
          var botId := if ch.botId != "" then Some(ch.botId) else None;
          records := records[ch.channelId := ChannelRecord(ch.channelId, guildId, ch.name, botId, true)];
          added := added + 1;
        }
      }
      assert selected[..|selected|] == selected;
    }
  }
}
