/**
 * The bot manager: the registry of logged-in clients, keyed by bot id in the
 * order they were started, and the handler every client runs on a new
 * message. The handler records the message in the channel memory, answers
 * only in a channel assigned to its bot and only when mentioned, lets the
 * moderation pass screen the text, and replies with the model's answer, which
 * it records in memory and in the conversation log.
 *
 * Discord login, the toxicity classifier, the answer generator and the
 * Discord calls of the handler are oracles: parameters giving what each call
 * yields.
 */
module BotService {
  import opened Wrappers
  import opened Text
  import opened Discord
  import opened Models
  import opened EmbedHelper
  import opened Moderation
  import opened Memory
  import opened Conversations

  const NOT_CONNECTED: string := "Bot client is not connected or user data is unavailable."

  /** `client.user`: the Discord account of a client, with its avatar URL at size 256. */
  datatype BotUser = BotUser(id: string, username: string, avatarUrl: string)

  /** What a client is once logged in: whether it is ready, its account if known, and the guilds it can reach. */
  datatype Session = Session(ready: bool, user: Option<BotUser>, guilds: map<string, DiscordGuild>)

  /** A registered client: the bot document it was started with and its session. */
  datatype BotClient = BotClient(config: BotData, session: Session)

  /** `this.clients`: a Map, so its ids in insertion order along with the client of each. */
  datatype Registry = Registry(order: seq<string>, clients: map<string, BotClient>)

  /** The ids are listed once each, and exactly the ids with a client are listed. */
  predicate WellFormed(r: Registry) {
    && (forall i, j | 0 <= i < j < |r.order| :: r.order[i] != r.order[j])
    && r.clients.Keys == set id | id in r.order
  }

  /** `order` without `id`, the others in the same order. */
  function Remove(order: seq<string>, id: string): (r: seq<string>)
    ensures forall x :: x in r <==> x in order && x != id
    ensures id !in order ==> r == order
    decreases |order|
  {
    if order == [] then []
    else if order[0] == id then Remove(order[1..], id)
    else [order[0]] + Remove(order[1..], id)
  }

  /** Removing an id keeps the other ids listed once each. */
  lemma {:induction false} RemoveDistinct(order: seq<string>, id: string)
    requires forall i, j | 0 <= i < j < |order| :: order[i] != order[j]
    ensures forall i, j | 0 <= i < j < |Remove(order, id)| :: Remove(order, id)[i] != Remove(order, id)[j]
    decreases |order|
  {
    if order != [] {
      var tail := order[1..];
      assert forall i, j | 0 <= i < j < |tail| :: tail[i] != tail[j] by {
        forall i, j | 0 <= i < j < |tail| ensures tail[i] != tail[j] {
          assert tail[i] == order[i + 1] && tail[j] == order[j + 1];
        }
      }
      RemoveDistinct(tail, id);
      if order[0] != id {
        var rest := Remove(tail, id);
        assert order[0] !in tail by {
          forall k | 0 <= k < |tail| ensures tail[k] != order[0] {
            assert tail[k] == order[k + 1];
          }
        }
        assert order[0] !in rest;
        var r := [order[0]] + rest;
        forall i, j | 0 <= i < j < |r| ensures r[i] != r[j] {
          if i == 0 {
            assert r[i] == order[0] && r[j] == rest[j - 1] && rest[j - 1] in rest;
          } else {
            assert r[i] == rest[i - 1] && r[j] == rest[j - 1];
          }
        }
      }
    }
  }

  /**
   * The registry after `startBot(bot)`: unchanged when the id is already
   * registered or the login throws (`login` is None), otherwise the client is
   * added under the bot's id, last in order.
   */
  function Started(r: Registry, bot: BotData, login: Option<Session>): (s: Registry)
    ensures bot.id in r.clients || login.None? ==> s == r
    ensures bot.id !in r.clients && login.Some? ==>
              s.order == r.order + [bot.id] && s.clients == r.clients[bot.id := BotClient(bot, login.value)]
  {
    if bot.id in r.clients then r
    else match login
      case None => r
      case Some(session) => Registry(r.order + [bot.id], r.clients[bot.id := BotClient(bot, session)])
  }

  /** The registry after `stopBot(id)`: the id and its client gone, everything else as it was. */
  function Stopped(r: Registry, id: string): (s: Registry)
    ensures s.clients == r.clients - {id}
    ensures id !in r.clients ==> s == r
  {
    if id in r.clients then Registry(Remove(r.order, id), r.clients - {id}) else r
  }

  lemma StartedWellFormed(r: Registry, bot: BotData, login: Option<Session>)
    requires WellFormed(r)
    ensures WellFormed(Started(r, bot, login))
  {
    var s := Started(r, bot, login);
    if bot.id !in r.clients && login.Some? {
      assert bot.id !in r.order;
      forall i, j | 0 <= i < j < |s.order| ensures s.order[i] != s.order[j] {
        if j == |r.order| {
          assert s.order[i] == r.order[i];
        } else {
          assert s.order[i] == r.order[i] && s.order[j] == r.order[j];
        }
      }
    }
  }

  lemma StoppedWellFormed(r: Registry, id: string)
    requires WellFormed(r)
    ensures WellFormed(Stopped(r, id))
  {
    if id in r.clients {
      RemoveDistinct(r.order, id);
      var s := Stopped(r, id);
      assert s.order == Remove(r.order, id);
      assert s.clients.Keys == set x | x in s.order;
    }
  }

  /** Starting a bot a second time changes nothing, whatever its login would do. */
  lemma StartIdempotent(r: Registry, bot: BotData, login: Option<Session>, again: Option<Session>)
    ensures login.Some? ==> Started(Started(r, bot, login), bot, again) == Started(r, bot, login)
  {
  }

  /** Stopping a bot a second time changes nothing. */
  lemma StopIdempotent(r: Registry, id: string)
    ensures Stopped(Stopped(r, id), id) == Stopped(r, id)
  {
  }

  /** Stopping a bot just started gives back the registry it was started in. */
  lemma StopUndoesStart(r: Registry, bot: BotData, session: Session)
    requires WellFormed(r) && bot.id !in r.clients
    ensures Stopped(Started(r, bot, Some(session)), bot.id) == r
  {
    var s := Started(r, bot, Some(session));
    assert bot.id !in r.order;
    RemoveAppended(r.order, bot.id);
    assert s.clients - {bot.id} == r.clients;
  }

  /** Removing the id appended to a list that lacked it gives the list back. */
  lemma {:induction false} RemoveAppended(order: seq<string>, id: string)
    requires id !in order
    ensures Remove(order + [id], id) == order
    decreases |order|
  {
    if order == [] {
      assert order + [id] == [id];
    } else {
      assert (order + [id])[1..] == order[1..] + [id];
      RemoveAppended(order[1..], id);
      assert order == [order[0]] + order[1..];
    }
  }

  /** `{ discordName, avatarUrl }` of `syncMetadata`. */
  datatype BotMetadata = BotMetadata(discordName: string, avatarUrl: string)

  class BotManager {
    var registry: Registry

    ghost predicate Valid()
      reads this
    {
      WellFormed(registry)
    }

    constructor ()
      ensures Valid() && registry == Registry([], map[])
    {
      registry := Registry([], map[]);
    }

    /**
     * `startBot(botData)`: nothing happens for a registered id; otherwise the
     * client logs in (`login` is its session, None when `client.login` throws)
     * and is registered only when that succeeds.
     */
    method StartBot(bot: BotData, login: Option<Session>)
      requires Valid()
      modifies this
      ensures Valid()
      ensures registry == Started(old(registry), bot, login)
    {
      StartedWellFormed(registry, bot, login);
      if bot.id in registry.clients {
        return;
      }
      if login.Some? {
        var client := BotClient(bot, login.value);
        registry := Registry(registry.order + [bot.id], registry.clients[bot.id := client]);
      }
    }

    /** `stopBot(botId)`: the client is destroyed and unregistered; an unknown id is a no-op. */
    method StopBot(botId: string)
      requires Valid()
      modifies this
      ensures Valid()
      ensures registry == Stopped(old(registry), botId)
    {
      StoppedWellFormed(registry, botId);
      if botId in registry.clients {
        registry := Registry(Remove(registry.order, botId), registry.clients - {botId});
      }
    }

    /**
     * `syncMetadata(botId)`: the account name and avatar of a connected
     * client, as written to its bot document (`saved` is that write's
     * outcome); the fixed error when the client or its account is missing,
     * and the write's own error when the write fails.
     */
    function SyncMetadata(botId: string, saved: Outcome<string>): (r: Result<BotMetadata, string>)
      reads this
      ensures r.Success? <==> botId in registry.clients && registry.clients[botId].session.user.Some? && saved.Pass?
      ensures r.Success? ==> r.value.discordName == registry.clients[botId].session.user.value.username
                              && r.value.avatarUrl == registry.clients[botId].session.user.value.avatarUrl
      ensures botId !in registry.clients || registry.clients[botId].session.user.None? ==> r == Failure(NOT_CONNECTED)
      ensures botId in registry.clients && registry.clients[botId].session.user.Some? && saved.Fail? ==>
                r == Failure(saved.error)
    {
      if botId !in registry.clients || registry.clients[botId].session.user.None? then Failure(NOT_CONNECTED)
      else
        var user := registry.clients[botId].session.user.value;
        match saved
        case Fail(e) => Failure(e)
        case Pass => Success(BotMetadata(user.username, user.avatarUrl))
    }
  }

  // ---------------------------------------------------------------------------
  // The message handler
  // ---------------------------------------------------------------------------

  /** What `checkToxicity` answers. */
  datatype Toxicity = Toxicity(isToxic: bool, level: string, reason: string)

  /** A `messageCreate` event: the message, its channel, its guild if any, and the roles it mentions. */
  datatype Incoming = Incoming(message: DiscordMessage, channelId: string, guild: Option<DiscordGuild>, mentionedRoles: seq<Role>)

  /**
   * What the Discord calls of the handler yield, whether the violations file
   * can be read, parsed and written, and whether the log file can be written.
   */
  datatype HandlerCalls = HandlerCalls(moderation: ModerationCalls, violationsOk: bool, typingOk: bool, replyOk: bool,
                                       logOk: bool)

  /** Where the handler stops, and the reply when it gets that far. */
  datatype Stage =
    | Ignored        // written by a bot
    | Unassigned     // the channel is not an active channel of this bot
    | NotMentioned
    | NothingToAsk   // nothing is left once the mentions are stripped
    | Moderated      // the moderation pass handled the message
    | Failed         // a call inside the `try` threw
    | Replied(text: string, embed: Embed)

  /** `processedContent.replace('<@&id>', '@name')` for each mentioned role in turn. */
  function RewriteRoles(content: string, roles: seq<Role>): string
    decreases |roles|
  {
    if roles == [] then content
    else
      var last := roles[|roles| - 1];
      ReplaceFirst(RewriteRoles(content, roles[..|roles| - 1]), RoleMention(last.id), "@" + last.name)
  }

  /** A text in which none of the roles is mentioned is left as it is. */
  lemma {:induction false} RewriteWithoutTokens(content: string, roles: seq<Role>)
    requires forall k | 0 <= k < |roles| :: !Includes(content, RoleMention(roles[k].id))
    ensures RewriteRoles(content, roles) == content
    decreases |roles|
  {
    if roles != [] {
      var init := roles[..|roles| - 1];
      forall k | 0 <= k < |init| ensures !Includes(content, RoleMention(init[k].id)) {
        assert init[k] == roles[k];
      }
      RewriteWithoutTokens(content, init);
      assert !Includes(content, RoleMention(roles[|roles| - 1].id));
    }
  }

  /**
   * A leading mention of the one role mentioned becomes `@` and the role's
   * name, with the `$` patterns of the name substituted: a name without `$`
   * appears as written.
   */
  lemma RewriteLeadingRole(role: Role, rest: string)
    ensures RewriteRoles(RoleMention(role.id) + rest, [role]) ==
              Substitution("@" + role.name, RoleMention(role.id), "", rest) + rest
    ensures '$' !in role.name ==> RewriteRoles(RoleMention(role.id) + rest, [role]) == "@" + role.name + rest
  {
    assert [role][..0] == [];
    ReplaceFirstAtStart(RoleMention(role.id), rest, "@" + role.name);
    if '$' !in role.name {
      assert '$' !in "@" + role.name;
    }
  }

  /** A role name holding `$$` is not inserted as written: `VIP$$` appears as `@VIP$`. */
  lemma RewriteDoubledDollarRole(id: string, rest: string)
    ensures RewriteRoles(RoleMention(id) + rest, [Role(id, "VIP$$")]) == "@VIP$" + rest
  {
    var role := Role(id, "VIP$$");
    RewriteLeadingRole(role, rest);
    assert "@" + role.name == "@VIP$$";
    SubstitutionDoubledDollar(RoleMention(id), rest);
  }

  /** A role name holding `$&` puts the mention itself back: `a$&b` appears as `@a<@&id>b`. */
  lemma RewriteMatchedTextRole(id: string, rest: string)
    ensures RewriteRoles(RoleMention(id) + rest, [Role(id, "a$&b")]) == "@a" + RoleMention(id) + "b" + rest
  {
    var role := Role(id, "a$&b");
    RewriteLeadingRole(role, rest);
    assert "@" + role.name == "@a$&b";
    SubstitutionMatchedText(RoleMention(id), rest);
  }

  /** The `forEach` over the mentioned roles. */
  method RewriteRoleMentions(content: string, roles: seq<Role>) returns (processed: string)
    ensures processed == RewriteRoles(content, roles)
  {
    processed := content;
    for k := 0 to |roles|
      invariant processed == RewriteRoles(content, roles[..k])
    {
      assert roles[..k + 1][..k] == roles[..k];
      processed := ReplaceFirst(processed, RoleMention(roles[k].id), "@" + roles[k].name);
    }
    assert roles[..|roles|] == roles;
  }

  /** `contentForAI`: role mentions rewritten (in a guild), then the bot's mentions stripped and the rest trimmed. */
  function ContentForAI(m: Incoming, botUserId: string): string {
    var processed := if m.guild.Some? then RewriteRoles(m.message.content, m.mentionedRoles) else m.message.content;
    StripBotMention(processed, botUserId)
  }

  /** The channel has an active record whose bot is this bot. */
  predicate Assigned(records: map<string, ChannelRecord>, channelId: string, botId: string) {
    channelId in records && records[channelId].isActive && records[channelId].botId == Some(botId)
  }

  /** The reply embed: a success embed, whose colour is then set to the configured success colour as given. */
  function ReplyEmbed(text: string, bot: BotData): (e: Embed)
    ensures e.description == text && e.title == ResolveTitle(Some(bot)) && e.footer == ResolveFooter(Some(bot))
    ensures ConfiguredColor(Some(bot), SuccessKind) != "" ==> e.color == ConfiguredColor(Some(bot), SuccessKind)
    ensures ConfiguredColor(Some(bot), SuccessKind) == "" ==> e.color == ResolveColor(Some(bot), SuccessKind)
  {
    var e := CreateSuccessEmbed(text, Some(bot));
    var raw := ConfiguredColor(Some(bot), SuccessKind);
    if raw != "" then e.(color := raw) else e
  }

  /** The message reaches the model's side: a human wrote it, in this bot's channel, mentioning the bot, with text left. */
  predicate Addressed(bot: BotData, botUserId: string, m: Incoming, records: map<string, ChannelRecord>) {
    !m.message.authorIsBot && Assigned(records, m.channelId, bot.id) && m.message.mentionsBot
    && ContentForAI(m, botUserId) != ""
  }

  /** The moderation pass runs: the message is addressed and classified as toxic. */
  predicate Screened(bot: BotData, botUserId: string, m: Incoming, records: map<string, ChannelRecord>,
                     classify: string -> Result<Toxicity, string>)
  {
    Addressed(bot, botUserId, m, records)
    && classify(ContentForAI(m, botUserId)).Success? && classify(ContentForAI(m, botUserId)).value.isToxic
  }

  /** The violation counts after the handler: the author's is one more when the moderation pass stored its count. */
  function Penalized(violations: map<string, nat>, userId: string, screened: bool): map<string, nat> {
    if screened then violations[userId := (if userId in violations then violations[userId] else 0) + 1]
    else violations
  }

  /** The memory as it is once the message has been recorded. */
  function Heard(store: map<string, ChannelMemory>, m: Incoming, now: int): map<string, ChannelMemory> {
    Added(store, m.channelId, m.message.authorUsername, m.message.content, false, now)
  }

  /**
   * The handler from the toxicity check on, for the text `content`: the
   * moderation pass, then the answer and the reply.
   */
  function Answer(bot: BotData, content: string, guild: Option<DiscordGuild>, prior: nat,
                  classify: string -> Result<Toxicity, string>, generate: (string, string) -> Result<string, string>,
                  context: string, calls: HandlerCalls): Stage
  {
    match classify(content)
    case Failure(_) => Failed
    case Success(t) =>
      if t.isToxic && !calls.violationsOk then Failed
      else if t.isToxic && Delivers(prior + 1, guild, calls.moderation) then Moderated
      else Reply(bot, content, generate, context, calls)
  }

  /** The handler once the text has passed moderation: typing, the model's answer, the reply. */
  function Reply(bot: BotData, content: string, generate: (string, string) -> Result<string, string>,
                 context: string, calls: HandlerCalls): Stage
  {
    if !calls.typingOk then Failed
    else match generate(content, context)
      case Failure(_) => Failed
      case Success(text) => if calls.replyOk then Replied(text, ReplyEmbed(text, bot)) else Failed
  }

  /**
   * Where the handler stops for a message, given the count of violations the
   * author had before it, the oracles, and the channel context the model is
   * given.
   */
  function Route(bot: BotData, botUserId: string, m: Incoming, records: map<string, ChannelRecord>, prior: nat,
                 classify: string -> Result<Toxicity, string>, generate: (string, string) -> Result<string, string>,
                 context: string, calls: HandlerCalls): Stage
  {
    if m.message.authorIsBot then Ignored
    else if !Assigned(records, m.channelId, bot.id) then Unassigned
    else if !m.message.mentionsBot then NotMentioned
    else if ContentForAI(m, botUserId) == "" then NothingToAsk
    else Answer(bot, ContentForAI(m, botUserId), m.guild, prior, classify, generate, context, calls)
  }

  /** The channel memory after the handler: the message, then, when there is a reply, the reply. */
  function MemoryAfter(store: map<string, ChannelMemory>, bot: BotData, m: Incoming, stage: Stage, now: int): map<string, ChannelMemory> {
    if m.message.authorIsBot then store
    else WithReply(Heard(store, m, now), m.channelId, bot.name, stage, now)
  }

  /** The channel memory with the bot's answer added when there is one. */
  function WithReply(store: map<string, ChannelMemory>, channelId: string, botName: string, stage: Stage, now: int): map<string, ChannelMemory> {
    if stage.Replied? then Added(store, channelId, botName, stage.text, true, now) else store
  }

  /** The conversation log after the handler: the question and answer in front when there was a reply and the file could be written. */
  function LogAfter(entries: seq<LogEntry>, botUserId: string, m: Incoming, stage: Stage, logOk: bool, now: nat): seq<LogEntry> {
    LoggedReply(entries, m, ContentForAI(m, botUserId), stage, logOk, now)
  }

  /** The conversation log with the question `content` and the answer in front when there was a reply and the file could be written. */
  function LoggedReply(entries: seq<LogEntry>, m: Incoming, content: string, stage: Stage, logOk: bool, now: nat): seq<LogEntry> {
    if stage.Replied? && logOk
    then Logged(entries, LogEntry(NatToString(now), now, m.message.authorUsername, m.message.authorId, content, stage.text))
    else entries
  }

  /** A message written by a bot is ignored entirely, and not even remembered. */
  lemma BotMessagesIgnored(bot: BotData, botUserId: string, m: Incoming, records: map<string, ChannelRecord>, prior: nat,
                           classify: string -> Result<Toxicity, string>, generate: (string, string) -> Result<string, string>,
                           context: string, calls: HandlerCalls, store: map<string, ChannelMemory>, now: int)
    requires m.message.authorIsBot
    ensures Route(bot, botUserId, m, records, prior, classify, generate, context, calls) == Ignored
    ensures MemoryAfter(store, bot, m, Ignored, now) == store
  {
  }

  /**
   * The handler replies exactly when the message is addressed to this bot,
   * classified, not both toxic and handled by moderation, and every call
   * through to the reply succeeds; the reply carries the model's answer.
   */
  lemma RepliesExactlyWhenAddressed(bot: BotData, botUserId: string, m: Incoming, records: map<string, ChannelRecord>,
                                    prior: nat, classify: string -> Result<Toxicity, string>,
                                    generate: (string, string) -> Result<string, string>, context: string, calls: HandlerCalls)
    ensures var stage := Route(bot, botUserId, m, records, prior, classify, generate, context, calls);
            var content := ContentForAI(m, botUserId);
            stage.Replied? <==>
              Addressed(bot, botUserId, m, records) && classify(content).Success?
              && !(classify(content).value.isToxic && (!calls.violationsOk || Delivers(prior + 1, m.guild, calls.moderation)))
              && calls.typingOk && generate(content, context).Success? && calls.replyOk
    ensures var stage := Route(bot, botUserId, m, records, prior, classify, generate, context, calls);
            stage.Replied? ==> stage.text == generate(ContentForAI(m, botUserId), context).value
                               && stage.embed == ReplyEmbed(stage.text, bot)
  {
  }

  /**
   * A toxic message that moderation handled gets no answer; one it failed to
   * handle goes on to the model; an unusable violations file ends the handler.
   */
  lemma ModerationShortCircuits(bot: BotData, botUserId: string, m: Incoming, records: map<string, ChannelRecord>,
                                prior: nat, classify: string -> Result<Toxicity, string>,
                                generate: (string, string) -> Result<string, string>, context: string, calls: HandlerCalls)
    requires Screened(bot, botUserId, m, records, classify)
    ensures var stage := Route(bot, botUserId, m, records, prior, classify, generate, context, calls);
            calls.violationsOk && Delivers(prior + 1, m.guild, calls.moderation) <==> stage == Moderated
    ensures !calls.violationsOk ==> Route(bot, botUserId, m, records, prior, classify, generate, context, calls) == Failed
  {
  }

  /** After a reply the channel's context ends with the reply, as the bot said it. */
  lemma ReplyRemembered(store: map<string, ChannelMemory>, bot: BotData, m: Incoming, text: string, embed: Embed, now: int)
    requires !m.message.authorIsBot
    ensures var after := MemoryAfter(store, bot, m, Replied(text, embed), now);
            var said := bot.name + ": " + text;
            var context := GetContext(after, m.channelId, now);
            |said| <= |context| && context[|context| - |said|..] == said
  {
    ContextEndsWithLatest(Heard(store, m, now), m.channelId, bot.name, text, true, now);
  }

  /** A human's message is remembered whatever the handler does next, before any gate can stop it. */
  lemma HumanMessageRemembered(store: map<string, ChannelMemory>, bot: BotData, m: Incoming, stage: Stage, now: int)
    requires !m.message.authorIsBot && !stage.Replied?
    ensures var context := GetContext(MemoryAfter(store, bot, m, stage, now), m.channelId, now);
            var said := m.message.authorUsername + ": " + m.message.content;
            |said| <= |context| && context[|context| - |said|..] == said
  {
    assert MemoryAfter(store, bot, m, stage, now) == Heard(store, m, now);
    ContextEndsWithLatest(store, m.channelId, m.message.authorUsername, m.message.content, false, now);
  }

  /** A logged reply heads the conversation log, with the text the model was given and its answer. */
  lemma ReplyLoggedFirst(entries: seq<LogEntry>, botUserId: string, m: Incoming, text: string, embed: Embed, now: nat)
    ensures var after := LogAfter(entries, botUserId, m, Replied(text, embed), true, now);
            |after| > 0 && after[0].message == ContentForAI(m, botUserId) && after[0].response == text
            && after[0].userId == m.message.authorId && after[0].timestamp == now
            && after[1..] == entries[..|after| - 1]
  {
  }

  /** The reply's colour is the configured success colour as given, without the cut to 7 characters. */
  lemma ReplyColorUncut(text: string, bot: BotData, c: string)
    requires bot.config.Some? && "success" in bot.config.value.colors && bot.config.value.colors["success"] == c
    requires c != ""
    ensures ReplyEmbed(text, bot).color == c
  {
    ColorKeys();
  }

  /** The text handed to the model, computed as the handler does. */
  method PrepareContent(m: Incoming, botUserId: string) returns (content: string)
    ensures content == ContentForAI(m, botUserId)
  {
    var processed := m.message.content;
    if m.guild.Some? {
      processed := RewriteRoleMentions(processed, m.mentionedRoles);
    }
    content := StripBotMention(processed, botUserId);
  }

  /** The `try` block of the handler, for the text `content` of an addressed message. */
  method Respond(bot: BotData, m: Incoming, content: string,
                 classify: string -> Result<Toxicity, string>, generate: (string, string) -> Result<string, string>,
                 calls: HandlerCalls, now: nat, memory: MemoryStore, moderator: Moderator, log: ConversationLog)
    returns (stage: Stage)
    requires memory.Valid()
    modifies memory, moderator, log
    ensures memory.Valid()
    ensures stage == Answer(bot, content, m.guild, old(moderator.GetViolationCount(m.message.authorId)), classify,
                            generate, GetContext(old(memory.store), m.channelId, now), calls)
    ensures memory.store == WithReply(old(memory.store), m.channelId, bot.name, stage, now)
    ensures moderator.violations == Penalized(old(moderator.violations), m.message.authorId,
                                              classify(content).Success? && classify(content).value.isToxic
                                              && calls.violationsOk)
    ensures log.entries == LoggedReply(old(log.entries), m, content, stage, calls.logOk, now)
  {
    var toxicity := classify(content);
    if toxicity.Failure? {
      return Failed;
    }
    if toxicity.value.isToxic {
      var resolved, violated := Moderate(bot, m, toxicity.value, calls.violationsOk, calls.moderation, moderator);
      if !resolved {
        return Failed;
      }
      if violated {
        return Moderated;
      }
    }
    stage := Deliver(bot, m, content, generate, calls, now, memory, log);
  }

  /**
   * The moderation pass for a toxic text: when the violations file can be
   * used the author's count goes up and the pass reports whether it replied;
   * otherwise it throws.
   */
  method Moderate(bot: BotData, m: Incoming, t: Toxicity, fileOk: bool, calls: ModerationCalls, moderator: Moderator)
    returns (resolved: bool, violated: bool)
    modifies moderator
    ensures resolved == fileOk
    ensures moderator.violations == Penalized(old(moderator.violations), m.message.authorId, fileOk)
    ensures violated <==> fileOk && Delivers(old(moderator.GetViolationCount(m.message.authorId)) + 1, m.guild, calls)
  {
    var punishment;
    resolved, violated, punishment :=
      moderator.HandleViolation(m.message.authorId, t.level, t.reason, Some(bot), m.guild, fileOk, calls);
  }

  /** The `try` block after moderation: typing, the model's answer, the reply, then memory and the log. */
  method Deliver(bot: BotData, m: Incoming, content: string, generate: (string, string) -> Result<string, string>,
                 calls: HandlerCalls, now: nat, memory: MemoryStore, log: ConversationLog)
    returns (stage: Stage)
    requires memory.Valid()
    modifies memory, log
    ensures memory.Valid()
    ensures stage == Reply(bot, content, generate, GetContext(old(memory.store), m.channelId, now), calls)
    ensures memory.store == WithReply(old(memory.store), m.channelId, bot.name, stage, now)
    ensures log.entries == LoggedReply(old(log.entries), m, content, stage, calls.logOk, now)
  {
    var context := GetContext(memory.store, m.channelId, now);
    if !calls.typingOk {
      return Failed;
    }
    var answer := generate(content, context);
    if answer.Failure? {
      return Failed;
    }
    var aiText := answer.value;
    var embed := ReplyEmbed(aiText, bot);
    if !calls.replyOk {
      return Failed;
    }
    memory.AddMessageToMemory(m.channelId, bot.name, aiText, true, now);
    var _ := log.LogConversation(m.message.authorUsername, m.message.authorId, content, aiText, bot.id, now, calls.logOk);
    stage := Replied(aiText, embed);
  }

  /** The handler once a human's message is in memory: the gates, then the `try` block. */
  method Dispatch(bot: BotData, botUserId: string, m: Incoming, records: map<string, ChannelRecord>,
                  classify: string -> Result<Toxicity, string>, generate: (string, string) -> Result<string, string>,
                  calls: HandlerCalls, now: nat, memory: MemoryStore, moderator: Moderator, log: ConversationLog)
    returns (stage: Stage)
    requires !m.message.authorIsBot && memory.Valid()
    modifies memory, moderator, log
    ensures memory.Valid()
    ensures stage == Route(bot, botUserId, m, records, old(moderator.GetViolationCount(m.message.authorId)), classify,
                           generate, GetContext(old(memory.store), m.channelId, now), calls)
    ensures memory.store == WithReply(old(memory.store), m.channelId, bot.name, stage, now)
    ensures moderator.violations == Penalized(old(moderator.violations), m.message.authorId,
                                              Screened(bot, botUserId, m, records, classify) && calls.violationsOk)
    ensures log.entries == LogAfter(old(log.entries), botUserId, m, stage, calls.logOk, now)
  {
    if !Assigned(records, m.channelId, bot.id) {
      return Unassigned;
    }
    if !m.message.mentionsBot {
      return NotMentioned;
    }
    var content := PrepareContent(m, botUserId);
    if content == "" {
      return NothingToAsk;
    }
    stage := Respond(bot, m, content, classify, generate, calls, now, memory, moderator, log);
  }

  /**
   * The `messageCreate` handler of the client of `bot`, whose Discord
   * account id is `botUserId`: `records` are the channel documents,
   * `classify` and `generate` the toxicity check and the answer generator
   * (given the text and the channel context), `calls` what the Discord calls
   * and the log write yield, `now` the clock.
   */
  method OnMessageCreate(bot: BotData, botUserId: string, m: Incoming, records: map<string, ChannelRecord>,
                         classify: string -> Result<Toxicity, string>, generate: (string, string) -> Result<string, string>,
                         calls: HandlerCalls, now: nat, memory: MemoryStore, moderator: Moderator, log: ConversationLog)
    returns (stage: Stage)
    requires memory.Valid()
    modifies memory, moderator, log
    ensures memory.Valid()
    ensures stage == Route(bot, botUserId, m, records, old(moderator.GetViolationCount(m.message.authorId)), classify,
                           generate, GetContext(Heard(old(memory.store), m, now), m.channelId, now), calls)
    ensures memory.store == MemoryAfter(old(memory.store), bot, m, stage, now)
    ensures moderator.violations == Penalized(old(moderator.violations), m.message.authorId,
                                              Screened(bot, botUserId, m, records, classify) && calls.violationsOk)
    ensures log.entries == LogAfter(old(log.entries), botUserId, m, stage, calls.logOk, now)
  {
    if m.message.authorIsBot {
      return Ignored;
    }
    memory.AddMessageToMemory(m.channelId, m.message.authorUsername, m.message.content, false, now);
    stage := Dispatch(bot, botUserId, m, records, classify, generate, calls, now, memory, moderator, log);
  }
}
