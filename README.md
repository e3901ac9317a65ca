# Alice Discord bot: services layer in Dafny

This project models the core of the Alice bot's backend, a Node.js service that runs several Discord bots. The parts modelled are:

- **moderation**: a per-user violation counter and the punishment rule for a toxic message. The rule covers the mute length, how serious a case is, the embed kind and title, tagging admins, and the "Toxic Player" role.
- **channel memory**: for each channel, a rolling buffer of at most 20 messages with a 30-minute TTL. The buffer is turned into a text context for the model.
- **conversation log**: a newest-first log capped at 100 entries, plus the pass that rebuilds it from Discord history. That pass pairs a mention with the bot's reply, drops duplicates, then sorts and cuts the list.
- **bot manager**: the registry of logged-in clients, and the `messageCreate` handler. The handler checks, in order: who wrote the message, whether the channel is assigned to this bot, and whether the bot is mentioned. It then rewrites and strips mentions, screens the text for toxicity, and replies.
- **guild service**: choosing a running client that can reach a guild and listing its text channels, and the upsert loop that saves selected channels.
- **embed helper**: how an embed's colour, title, footer and icon are resolved.
- **knowledge retrieval**: how Qdrant hits are shaped into a context, the "nothing found" sentence, and which errors are swallowed.

The modelling choices:
- Stateful modules are classes whose fields are maps or sequences:
  - `Moderator.violations`, the violation counter file;
  - `MemoryStore.store`, the channel memory;
  - `ConversationLog.entries`, the conversation log file;
  - `BotManager.registry`, the client map in insertion order;
  - `ChannelStore.records`, the channel collection.
- The modules that only compute are functions.
- Each outside call is a parameter that gives what the call yields. This covers Discord calls, Gemini's toxicity check, answer generation and embedding, the Qdrant client, and file reads and writes. A call that can throw is a `Result`, an `Outcome` or a flag.
- The clock is an explicit `now`.
- JavaScript strings are `seq<char>`. `trim`, string `replace` (first occurrence only, with the `$` patterns of its replacement substituted), `indexOf`, `join` and `toLowerCase` are written out in module `Text`.

Files: `wrappers.dfy`, `text.dfy`, `discord.dfy` (message, channel and guild values, mention tokens), `models.dfy` (bot and channel documents), `embed.dfy`, `moderation.dfy`, `memory.dfy`, `conversation.dfy`, `bot.dfy`, `guild.dfy`, `qdrant.dfy`, `rag.dfy`.

Where the code and its design notes disagree, the model follows the code:
- After the mentions are stripped, an empty text gets no reply at all (`services/botService.js:90`).
- The knowledge search uses no per-bot filter, because the code passes none (`services/ragService.js:10`).
- The reply embed's colour is set from the configured success colour string as it stands, without the 7-character cut (`services/botService.js:143-145`). discord.js `setColor` then parses that string and can throw; the "Left out" line on `EmbedHelper.CreateBaseEmbed` says what the model then does not capture.

## Model

| member | source | states |
|---|---|---|
| Text.TrimStartSpec | services/conversationService.js:104-107 | removing leading whitespace leaves a suffix of the input that starts with a non-space, and everything removed is whitespace |
| Text.TrimEndSpec | services/conversationService.js:104-107 | removing trailing whitespace leaves a prefix of the input that ends with a non-space, and everything removed is whitespace |
| Text.Trim | services/botService.js:85-88 | `trim()` gives a text with no whitespace at either end, never longer than the input |
| Text.TrimStartAt | services/conversationService.js:107 | a run of leading whitespace that is followed by a non-space is exactly what `trimStart` removes |
| Text.TrimEndAt | services/conversationService.js:107 | a run of trailing whitespace that is preceded by a non-space is exactly what `trimEnd` removes |
| Text.TrimPadded | services/conversationService.js:107 | trimming whitespace + q + whitespace gives back q when q is already trimmed |
| Text.StartsWithAppend | services/moderationService.js:59-64 | appending to a text keeps every prefix it had, as `description +=` does |
| Text.IndexOfFromFirst | services/conversationService.js:105-106 | `indexOf(p, from)` finds a match at or after `from` with no earlier match, and finds none exactly when there is no match |
| Text.IndexOf | services/botService.js:81 | the index found is the first where the pattern occurs; none is found exactly when it occurs nowhere |
| Text.SubstitutionPlain | services/botService.js:81 | a replacement without `$` is inserted as written |
| Text.SubstitutionDollars | services/botService.js:81 | in a replacement, `$$` gives `$`, `$&` gives the matched text, and `$1` stays as written, since a string pattern has no groups |
| Text.SubstitutionDoubledDollar | services/botService.js:81 | the replacement `@VIP$$` is inserted as `@VIP$` |
| Text.SubstitutionMatchedText | services/botService.js:81 | the replacement `@a$&b` is inserted with the matched text in place of `$&` |
| Text.ReplaceFirst | services/botService.js:81 | a text without the pattern is unchanged; otherwise the pattern's first occurrence, and only it, is replaced by the substituted replacement |
| Text.ReplaceFirstAtStart | services/conversationService.js:105 | `replace` on a text that starts with the pattern puts the substituted replacement in place of that leading occurrence; a replacement without `$` goes in as written |
| Text.JoinEmptyIff | services/qdrantService.js:83 | with a non-empty separator, a join is "" exactly when it joins nothing or a single "" |
| Text.Join | services/qdrantService.js:83 | a definition of `join`; `JoinIncludes`, `JoinEmptyIff` and `JoinSnoc` state its meaning |
| Text.JoinIncludes | services/qdrantService.js:83 | a join includes every string it joins |
| Text.JoinSnoc | services/memoryService.js:58 | joining one more text appends the separator and that text |
| Text.ToLowerAscii | utils/embedHelper.js:18 | lower-casing keeps the length and maps each character |
| Text.NatToString | services/moderationService.js:80 | a count prints as a non-empty string of decimal digits |
| Text.NatToStringValue | services/moderationService.js:80 | the digits printed are the number: reading them back gives it |
| Discord.StripBotMention | services/botService.js:85-88 | the text left after removing the first `<@id>` and the first `<@!id>` has no whitespace at either end |
| Discord.StripWithoutMention | services/conversationService.js:104-107 | a message that contains neither mention token is only trimmed |
| Discord.StripLeadingMention | services/conversationService.js:104-107 | `<@id> question` becomes `question` |
| EmbedHelper.TypeStyleOf | utils/embedHelper.js:15-16 | the type's style comes from the bot's `TYPES` when it has an entry for the type, and from the defaults otherwise |
| EmbedHelper.TruncateHex | utils/embedHelper.js:21-23 | a colour that starts with `#` and is longer than 7 characters is cut to its first 7; any other colour is kept |
| EmbedHelper.ResolveColor | utils/embedHelper.js:18-27 | the configured `colors[type]` wins, cut to 7; then the type style's colour, cut to 7; then the default type colour. The result is never empty |
| EmbedHelper.ResolveTitle | utils/embedHelper.js:26 | the title is `embedTitle`, else the bot name, else the default title |
| EmbedHelper.ResolveFooter | utils/embedHelper.js:29 | the footer is `footerText`, else the default footer |
| EmbedHelper.CreateBaseEmbed | utils/embedHelper.js:13-31 | the embed carries the description as given, with the resolved title, colour and footer |
| EmbedHelper.IconOf | utils/embedHelper.js:35-39 | the icon is the bot's configured `TYPES[type].ICON` when that is set and non-empty, and the type's default icon (✅, ⚠️ or ❌) otherwise; it is never empty |
| EmbedHelper.CreateSuccessEmbed | utils/embedHelper.js:33 | a success embed's description is the text with no icon, and its colour resolves for SUCCESS |
| EmbedHelper.CreateWarningEmbed | utils/embedHelper.js:34-37 | a warning embed's description is icon, space, text, and its colour resolves for WARNING |
| EmbedHelper.CreateErrorEmbed | utils/embedHelper.js:38-41 | an error embed's description is icon, space, text, and its colour resolves for ERROR |
| EmbedHelper.DefaultsWithoutBot | utils/embedHelper.js:3-16 | with no bot config, the three embeds are exactly the default title, colour, icon and footer |
| EmbedHelper.ConfiguredColorWins | utils/embedHelper.js:18-27 | a configured colour without `#` is used unchanged; a long `#` colour is cut to 7; an empty one falls back to the default |
| EmbedHelper.ColorKeys | utils/embedHelper.js:18 | the colour keys are the lower-cased type names `success`, `warning` and `error` |
| Moderation.MuteMinutes | services/moderationService.js:43-49 | a first violation mutes for 0 minutes; any later one for between 2 and 15 |
| Moderation.Multiplier | services/moderationService.js:43 | a definition: 3 for `high`, 2 for `medium`, 1 for anything else; `MuteMinutes`, `MuteMonotoneInSeverity` and `EscalationExamples` state what it yields |
| Moderation.MuteMonotoneInCount | services/moderationService.js:46-48 | the mute never gets shorter as the count grows |
| Moderation.MuteMonotoneInSeverity | services/moderationService.js:43-48 | the mute never gets shorter as the level's multiplier grows |
| Moderation.EscalationExamples | services/moderationService.js:43-49 | medium severity at counts 1 to 5 gives 0, 6, 8, 10 and 12 minutes; low and high reach the 15-minute cap |
| Moderation.AdminRoles | services/moderationService.js:69-72 | the admin roles are exactly the guild roles whose lower-cased name contains `admin` or `quản trị` |
| Moderation.RoleMentions | services/moderationService.js:74 | each role becomes its `<@&id>` mention, in order |
| Moderation.AdminTagPresentIff | services/moderationService.js:67-76 | the admin tag is non-empty exactly when some role is an admin role |
| Moderation.IsSerious | services/moderationService.js:52 | a definition: high level, or the third violation or later; `RepeatViolationMutes` ties it to the error embed |
| Moderation.StatusTitle | services/moderationService.js:54-56 | a definition: the bot name, or `Bot`, then the reminder, warning or heavy-penalty word; `FirstViolationWarnsOnly` states the first violation's title |
| Moderation.TagsAdmins | services/moderationService.js:66-95 | a definition: admins are tagged on a repeat violation with admin roles, in a mute only from the fourth violation; `UnmoderatableCallsAdmins` and `TaggedReplyMentionsAdmins` state its meaning |
| Moderation.FindRoleByName | services/moderationService.js:106 | the role found is the first role in cache order with that name; none is found only when no role has the name |
| Moderation.Notice | services/moderationService.js:58-96 | a definition of the reply's `description` per branch; `FirstNotice`, `MuteNoticeStatesMinutes` and `TaggedNoticeMentionsAdmins` state what each branch says |
| Moderation.FirstNotice | services/moderationService.js:58-63 | a first violation's notice is the greeting and reason followed by the first-reminder sentence, and nothing else |
| Moderation.MuteNoticeStatesMinutes | services/moderationService.js:77-81 | a mute's notice continues after the greeting with the penalty line, which states the muted minutes and the violation's number |
| Moderation.TaggedNoticeMentionsAdmins | services/moderationService.js:82-94 | whenever the admins are tagged, the notice includes their mentions, in the repeat report of a mute or in the admin report otherwise |
| Moderation.ComposeNotice | services/moderationService.js:59-97 | the notice is exactly `Notice(...)`, the greeting and reason followed by the text of its branch; its embed kind is error only for a serious timed mute; admins are tagged exactly under the mute rule or the unmoderatable rule |
| Moderation.BuildReply | services/moderationService.js:55-99 | the reply has the composed notice, the embed of that kind with the status title, and the admin-tag flag |
| Moderation.Handles | services/moderationService.js:50-130 | a definition of what one violation does on Discord, given each call's outcome; `Punish` computes it and the lemmas below state its cases |
| Moderation.Punish | services/moderationService.js:51-130 | the reply is delivered, and true returned, exactly when the member is fetched, the timeout (if any) and the reply succeed. The timeout is `muteMinutes*60000` ms with reason `Auto-mod: reason (Lần n)`. The toxic role is created or granted as the rules say |
| Moderation.PunishMember | services/moderationService.js:77-130 | for a fetched member, what `Punish` states: a repeat offender the bot may moderate is timed out first, and a failed timeout ends the handling unreplied |
| Moderation.Notify | services/moderationService.js:98-130 | once any timeout went through, the reply and the role step as `Punish` states; a failed reply returns false with no role step |
| Moderation.ApplyToxicRole | services/moderationService.js:104-124 | from the 5th violation, the role is created only when the cache lacks it, and granted only when it exists and the member lacks it |
| Moderation.FirstViolationWarnsOnly | services/moderationService.js:45-65 | a first violation gets no timeout, no role, no admin tag, and a warning embed titled "Nhắc Nhở" whose notice is the greeting followed by the first-reminder sentence |
| Moderation.RepeatViolationMutes | services/moderationService.js:78-89 | a repeat violation by a moderatable member is timed out for 2 to 15 minutes; true is returned exactly when the timeout and the reply succeed; the embed is error exactly when the case is serious; the notice states the muted minutes |
| Moderation.UnmoderatableCallsAdmins | services/moderationService.js:90-95 | a member the bot cannot moderate gets no timeout and a warning embed; admins are tagged exactly when an admin role exists |
| Moderation.TaggedReplyMentionsAdmins | services/moderationService.js:66-99 | a delivered reply that tags the admins carries their mentions in its notice |
| Moderation.ToxicRoleGrantedOnce | services/moderationService.js:104-120 | once the role is granted, a later violation never grants it again |
| Moderation.FindAppended | services/moderationService.js:106-115 | a created role is found by name afterwards |
| Moderation.Moderator.constructor | services/moderationService.js:11-14 | the counter starts empty |
| Moderation.Moderator.GetViolationCount | services/moderationService.js:19-22 | the stored count, or 0 for a user never seen |
| Moderation.Moderator.IncrementViolation | services/moderationService.js:27-32 | when the violations file can be used, returns the previous count plus one and stores it; when it cannot, throws and stores nothing; no other user's count changes |
| Moderation.Moderator.HandleViolation | services/moderationService.js:37-131 | the count is incremented before the `try`, so it goes up even when handling fails, and the violation is handled at the new count as `Punish` states; an unusable violations file makes the call throw with nothing done |
| Memory.PushBounded | services/memoryService.js:32-41 | the new entry is last; below 20 it is appended, at 20 the oldest is dropped; a buffer within 20 stays within 20 |
| Memory.Added | services/memoryService.js:12-42 | only the given channel changes, created if missing; its activity is `now` and its timer is due at `now` + 30 min |
| Memory.Active | services/memoryService.js:56 | the filter keeps exactly the messages younger than the TTL |
| Memory.ActiveSnoc | services/memoryService.js:56 | filtering a buffer with one more message filters that message alone |
| Memory.ActiveNone | services/memoryService.js:54-56 | when every message is a TTL old, nothing survives the filter |
| Memory.Texts | services/memoryService.js:58 | each message gives its `username: content` text, in order |
| Memory.TextsSnoc | services/memoryService.js:58 | the texts of a buffer grown by one message end with that message's text |
| Memory.GetContext | services/memoryService.js:48-52 | "" for an unknown channel or an empty buffer |
| Memory.ContextEndsWithLatest | services/memoryService.js:32-58 | after an add, the channel's context ends with `username: content` |
| Memory.ContextExpires | services/memoryService.js:54-58 | after 30 idle minutes the context is "" |
| Memory.AddedKeepsValid | services/memoryService.js:25-41 | an add keeps every channel within 20 messages, with its timer 30 min after its last activity |
| Memory.MemoryStore.constructor | services/memoryService.js:4 | the store starts empty |
| Memory.MemoryStore.AddMessageToMemory | services/memoryService.js:12-42 | the store becomes `Added(...)`, and the buffer bound and timer invariant are kept |
| Memory.MemoryStore.ClearMemory | services/memoryService.js:64-71 | only the given channel's record is removed; an absent channel is a no-op |
| Memory.MemoryStore.FireDueTimers | services/memoryService.js:27-29 | the timers due by `now` clear exactly their channels |
| Memory.SurvivesUntilTtl | services/memoryService.js:25-29 | a channel added at time t is kept until t + 30 min and cleared from then on |
| Conversations.Truncate | services/conversationService.js:38-41 | `splice(100)` keeps the first 100 entries |
| Conversations.Logged | services/conversationService.js:36-41 | the new entry is first, followed by the newest old entries, at most 100 in all |
| Conversations.InsertBy | services/conversationService.js:150 | inserting adds exactly that one entry to the list |
| Conversations.InsertBySorted | services/conversationService.js:150 | inserting into a sorted list keeps it sorted |
| Conversations.SortBy | services/conversationService.js:97 | the result is sorted and is a permutation of the input |
| Conversations.FirstReplyFrom | services/conversationService.js:110-116 | the reply found is written by the bot, with no bot message before it in the window; none is found only when the window has none |
| Conversations.PairAtSpec | services/conversationService.js:103-118 | a message yields a pair exactly when it is a human's mention with a bot reply among the next four messages; the pair uses the first such reply |
| Conversations.Record | services/conversationService.js:119-137 | a pair is prepended and counted exactly when no entry has the same user and text within 30 s |
| Conversations.AddedFreshCompose | services/conversationService.js:119-137 | entries added fresh in two runs are fresh across both |
| Conversations.KnownPrepend | services/conversationService.js:120-124 | a duplicate stays a duplicate once entries are prepended |
| Conversations.PrependsTrans | services/conversationService.js:128-136 | two prepending runs compose, and their counts add |
| Conversations.Scan | services/conversationService.js:99-140 | the count of entries added is at most the number of pairs, and the list grows by exactly that count |
| Conversations.ScanPrepends | services/conversationService.js:128-135 | the scan only prepends, and counts what it prepends |
| Conversations.ScanSnoc | services/conversationService.js:99-140 | scanning one more pair records that pair after the rest |
| Conversations.ScanAppend | services/conversationService.js:85-145 | scanning two runs in sequence is one scan of both |
| Conversations.ScanFresh | services/conversationService.js:119-137 | every entry the scan adds is unlike all entries after it |
| Conversations.ScanCovers | services/conversationService.js:118-137 | after a scan, every pair it saw is in the list, as itself or as a duplicate |
| Conversations.ScanNoop | services/conversationService.js:120-126 | a scan whose pairs are all logged already changes nothing |
| Conversations.ScanTwice | services/conversationService.js:119-137 | scanning the same pairs a second time adds nothing |
| Conversations.ScannedMessages | services/conversationService.js:87-97 | a non-text channel is skipped; a text channel's messages are sorted by creation time and are a permutation of those fetched |
| Conversations.MessagePairs | services/conversationService.js:99-118 | one pair slot per message index |
| Conversations.Finalized | services/conversationService.js:149-151 | the list is sorted newest first and cut to 100; it keeps all entries when there are at most 100, and every entry cut is no newer than every entry kept |
| Conversations.SortedSplitNewest | services/conversationService.js:150-151 | in a list sorted newest first, every entry after a cut is no newer than every entry before it |
| Conversations.CutKeepsNewest | services/conversationService.js:150-151 | the first k entries of the sorted list come from the list, and no entry left out is newer than one kept |
| Conversations.SyncOutcome | services/conversationService.js:67-160 | an unreadable file or a failed guild fetch gives 0 and no change; a positive count means the sorted, cut list was written; nothing is written when nothing was added |
| Conversations.KnownPermutation | services/conversationService.js:150 | sorting never changes which pairs count as duplicates |
| Conversations.SyncTwiceAddsNothing | services/conversationService.js:119-153 | when the first sync's list fits in 100 entries, a second sync over the same history adds nothing |
| Conversations.SyncReAddsDropped | services/conversationService.js:119-153 | a pair whose entry the first sync cut away beyond 100 is added again, with a positive count, by the next sync over the same history |
| Conversations.ChannelStep | services/conversationService.js:85-144 | one more channel of the channel loop extends the scan |
| Conversations.ScanAppendStep | services/conversationService.js:85-145 | a loop step that scans the next run extends the scan |
| Conversations.GuildStep | services/conversationService.js:75-145 | one more guild of the guild loop extends the scan |
| Conversations.MessageStep | services/conversationService.js:99-140 | one more message of the message loop extends the scan |
| Conversations.ScanSnocStep | services/conversationService.js:99-140 | a loop step that records the next pair extends the scan |
| Conversations.FindReply | services/conversationService.js:110-116 | the `j` loop returns the first bot message in the window, or none |
| Conversations.ConsiderMessage | services/conversationService.js:100-139 | one iteration of the `i` loop records that message's pair |
| Conversations.ScanMessages | services/conversationService.js:99-140 | the `i` loop computes the scan of the channel's messages |
| Conversations.ConversationLog.constructor | services/conversationService.js:16-18 | the log starts empty |
| Conversations.ConversationLog.LogConversation | services/conversationService.js:23-49 | true exactly when the file can be read and written; the entry then goes in front and the list is cut to 100, otherwise the log is unchanged |
| Conversations.ConversationLog.ScanChannel | services/conversationService.js:85-144 | one channel of the channel loop scans that channel's pairs |
| Conversations.ConversationLog.ScanGuildChannels | services/conversationService.js:83-144 | the channel loop scans the pairs of all a guild's channels in order |
| Conversations.ConversationLog.ScanGuilds | services/conversationService.js:75-145 | the guild loop scans the pairs of every channel of every guild in order |
| Conversations.ConversationLog.SyncDiscordHistory | services/conversationService.js:67-160 | the log and the returned count are those of `SyncOutcome` |
| Qdrant.SearchParams | services/qdrantService.js:72-80 | the request has the vector, the limit and `with_payload`; a filter is attached only when one is given |
| Qdrant.Contents | services/qdrantService.js:83 | one content per hit, in rank order |
| Qdrant.SearchKnowledge | services/qdrantService.js:70-88 | a client error gives ""; otherwise the text is "" for no hits and includes every hit's content |
| Qdrant.SearchKnowledgeShape | services/qdrantService.js:70-88 | a client error gives ""; otherwise the hits' contents joined by `\n---\n` |
| Qdrant.SearchKnowledgeEmptyIff | services/qdrantService.js:82-87 | the text is "" exactly when the client throws, finds nothing, or finds one hit with empty content |
| Qdrant.SearchKnowledgeSeparates | services/qdrantService.js:83 | between consecutive hits stands exactly one separator |
| Qdrant.DefaultSearchRequest | services/qdrantService.js:70-80 | with no limit or filter, the request asks for 3 hits, with payloads and no filter |
| Qdrant.Details | services/qdrantService.js:106-110 | one `{id, score, payload}` per hit, in order |
| Qdrant.SearchKnowledgeDetail | services/qdrantService.js:93-115 | `[]` on a client error; otherwise one record per hit in rank order with its id, score and payload |
| Qdrant.DetailAgreesWithText | services/qdrantService.js:82-110 | the text search is the join of the detail search's contents |
| Qdrant.UpsertKnowledge | services/qdrantService.js:49-65 | exactly one point is written, with `wait: true`; a client error is passed on |
| Qdrant.DeleteKnowledge | services/qdrantService.js:137-146 | exactly that one point is deleted; a client error is passed on |
| Rag.GetKnowledgeContext | services/ragService.js:7-16 | the context is "" exactly when embedding the query throws, and it includes every non-empty hit's content when the search answers |
| Rag.ContextSearchesUnfiltered | services/ragService.js:9-11 | the query's vector is searched with limit 3, payloads and no filter, and a non-empty result is the joined hits |
| Rag.ContextEmptyIffEmbeddingFails | services/ragService.js:9-15 | the context is "" exactly when embedding the query throws |
| Rag.StoreFailureGivesSentinel | services/ragService.js:10-11 | a store that fails or finds nothing gives the fixed "no context" sentence |
| Rag.FoundContextUnchanged | services/ragService.js:11 | a non-empty search text is returned unchanged |
| BotService.Remove | services/botService.js:182 | deleting an id removes just that id from the client order |
| BotService.RemoveDistinct | services/botService.js:182 | deleting keeps every id listed once |
| BotService.Started | services/botService.js:24-175 | a registered id or a failed login leaves the registry unchanged; otherwise the client is added last under its id |
| BotService.Stopped | services/botService.js:178-185 | the id and its client are removed, and an unknown id is a no-op |
| BotService.StartedWellFormed | services/botService.js:169-175 | starting keeps the client map well formed: ids listed once, and exactly the ids with a client |
| BotService.StoppedWellFormed | services/botService.js:178-185 | stopping keeps the client map well formed |
| BotService.StartIdempotent | services/botService.js:25-28 | starting a running bot again changes nothing |
| BotService.StopIdempotent | services/botService.js:178-185 | stopping twice is the same as stopping once |
| BotService.StopUndoesStart | services/botService.js:169-185 | stopping a bot just started gives back the registry from before the start |
| BotService.RemoveAppended | services/botService.js:182 | deleting the id that was just appended gives back the old order |
| BotService.BotManager.constructor | services/botService.js:11-13 | the registry starts empty |
| BotService.BotManager.StartBot | services/botService.js:24-175 | the registry becomes `Started(...)` and stays well formed |
| BotService.BotManager.StopBot | services/botService.js:178-185 | the registry becomes `Stopped(...)` and stays well formed |
| BotService.BotManager.SyncMetadata | services/botService.js:187-200 | succeeds exactly for a connected client with an account whose write succeeds, giving its name and avatar; the fixed error when not connected, the write's error when the write fails |
| BotService.RewriteWithoutTokens | services/botService.js:78-83 | a text that mentions none of the roles is left unchanged |
| BotService.RewriteLeadingRole | services/botService.js:80-82 | a leading `<@&id>` is replaced by `@name` with the `$` patterns of `@name` substituted, and by `@name` itself when the name holds no `$` |
| BotService.RewriteDoubledDollarRole | services/botService.js:80-82 | a role named `VIP$$` is written `@VIP$` |
| BotService.RewriteMatchedTextRole | services/botService.js:80-82 | a role named `a$&b` is written `@a<@&id>b`, the mention token in place of `$&` |
| BotService.RewriteRoles | services/botService.js:78-83 | a definition: each mentioned role's first `<@&id>` replaced in turn; `RewriteWithoutTokens` and `RewriteLeadingRole` state its effect |
| BotService.RewriteRoleMentions | services/botService.js:78-83 | the `forEach` loop computes `RewriteRoles` |
| BotService.ContentForAI | services/botService.js:77-88 | a definition: role mentions rewritten in a guild, then the bot's mentions stripped and the text trimmed; `StripBotMention` states the trimming |
| BotService.Assigned | services/botService.js:69-73 | a definition: the channel has an active record naming this bot; `RepliesExactlyWhenAddressed` makes it a condition of any reply |
| BotService.Route | services/botService.js:56-166 | a definition of where the handler stops; `BotMessagesIgnored`, `RepliesExactlyWhenAddressed` and `ModerationShortCircuits` state its gates |
| BotService.Answer | services/botService.js:98-103 | a definition: a failed check stops, a toxic text stops when the violations file cannot be used or moderation handles it, anything else is answered; `ModerationShortCircuits` states it |
| BotService.Reply | services/botService.js:106-147 | a definition: typing, the model's answer and the reply, any failure stopping it; `RepliesExactlyWhenAddressed` states when it replies and with what |
| BotService.ReplyEmbed | services/botService.js:142-145 | the reply embed has the answer as its text; its colour is the raw configured success colour when set, otherwise the resolved one |
| BotService.BotMessagesIgnored | services/botService.js:56 | a message written by a bot is ignored and not remembered |
| BotService.RepliesExactlyWhenAddressed | services/botService.js:68-147 | the handler replies exactly when all of these hold: a human wrote the message; the channel's active record names this bot; the bot is mentioned; text is left after stripping; the toxicity classification succeeds; a toxic text neither met an unusable violations file nor was handled by moderation; and typing, generation and the reply all succeed. The reply carries the answer |
| BotService.ModerationShortCircuits | services/botService.js:99-103 | a toxic message is `Moderated` exactly when the violations file can be used and moderation handles it; an unusable violations file ends the handler as `Failed` |
| BotService.ReplyRemembered | services/botService.js:150-155 | after a reply, the channel context ends with the bot's name and answer |
| BotService.HumanMessageRemembered | services/botService.js:59-65 | a human's message is remembered whichever gate stops it |
| BotService.ReplyLoggedFirst | services/botService.js:157-163 | a logged reply heads the log with the stripped question and the answer |
| BotService.ReplyColorUncut | services/botService.js:143-145 | the configured success colour string goes into the reply embed uncut, even when it is longer than 7 characters |
| BotService.PrepareContent | services/botService.js:77-88 | computes the text for the model |
| BotService.Respond | services/botService.js:92-166 | the `try` block: its stage follows `Answer`; the violation count only moves for toxic text when the violations file can be used; the reply and the log entry are added only for a reply |
| BotService.Moderate | services/botService.js:99-103 | with a usable violations file a toxic text raises the author's count by one and the pass reports whether its reply was delivered; otherwise the pass throws and no count changes |
| BotService.Deliver | services/botService.js:106-163 | typing, the answer and the reply as `Reply` says; the memory gains the answer and the log the question and answer only for a reply |
| BotService.Dispatch | services/botService.js:67-166 | the gates and then the `try` block, as `Route` says |
| BotService.OnMessageCreate | services/botService.js:55-166 | the stage is `Route(...)`; the memory, the violation counts and the log change as described |
| GuildService.TextChannels | services/guildService.js:52-57 | a definition: the type-0 channels as `{id, name}`, in order; `TextChannelsExact` states it |
| GuildService.TextChannelsExact | services/guildService.js:52-57 | the listing has a `{id, name}` for every type-0 channel and for nothing else |
| GuildService.FirstReaching | services/guildService.js:14-38 | the position found holds a ready client that reaches the guild |
| GuildService.FirstReachingSpec | services/guildService.js:14-38 | the position found is the first such client; none is found exactly when no client reaches the guild |
| GuildService.GuildDataOf | services/guildService.js:9-67 | a definition of what `fetchDiscordGuildData` returns; `NotInvitedIffNoClient` and `ListingFromFirstClient` state its results |
| GuildService.NotInvitedIffNoClient | services/guildService.js:40-43 | the "not invited" error comes exactly when no ready client reaches the guild |
| GuildService.ListingFromFirstClient | services/guildService.js:45-62 | a successful listing is the name and text channels of the guild as the first reaching client sees it |
| GuildService.FetchDiscordGuildData | services/guildService.js:9-67 | the loop with `break` and the listing compute `GuildDataOf` |
| GuildService.Upsert | services/guildService.js:79-95 | an existing record gets the new name and guild, and a new bot id only when one is given; otherwise a new active record is created, with null bot id when none is given; nothing else changes |
| GuildService.SelectedIdsSnoc | services/guildService.js:78 | the ids of a selection grown by one entry |
| GuildService.SyncAll | services/guildService.js:78-97 | a definition: each selected entry upserted in turn; `SyncAllKeys`, `SyncAllSpec` and `SyncDistinct` state the result |
| GuildService.SyncAllKeys | services/guildService.js:78-97 | afterwards the collection holds the old records plus one per selected id |
| GuildService.SyncAllSpec | services/guildService.js:78-97 | every selected channel ends in this guild; unselected records are untouched; no record's `isActive` changes |
| GuildService.SyncDistinct | services/guildService.js:78-97 | with distinct ids, each selected record ends as upserting it alone would leave it |
| GuildService.AddedCountBound | services/guildService.js:86-95 | `added` is at most the number of entries, and is 0 when all the ids already exist |
| GuildService.SyncAgainAddsNothing | services/guildService.js:78-97 | syncing the same selection again adds nothing |
| GuildService.ChannelStore.constructor | services/models.js:53-74 | the collection starts empty |
| GuildService.ChannelStore.SyncChannels | services/guildService.js:72-99 | the collection becomes `SyncAll(...)`, `added` counts the creations, and `added + updated` is the number of entries |

## Left out

- Discord, Gemini, Qdrant, MongoDB and the JSON files are not executed. Each call is a parameter giving what it yields; for the JSON files that is whether the file can be used, not the file's contents. Network timing, partial writes and concurrency between handlers are not modelled.
- `Date.now()`, `new Date().toISOString()` and timers are not modelled. The clock is one `now` per event; a log entry's id is the decimal `now` and its timestamp is `now` as a number.
- Text.ToLowerAscii: lower-cases ASCII letters only, because Unicode case mapping is not modelled; an admin-role name with non-ASCII capitals may therefore differ.
- Text.Trim: the whitespace set is the usual Unicode list; line terminators and the BOM are included.
- BotService.OnMessageCreate: the role and channel lists built for the prompt (`services/botService.js:111-127`) are not passed to the answer generator, which sees only the text and the channel context.
- BotService.OnMessageCreate: `message.mentions.has(client.user)` is modelled as the message's `mentionsBot` flag.
- BotService.OnMessageCreate: the channel lookup is over a snapshot of the channel documents, not a live query.
- BotService.BotManager.StartBot: building the client and loading commands (`services/botService.js:30-53`) are left out, since they never fail in the model. `initializeBots` is not part of this model.
- BotService.BotManager.StopBot: `client.destroy()` has no modelled effect beyond removing the client.
- BotService.BotManager.SyncMetadata: the document write is an outcome; the stored document is not modelled.
- GuildService.FetchDiscordGuildData: the cache lookup and the fetch are both modelled as the client's map of reachable guilds. That map is only looked up when the client has its account, because the code's log lines need `client.user`. The `!guild` branch after a successful refetch cannot be reached and is left out.
- GuildService.ChannelStore.SyncChannels: a failing `save` or `create` would stop the loop part way; database errors are not modelled.
- Moderation: the read, parse and write of the violation file are one step with one outcome, not a race, and a failed write is taken to leave the file unchanged. Discord errors from role creation or granting are swallowed, as in the source.
- Conversations: `client.guilds.fetch()` and the message fetches are values; the outer errors are the `readOk` flag, a missing guild list, and the `writeOk` flag, whose failure makes the sync return 0 with the log unchanged.
- EmbedHelper.CreateBaseEmbed: the checks of discord.js `EmbedBuilder` are not modelled. `setColor` throws on a colour it cannot read (neither six hex digits nor a named colour, e.g. `"teal"`), and `setDescription` throws on an empty text or one over 4096 characters. When that happens in the moderation pass, `handleViolation` returns false and the message goes on to the model's answer, where the model says `Moderated`. When it happens in the reply, nothing is sent, where the model says `Replied` (`RepliesExactlyWhenAddressed`). Both statements therefore hold only for a bot whose configured colours discord.js can read and an answer it accepts.
- EmbedHelper.TruncateHex: the 7-character cut counts code points, while JavaScript `substring` counts UTF-16 units; the two differ only for colours holding characters outside the Basic Multilingual Plane.
- Conversations.SyncTwiceAddsNothing: holds only when the first sync's list fits in 100 entries. Beyond that, the pairs cut away are added again by every later sync (`SyncReAddsDropped`).
- Conversations.SortBy: the order among entries with equal timestamps is not stated; the contract gives sortedness and the permutation only.
- Qdrant: scores and vectors are opaque; `initCollection` and `getAllKnowledge` are not part of this model.
- The `ragMode` option in the bot schema is not implemented by the code, so it is not modelled.
