/**
 * Moderation escalation: a per-user violation counter and the punishment a
 * violation earns. The first violation is a warning; each later one a timed
 * mute whose length grows with the count and the severity, clamped to
 * [2, 15] minutes; persistent offenders get admins tagged and, from the
 * fifth violation on, the "Toxic Player" role.
 *
 * The Discord calls the handler makes (fetching the member, the timeout, the
 * reply, creating and adding the role) are given as their outcomes in
 * `ModerationCalls`.
 */
module Moderation {
  import opened Wrappers
  import opened Text
  import opened Discord
  import opened Models
  import opened EmbedHelper

  const MIN_MUTE_MINUTES: nat := 2
  const MAX_MUTE_MINUTES: nat := 15
  const TOXIC_ROLE_THRESHOLD: nat := 5
  const TOXIC_ROLE_NAME: string := "Toxic Player"
  const FIRST_NOTICE: string := "\n**Đây là lần nhắc nhở đầu tiên.** Hãy chú ý ngôn từ để tránh bị cấm chat nhé!"
  // The fixed pieces of the reply notice.
  const GREETING_OPEN: string := "Chào "
  const GREETING_NOTICED: string := " nhận thấy tin nhắn của bạn không phù hợp.\n"
  const REASON_LABEL: string := "- **Lý do:** "
  const PENALTY_LABEL: string := "- **Hình phạt:** Cấm chat **"
  const PENALTY_MINUTES: string := " phút** (Vi phạm lần "
  const REPEAT_REPORT: string := "**Báo cáo:** Người chơi này đã tái phạm nhiều lần. "
  const REPEAT_REPORT_END: string := " vui lòng kiểm tra.\n\n"
  const ADMIN_REPORT: string := "\n\n**Báo cáo Admin:** "
  const ADMIN_REPORT_MIDDLE: string := " có đối tượng vi phạm nhưng "
  const ADMIN_REPORT_END: string := " không thể tự xử lý."
  const CLOSING: string := "*Hãy giữ cho môi trường văn minh nhé!*"
  const RULES_NOTICE: string := "\n*Lưu ý: Bạn đang vi phạm quy tắc cộng đồng.*"

  // ---------------------------------------------------------------------------
  // The punishment rule (pure)
  // ---------------------------------------------------------------------------

  /** `level === 'high' ? 3 : (level === 'medium' ? 2 : 1)`. */
  function Multiplier(level: string): nat {
    if level == "high" then 3 else if level == "medium" then 2 else 1
  }

  function Clamp(x: int, lo: int, hi: int): int {
    if x < lo then lo else if x > hi then hi else x
  }

  /** Minutes of mute for the `count`-th violation: none for the first. */
  function MuteMinutes(level: string, count: nat): (m: nat)
    ensures count <= 1 ==> m == 0
    ensures count > 1 ==> MIN_MUTE_MINUTES <= m <= MAX_MUTE_MINUTES
  {
    if count > 1 then Clamp(Multiplier(level) * 2 + (count - 1) * 2, 2, 15) else 0
  }

  /** A later violation never earns a shorter mute. */
  lemma MuteMonotoneInCount(level: string, c1: nat, c2: nat)
    requires c1 <= c2
    ensures MuteMinutes(level, c1) <= MuteMinutes(level, c2)
  {
  }

  /** A more severe level never earns a shorter mute. */
  lemma MuteMonotoneInSeverity(lower: string, higher: string, count: nat)
    requires Multiplier(lower) <= Multiplier(higher)
    ensures MuteMinutes(lower, count) <= MuteMinutes(higher, count)
  {
  }

  /** The ladder for medium severity, and where the low and high ladders saturate. */
  lemma EscalationExamples()
    ensures MuteMinutes("medium", 1) == 0 && MuteMinutes("medium", 2) == 6 && MuteMinutes("medium", 3) == 8
    ensures MuteMinutes("medium", 4) == 10 && MuteMinutes("medium", 5) == 12
    ensures MuteMinutes("low", 2) == 4 && MuteMinutes("low", 7) == 14 && MuteMinutes("low", 8) == 15
    ensures MuteMinutes("high", 2) == 8 && MuteMinutes("high", 6) == 15 && MuteMinutes("spam", 2) == 4
  {
  }

  /** A violation is serious when its level is high or it is the third or later. */
  predicate IsSerious(level: string, count: nat) {
    level == "high" || count > 2
  }

  /** `botData?.name || fallback`. */
  function BotName(bot: Option<BotData>, fallback: string): string {
    Or(if bot.Some? then bot.value.name else "", fallback)
  }

  /** The word of the reply title: reminder, warning, or heavy penalty. */
  function StatusLabel(count: nat, serious: bool): string {
    if count == 1 then "Nhắc Nhở" else if serious then "Lệnh Phạt Nặng" else "Cảnh Báo"
  }

  function StatusTitle(bot: Option<BotData>, count: nat, serious: bool): string {
    " " + BotName(bot, "Bot") + " - " + StatusLabel(count, serious) + " "
  }

  /** A role counts as an admin role when its lower-cased name contains "admin" or "quản trị". */
  predicate IsAdminRole(r: Role) {
    Includes(ToLowerAscii(r.name), "admin") || Includes(ToLowerAscii(r.name), "quản trị")
  }

  /** The admin roles of a guild, in cache order. */
  function AdminRoles(roles: seq<Role>): (r: seq<Role>)
    ensures forall k | 0 <= k < |r| :: IsAdminRole(r[k]) && r[k] in roles
    ensures forall k | 0 <= k < |roles| :: IsAdminRole(roles[k]) ==> roles[k] in r
    decreases |roles|
  {
    if roles == [] then []
    else if IsAdminRole(roles[0]) then [roles[0]] + AdminRoles(roles[1..])
    else AdminRoles(roles[1..])
  }

  function RoleMentions(roles: seq<Role>): (r: seq<string>)
    ensures |r| == |roles|
    ensures forall k | 0 <= k < |r| :: r[k] == RoleMention(roles[k].id)
  {
    seq(|roles|, k requires 0 <= k < |roles| => RoleMention(roles[k].id))
  }

  /** The mentions of all admin roles separated by spaces, "" when there is none. */
  function AdminTag(roles: seq<Role>): string {
    Join(RoleMentions(AdminRoles(roles)), " ")
  }

  /** There is an admin tag exactly when the guild has an admin role. */
  lemma AdminTagPresentIff(roles: seq<Role>)
    ensures AdminTag(roles) != "" <==> exists k | 0 <= k < |roles| :: IsAdminRole(roles[k])
  {
    var admins := AdminRoles(roles);
    JoinEmptyIff(RoleMentions(admins), " ");
    if |admins| > 0 {
      assert admins[0] in roles;
      assert RoleMentions(admins)[0] != "";
    }
  }

  /** `roles.cache.find(r => r.name === name)`. */
  function FindRoleByName(roles: seq<Role>, name: string): (r: Option<Role>)
    ensures r.Some? ==> r.value in roles && r.value.name == name
    ensures r.Some? ==> exists k | 0 <= k < |roles| :: roles[k] == r.value && forall j | 0 <= j < k :: roles[j].name != name
    ensures r.None? ==> forall k | 0 <= k < |roles| :: roles[k].name != name
    decreases |roles|
  {
    if roles == [] then None
    else if roles[0].name == name then Some(roles[0])
    else
      var found := FindRoleByName(roles[1..], name);
      if found.Some? then
        var k :| 0 <= k < |roles[1..]| && roles[1..][k] == found.value
                 && forall j | 0 <= j < k :: roles[1..][j].name != name;
        assert roles[k + 1] == found.value && forall j | 0 <= j < k + 1 :: roles[j].name != name;
        found
      else found
  }

  // ---------------------------------------------------------------------------
  // The Discord side of a violation
  // ---------------------------------------------------------------------------

  /** The fetched guild member: whether the bot may time it out, and the roles it has. */
  datatype Member = Member(moderatable: bool, roleIds: set<string>)

  /** What each Discord call of the handler yields. */
  datatype ModerationCalls = ModerationCalls(
    member: Option<Member>,        // `guild.members.fetch`: None when it throws
    timeoutOk: bool,               // `member.timeout` resolves
    replyOk: bool,                 // `message.reply` resolves
    createdRole: Option<Role>,     // `guild.roles.create`: None when it is rejected
    addRoleOk: bool)               // `member.roles.add` resolves

  datatype Timeout = Timeout(durationMs: nat, reason: string)

  /** The reply that was delivered: its type, notice text, embed, and whether admins were tagged in it. */
  datatype ModerationReply = ModerationReply(kind: EmbedType, notice: string, embed: Embed, adminsTagged: bool)

  /** What handling one violation did on Discord. */
  datatype Punishment = Punishment(
    timeout: Option<Timeout>,
    reply: Option<ModerationReply>,
    createdRole: Option<Role>,
    grantedRoleId: Option<string>)

  const NO_PUNISHMENT: Punishment := Punishment(None, None, None, None)

  /** The member was fetched: the guild exists and `members.fetch` resolved. */
  predicate Reached(guild: Option<DiscordGuild>, calls: ModerationCalls) {
    guild.Some? && calls.member.Some?
  }

  /** A timeout is requested: a repeat violation by a member the bot may moderate. */
  predicate TimesOut(count: nat, guild: Option<DiscordGuild>, calls: ModerationCalls) {
    Reached(guild, calls) && count > 1 && calls.member.value.moderatable
  }

  /** The reply is delivered, so the violation counts as handled. */
  predicate Delivers(count: nat, guild: Option<DiscordGuild>, calls: ModerationCalls) {
    Reached(guild, calls) && (TimesOut(count, guild, calls) ==> calls.timeoutOk) && calls.replyOk
  }

  /** An error embed for a serious timed mute; a warning embed otherwise. */
  function ReplyKind(level: string, count: nat, moderatable: bool): EmbedType {
    if count > 1 && moderatable && IsSerious(level, count) then ErrorKind else WarningKind
  }

  /** Admins are tagged on a repeat violation when admin roles exist: in a mute only from the fourth on. */
  predicate TagsAdmins(count: nat, roles: seq<Role>, moderatable: bool) {
    count > 1 && AdminTag(roles) != "" && (moderatable ==> count > 3)
  }

  /** The existing "Toxic Player" role, else the one created for the occasion. */
  function ToxicRole(guild: DiscordGuild, calls: ModerationCalls): Option<Role> {
    match FindRoleByName(guild.roles, TOXIC_ROLE_NAME)
    case Some(r) => Some(r)
    case None => calls.createdRole
  }

  /** The role step runs after a delivered reply from the fifth violation on. */
  predicate RoleStep(count: nat, guild: Option<DiscordGuild>, calls: ModerationCalls) {
    Delivers(count, guild, calls) && count >= TOXIC_ROLE_THRESHOLD
  }

  /** The "Toxic Player" role is added only to a member who lacks it. */
  predicate GrantsToxicRole(count: nat, guild: Option<DiscordGuild>, calls: ModerationCalls) {
    RoleStep(count, guild, calls)
    && ToxicRole(guild.value, calls).Some?
    && ToxicRole(guild.value, calls).value.id !in calls.member.value.roleIds
    && calls.addRoleOk
  }

  /** The audit-log reason of a timeout: the violation's reason and its number. */
  function TimeoutReason(reason: string, count: nat): string {
    "Auto-mod: " + reason + " (Lần " + NatToString(count) + ")"
  }

  function Greeting(authorId: string, reason: string, bot: Option<BotData>): string {
    GREETING_OPEN + UserMention(authorId) + ", " + BotName(bot, "Bot") + GREETING_NOTICED
    + REASON_LABEL + reason + "\n"
  }

  /** The penalty line of a mute: its minutes and the number of the violation. */
  function PenaltyLine(level: string, count: nat): string {
    PENALTY_LABEL + NatToString(MuteMinutes(level, count)) + PENALTY_MINUTES + NatToString(count) + ").\n\n"
  }

  /** The report asking the tagged admins to check a repeat offender. */
  function RepeatReport(adminTag: string): string {
    REPEAT_REPORT + adminTag + REPEAT_REPORT_END
  }

  /** The report telling the tagged admins the bot cannot act on its own. */
  function AdminReport(adminTag: string, bot: Option<BotData>): string {
    ADMIN_REPORT + adminTag + (ADMIN_REPORT_MIDDLE + BotName(bot, "Alice") + ADMIN_REPORT_END)
  }

  /**
   * What follows the greeting in the notice of the `count`-th violation: the
   * first reminder; for a member the bot may mute, the penalty, the repeat
   * report from the fourth violation on when admin roles exist, and the
   * closing line; otherwise the rules notice and, when admin roles exist,
   * the admin report.
   */
  function NoticeBody(count: nat, level: string, bot: Option<BotData>, roles: seq<Role>, moderatable: bool): string {
    var adminTag := AdminTag(roles);
    if count == 1 then FIRST_NOTICE
    else if moderatable then
      (if count > 3 && adminTag != "" then PenaltyLine(level, count) + RepeatReport(adminTag)
       else PenaltyLine(level, count)) + CLOSING
    else if adminTag != "" then RULES_NOTICE + AdminReport(adminTag, bot)
    else RULES_NOTICE
  }

  /** The `description` of the reply to the `count`-th violation. */
  function Notice(count: nat, level: string, reason: string, authorId: string, bot: Option<BotData>,
                  roles: seq<Role>, moderatable: bool): string {
    Greeting(authorId, reason, bot) + NoticeBody(count, level, bot, roles, moderatable)
  }

  /** A first violation gets the greeting and the first reminder, nothing else. */
  lemma FirstNotice(level: string, reason: string, authorId: string, bot: Option<BotData>,
                    roles: seq<Role>, moderatable: bool)
    ensures Notice(1, level, reason, authorId, bot, roles, moderatable) == Greeting(authorId, reason, bot) + FIRST_NOTICE
  {
  }

  /** A mute's notice states the muted minutes and the violation's number right after the greeting. */
  lemma MuteNoticeStatesMinutes(count: nat, level: string, reason: string, authorId: string, bot: Option<BotData>,
                                roles: seq<Role>)
    requires count > 1
    ensures StartsWith(Notice(count, level, reason, authorId, bot, roles, true),
                       Greeting(authorId, reason, bot) + PenaltyLine(level, count))
    ensures Includes(Notice(count, level, reason, authorId, bot, roles, true),
                     PENALTY_LABEL + NatToString(MuteMinutes(level, count)) + PENALTY_MINUTES)
  {
    PiecesAfterGreeting(Greeting(authorId, reason, bot), PENALTY_LABEL, NatToString(MuteMinutes(level, count)),
                        PENALTY_MINUTES, NatToString(count), ").\n\n", RepeatReport(AdminTag(roles)), CLOSING);
  }

  /**
   * A greeting followed by the line `lead + value + unit + number + end`,
   * with or without a report after it, then a closing, starts with the
   * greeting and that line, and includes the lead, the value and the unit
   * together.
   */
  lemma PiecesAfterGreeting(greeting: string, lead: string, value: string, unit: string, number: string,
                            end: string, report: string, closing: string)
    ensures var line := lead + value + unit + number + end;
            StartsWith(greeting + ((line + report) + closing), greeting + line)
            && StartsWith(greeting + (line + closing), greeting + line)
    ensures var line := lead + value + unit + number + end;
            Includes(greeting + ((line + report) + closing), lead + value + unit)
            && Includes(greeting + (line + closing), lead + value + unit)
  {
    var line := lead + value + unit + number + end;
    assert StartsWith(greeting + line, greeting + line);
    assert greeting + ((line + report) + closing) == (greeting + line) + (report + closing);
    StartsWithAppend(greeting + line, greeting + line, report + closing);
    assert greeting + (line + closing) == (greeting + line) + closing;
    StartsWithAppend(greeting + line, greeting + line, closing);
    assert greeting + ((line + report) + closing) == greeting + (lead + value + unit) + (number + end + report + closing);
    IncludesPiece(greeting, lead + value + unit, number + end + report + closing);
    assert greeting + (line + closing) == greeting + (lead + value + unit) + (number + end + closing);
    IncludesPiece(greeting, lead + value + unit, number + end + closing);
  }

  /** When the reply tags the admins, the notice holds their mentions. */
  lemma TaggedNoticeMentionsAdmins(count: nat, level: string, reason: string, authorId: string, bot: Option<BotData>,
                                   roles: seq<Role>, moderatable: bool)
    requires TagsAdmins(count, roles, moderatable)
    ensures Includes(Notice(count, level, reason, authorId, bot, roles, moderatable), AdminTag(roles))
  {
    var greeting := Greeting(authorId, reason, bot);
    var tag := AdminTag(roles);
    if moderatable {
      TagBetween(greeting, PenaltyLine(level, count), REPEAT_REPORT, tag, REPEAT_REPORT_END, CLOSING);
    } else {
      TagBetween(greeting, RULES_NOTICE, ADMIN_REPORT, tag, ADMIN_REPORT_MIDDLE + BotName(bot, "Alice") + ADMIN_REPORT_END, "");
    }
  }

  /** A tag written between two parts of a report is included in the notice around it. */
  lemma TagBetween(greeting: string, line: string, open: string, tag: string, close: string, closing: string)
    ensures Includes(greeting + ((line + (open + tag + close)) + closing), tag)
    ensures Includes(greeting + (line + (open + tag + close)), tag)
  {
    assert greeting + ((line + (open + tag + close)) + closing) == (greeting + line + open) + tag + (close + closing);
    IncludesPiece(greeting + line + open, tag, close + closing);
    assert greeting + (line + (open + tag + close)) == (greeting + line + open) + tag + close;
    IncludesPiece(greeting + line + open, tag, close);
  }

  /**
   * The reply to the `count`-th violation: its embed type, its notice, the
   * embed built around the notice with the status title, and whether the
   * admins are tagged.
   */
  predicate ReplyFits(r: ModerationReply, count: nat, level: string, reason: string, authorId: string,
                      bot: Option<BotData>, roles: seq<Role>, moderatable: bool)
  {
    && r.kind == ReplyKind(level, count, moderatable)
    && r.embed == CreateEmbed(r.kind, r.notice, bot).(title := StatusTitle(bot, count, IsSerious(level, count)))
    && r.notice == Notice(count, level, reason, authorId, bot, roles, moderatable)
    && r.adminsTagged == TagsAdmins(count, roles, moderatable)
  }

  /**
   * What handling the `count`-th violation does, given what each Discord call
   * yields: whether it is handled, the timeout, the reply, the role steps.
   */
  ghost predicate Handles(count: nat, level: string, reason: string, authorId: string, bot: Option<BotData>,
                          guild: Option<DiscordGuild>, calls: ModerationCalls, handled: bool, p: Punishment)
  {
    && (handled <==> Delivers(count, guild, calls))
    && (handled <==> p.reply.Some?)
    && p.timeout == (if TimesOut(count, guild, calls)
                     then Some(Timeout(MuteMinutes(level, count) * 60 * 1000,
                                       TimeoutReason(reason, count)))
                     else None)
    && (p.reply.Some? ==>
          ReplyFits(p.reply.value, count, level, reason, authorId, bot, guild.value.roles, calls.member.value.moderatable))
    && p.createdRole == (if RoleStep(count, guild, calls) && FindRoleByName(guild.value.roles, TOXIC_ROLE_NAME).None?
                         then calls.createdRole else None)
    && p.grantedRoleId == (if GrantsToxicRole(count, guild, calls) then Some(ToxicRole(guild.value, calls).value.id)
                           else None)
  }

  /**
   * The notice of the reply for the `count`-th violation, built piece by piece
   * as `handleViolation` builds its `description`, with the embed type and
   * whether the admins are tagged in it.
   */
  method ComposeNotice(count: nat, level: string, reason: string, authorId: string, bot: Option<BotData>,
                       roles: seq<Role>, moderatable: bool)
    returns (kind: EmbedType, description: string, tagged: bool)
    requires count >= 1
    ensures kind == ReplyKind(level, count, moderatable)
    ensures StartsWith(description, Greeting(authorId, reason, bot))
    ensures description == Notice(count, level, reason, authorId, bot, roles, moderatable)
    ensures tagged == TagsAdmins(count, roles, moderatable)
  {
    var greeting := Greeting(authorId, reason, bot);
    var body: string;
    tagged := false;
    if count == 1 {
      body := FIRST_NOTICE;
      kind := WarningKind;
    } else {
      var adminTag := AdminTag(roles);
      if moderatable {
        body := PenaltyLine(level, count);
        if count > 3 && adminTag != "" {
          body := body + RepeatReport(adminTag);
          tagged := true;
        }
        body := body + CLOSING;
        kind := if IsSerious(level, count) then ErrorKind else WarningKind;
      } else {
        body := RULES_NOTICE;
        if adminTag != "" {
          body := body + AdminReport(adminTag, bot);
          tagged := true;
        }
        kind := WarningKind;
      }
    }
    description := greeting + body;
    assert StartsWith(greeting, greeting);
    StartsWithAppend(greeting, greeting, body);
  }

  /** The notice wrapped in an embed of its type, titled with the status of the violation. */
  method BuildReply(count: nat, level: string, reason: string, authorId: string, bot: Option<BotData>,
                    roles: seq<Role>, moderatable: bool) returns (reply: ModerationReply)
    requires count >= 1
    ensures ReplyFits(reply, count, level, reason, authorId, bot, roles, moderatable)
  {
    var kind, description, tagged := ComposeNotice(count, level, reason, authorId, bot, roles, moderatable);
    var embed := CreateEmbed(kind, description, bot).(title := StatusTitle(bot, count, IsSerious(level, count)));
    reply := ModerationReply(kind, description, embed, tagged);
  }

  /**
   * The body of `handleViolation` after the count is known: fetch the member,
   * time out a repeat offender, reply, then try the role. (The source builds
   * the notice around the timeout call; building it has no effect, so it is
   * built here once the timeout has gone through.)
   */
  method Punish(count: nat, level: string, reason: string, authorId: string, bot: Option<BotData>,
                guild: Option<DiscordGuild>, calls: ModerationCalls)
    returns (handled: bool, p: Punishment)
    requires count >= 1  // the count just stored by IncrementViolation
    ensures Handles(count, level, reason, authorId, bot, guild, calls, handled, p)
  {
    if guild.None? || calls.member.None? {
      // members.fetch throws (on a message without a guild, a TypeError)
      return false, NO_PUNISHMENT;
    }
    handled, p := PunishMember(count, level, reason, authorId, bot, guild.value, calls.member.value, calls);
  }

  /** `Punish` once the member has been fetched. */
  method PunishMember(count: nat, level: string, reason: string, authorId: string, bot: Option<BotData>,
                      guild: DiscordGuild, member: Member, calls: ModerationCalls)
    returns (handled: bool, p: Punishment)
    requires count >= 1
    requires calls.member == Some(member)
    ensures Handles(count, level, reason, authorId, bot, Some(guild), calls, handled, p)
  {
    var muteMinutes := MuteMinutes(level, count);
    var timeout: Option<Timeout> := None;
    if count != 1 && member.moderatable {
      timeout := Some(Timeout(muteMinutes * 60 * 1000, TimeoutReason(reason, count)));
      if !calls.timeoutOk {
        return false, NO_PUNISHMENT.(timeout := timeout);
      }
    }
    handled, p := Notify(count, level, reason, authorId, bot, guild, member, calls, timeout);
  }

  /** `Punish` once any timeout has gone through: the reply, then the role step. */
  method Notify(count: nat, level: string, reason: string, authorId: string, bot: Option<BotData>,
                guild: DiscordGuild, member: Member, calls: ModerationCalls, timeout: Option<Timeout>)
    returns (handled: bool, p: Punishment)
    requires count >= 1
    requires calls.member == Some(member)
    requires TimesOut(count, Some(guild), calls) ==> calls.timeoutOk
    requires timeout == (if TimesOut(count, Some(guild), calls)
                         then Some(Timeout(MuteMinutes(level, count) * 60 * 1000, TimeoutReason(reason, count)))
                         else None)
    ensures Handles(count, level, reason, authorId, bot, Some(guild), calls, handled, p)
  {
    var reply := BuildReply(count, level, reason, authorId, bot, guild.roles, member.moderatable);
    if !calls.replyOk {
      return false, NO_PUNISHMENT.(timeout := timeout);
    }
    var createdRole, grantedRoleId := ApplyToxicRole(count, guild, member, calls);
    p := Punishment(timeout, Some(reply), createdRole, grantedRoleId);
    handled := true;
  }

  /**
   * The role step after a delivered reply: from the fifth violation on, the
   * existing "Toxic Player" role, or one created for the occasion, is added
   * to a member who lacks it. Its failures are caught and logged.
   */
  method ApplyToxicRole(count: nat, guild: DiscordGuild, member: Member, calls: ModerationCalls)
    returns (createdRole: Option<Role>, grantedRoleId: Option<string>)
    requires calls.member == Some(member)
    ensures createdRole == (if count >= TOXIC_ROLE_THRESHOLD && FindRoleByName(guild.roles, TOXIC_ROLE_NAME).None?
                            then calls.createdRole else None)
    ensures grantedRoleId == (if count >= TOXIC_ROLE_THRESHOLD && ToxicRole(guild, calls).Some?
                                 && ToxicRole(guild, calls).value.id !in member.roleIds && calls.addRoleOk
                              then Some(ToxicRole(guild, calls).value.id) else None)
  {
    createdRole, grantedRoleId := None, None;
    if count >= TOXIC_ROLE_THRESHOLD {
      var toxicRole := FindRoleByName(guild.roles, TOXIC_ROLE_NAME);
      if toxicRole.None? {
        toxicRole := calls.createdRole;
        createdRole := calls.createdRole;
      }
      if toxicRole.Some? && toxicRole.value.id !in member.roleIds && calls.addRoleOk {
        grantedRoleId := Some(toxicRole.value.id);
      }
    }
  }

  /** A first violation is a warning only: no timeout, a warning embed titled as a reminder, no admins tagged. */
  lemma FirstViolationWarnsOnly(level: string, reason: string, authorId: string, bot: Option<BotData>,
                                guild: Option<DiscordGuild>, calls: ModerationCalls, handled: bool, p: Punishment)
    requires Handles(1, level, reason, authorId, bot, guild, calls, handled, p)
    ensures p.timeout.None? && p.createdRole.None? && p.grantedRoleId.None?
    ensures p.reply.Some? ==> p.reply.value.kind == WarningKind && !p.reply.value.adminsTagged
    ensures p.reply.Some? ==> p.reply.value.embed.title == " " + BotName(bot, "Bot") + " - " + "Nhắc Nhở" + " "
    ensures p.reply.Some? ==> p.reply.value.notice == Greeting(authorId, reason, bot) + FIRST_NOTICE
  {
    assert !TimesOut(1, guild, calls) && !RoleStep(1, guild, calls) && !GrantsToxicRole(1, guild, calls);
    if p.reply.Some? {
      var r := p.reply.value;
      assert ReplyFits(r, 1, level, reason, authorId, bot, guild.value.roles, calls.member.value.moderatable);
      assert r.kind == WarningKind;
      assert StatusLabel(1, IsSerious(level, 1)) == "Nhắc Nhở";
      assert r.embed.title == StatusTitle(bot, 1, IsSerious(level, 1));
    }
  }

  /**
   * A repeat violation by a moderatable member is a mute of exactly
   * `muteMinutes` minutes, replied to with an error embed exactly when it is
   * serious.
   */
  lemma RepeatViolationMutes(count: nat, level: string, reason: string, authorId: string, bot: Option<BotData>,
                             guild: Option<DiscordGuild>, calls: ModerationCalls, handled: bool, p: Punishment)
    requires count > 1 && Reached(guild, calls) && calls.member.value.moderatable
    requires Handles(count, level, reason, authorId, bot, guild, calls, handled, p)
    ensures p.timeout.Some? && p.timeout.value.durationMs == MuteMinutes(level, count) * 60000
    ensures 120000 <= p.timeout.value.durationMs <= 900000
    ensures handled <==> calls.timeoutOk && calls.replyOk
    ensures p.reply.Some? ==> (p.reply.value.kind == ErrorKind <==> level == "high" || count > 2)
    ensures p.reply.Some? ==>
              Includes(p.reply.value.notice, PENALTY_LABEL + NatToString(MuteMinutes(level, count)) + PENALTY_MINUTES)
  {
    MuteNoticeStatesMinutes(count, level, reason, authorId, bot, guild.value.roles);
  }

  /** A member the bot cannot moderate is never timed out, and admins are tagged whenever admin roles exist. */
  lemma UnmoderatableCallsAdmins(count: nat, level: string, reason: string, authorId: string, bot: Option<BotData>,
                                 guild: Option<DiscordGuild>, calls: ModerationCalls, handled: bool, p: Punishment)
    requires count > 1 && Reached(guild, calls) && !calls.member.value.moderatable
    requires Handles(count, level, reason, authorId, bot, guild, calls, handled, p)
    ensures p.timeout.None?
    ensures p.reply.Some? ==> p.reply.value.kind == WarningKind
    ensures p.reply.Some? ==>
              (p.reply.value.adminsTagged <==> exists k | 0 <= k < |guild.value.roles| :: IsAdminRole(guild.value.roles[k]))
  {
    AdminTagPresentIff(guild.value.roles);
  }

  /** Whenever a delivered reply tags the admins, its notice holds their mentions. */
  lemma TaggedReplyMentionsAdmins(count: nat, level: string, reason: string, authorId: string, bot: Option<BotData>,
                                  guild: Option<DiscordGuild>, calls: ModerationCalls, handled: bool, p: Punishment)
    requires Handles(count, level, reason, authorId, bot, guild, calls, handled, p)
    ensures p.reply.Some? && p.reply.value.adminsTagged ==> Includes(p.reply.value.notice, AdminTag(guild.value.roles))
  {
    if p.reply.Some? && p.reply.value.adminsTagged {
      TaggedNoticeMentionsAdmins(count, level, reason, authorId, bot, guild.value.roles, calls.member.value.moderatable);
    }
  }

  /**
   * Granting the role is idempotent: once it has been added (and created, if
   * it had to be), handling a further violation grants and creates nothing.
   */
  lemma ToxicRoleGrantedOnce(count: nat, guild: DiscordGuild, calls: ModerationCalls, later: nat, laterCalls: ModerationCalls)
    requires GrantsToxicRole(count, Some(guild), calls)
    requires calls.createdRole.Some? ==> calls.createdRole.value.name == TOXIC_ROLE_NAME
    requires
      var r := ToxicRole(guild, calls).value;
      laterCalls.member == Some(calls.member.value.(roleIds := calls.member.value.roleIds + {r.id}))
    ensures
      var r := ToxicRole(guild, calls).value;
      var guildAfter := if FindRoleByName(guild.roles, TOXIC_ROLE_NAME).Some? then guild
                        else guild.(roles := guild.roles + [r]);
      ToxicRole(guildAfter, laterCalls) == Some(r)
      && !GrantsToxicRole(later, Some(guildAfter), laterCalls)
      && FindRoleByName(guildAfter.roles, TOXIC_ROLE_NAME).Some?
  {
    var r := ToxicRole(guild, calls).value;
    if FindRoleByName(guild.roles, TOXIC_ROLE_NAME).None? {
      FindAppended(guild.roles, r);
    }
  }

  /** A role appended to roles none of which has its name is the one found by that name. */
  lemma {:induction false} FindAppended(roles: seq<Role>, r: Role)
    requires FindRoleByName(roles, r.name).None?
    ensures FindRoleByName(roles + [r], r.name) == Some(r)
    decreases |roles|
  {
    if roles == [] {
      assert roles + [r] == [r];
    } else {
      assert (roles + [r])[1..] == roles[1..] + [r];
      FindAppended(roles[1..], r);
    }
  }

  // ---------------------------------------------------------------------------
  // The violation counter (`logs/violations.json`)
  // ---------------------------------------------------------------------------

  class Moderator {
    /** userId -> number of violations so far. */
    var violations: map<string, nat>

    constructor ()
      ensures violations == map[]
    {
      violations := map[];
    }

    /** `getViolationCount`: the stored count, 0 for a user never seen. */
    function GetViolationCount(userId: string): (c: nat)
      reads this
      ensures userId !in violations ==> c == 0
      ensures userId in violations ==> c == violations[userId]
    {
      if userId in violations then violations[userId] else 0
    }

    /**
     * `incrementViolation`: one more than before is stored and returned; no
     * other user changes. `fileOk` is whether the violations file can be
     * read, parsed and written; when it cannot, the call throws (None) and
     * nothing is stored.
     */
    method IncrementViolation(userId: string, fileOk: bool) returns (count: Option<nat>)
      modifies this
      ensures fileOk ==> count == Some(old(GetViolationCount(userId)) + 1)
      ensures fileOk ==> violations == old(violations)[userId := count.value]
      ensures !fileOk ==> count.None? && violations == old(violations)
      ensures forall u | u != userId :: GetViolationCount(u) == old(GetViolationCount(u))
    {
      if !fileOk {
        return None;
      }
      var data := violations;
      var c := (if userId in data then data[userId] else 0) + 1;
      data := data[userId := c];
      violations := data;
      count := Some(c);
    }

    /**
     * `handleViolation`: the count is incremented before anything can fail,
     * and the violation is then handled as its new count demands. The
     * increment comes before the `try`, so a violations file that cannot be
     * used makes the whole call throw (`resolved` false) with nothing done.
     */
    method HandleViolation(userId: string, level: string, reason: string, bot: Option<BotData>,
                           guild: Option<DiscordGuild>, fileOk: bool, calls: ModerationCalls)
      returns (resolved: bool, handled: bool, p: Punishment)
      modifies this
      ensures resolved == fileOk
      ensures !fileOk ==> !handled && p == NO_PUNISHMENT && violations == old(violations)
      ensures fileOk ==> violations == old(violations)[userId := old(GetViolationCount(userId)) + 1]
      ensures fileOk ==> Handles(old(GetViolationCount(userId)) + 1, level, reason, userId, bot, guild, calls, handled, p)
    {
      var count := IncrementViolation(userId, fileOk);
      if count.None? {
        return false, false, NO_PUNISHMENT;
      }
      resolved := true;
      handled, p := Punish(count.value, level, reason, userId, bot, guild, calls);
    }
  }
}
