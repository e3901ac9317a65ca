/**
 * Field resolution of the embeds every reply is wrapped in: colour, title,
 * footer and icon each fall back from the bot's own configuration to the
 * built-in defaults. The discord.js `EmbedBuilder` is modelled by the record
 * of the fields that are set on it.
 */
module EmbedHelper {
  import opened Wrappers
  import opened Text
  import opened Models

  datatype EmbedType = SuccessKind | WarningKind | ErrorKind

  /** The key of a type in a `TYPES` table. */
  function TypeKey(t: EmbedType): string {
    match t
    case SuccessKind => "SUCCESS"
    case WarningKind => "WARNING"
    case ErrorKind => "ERROR"
  }

  const DEFAULT_TITLE: string := "Bot Helper - VibeCity RP"
  const DEFAULT_FOOTER: string := "Alice AI - Vibe cao, City chất"

  /** `DEFAULT_CONFIG.TYPES`. */
  function DefaultStyle(t: EmbedType): TypeStyle {
    match t
    case SuccessKind => TypeStyle("#00FFD1", "\U{2705}")
    case WarningKind => TypeStyle("#FBFF00", "\U{26A0}\U{FE0F}")
    case ErrorKind => TypeStyle("#FF0000", "\U{274C}")
  }

  /** JavaScript `a || b` on strings: the empty string is falsy. */
  function Or(a: string, b: string): string {
    if a != "" then a else b
  }

  /** The fields an embed is built with (the timestamp is left out). */
  datatype Embed = Embed(title: string, color: string, description: string, footer: string)

  /** `botConfig?.config`, absent when there is no bot or it has no configuration. */
  function SettingsOf(bot: Option<BotData>): Option<EmbedSettings> {
    if bot.Some? then bot.value.config else None
  }

  /** `config.TYPES?.[type] || DEFAULT_CONFIG.TYPES[type]`. */
  function TypeStyleOf(bot: Option<BotData>, t: EmbedType): (s: TypeStyle)
    ensures SettingsOf(bot).None? ==> s == DefaultStyle(t)
    ensures SettingsOf(bot).Some? && TypeKey(t) in SettingsOf(bot).value.types ==>
              s == SettingsOf(bot).value.types[TypeKey(t)]
    ensures SettingsOf(bot).Some? && TypeKey(t) !in SettingsOf(bot).value.types ==> s == DefaultStyle(t)
  {
    match SettingsOf(bot)
    case Some(cfg) => if TypeKey(t) in cfg.types then cfg.types[TypeKey(t)] else DefaultStyle(t)
    case None => DefaultStyle(t)
  }

  /** `botConfig?.config?.colors?.[type.toLowerCase()]`, "" when unset. */
  function ConfiguredColor(bot: Option<BotData>, t: EmbedType): string {
    var key := ToLowerAscii(TypeKey(t));
    match SettingsOf(bot)
    case Some(cfg) => if key in cfg.colors then cfg.colors[key] else ""
    case None => ""
  }

  /** A colour string that starts with `#` and is longer than 7 characters, cut to its first 7. */
  function TruncateHex(c: string): (r: string)
    ensures StartsWith(c, "#") && |c| > 7 ==> r == c[..7]
    ensures !(StartsWith(c, "#") && |c| > 7) ==> r == c
  {
    if c != "" && StartsWith(c, "#") && |c| > 7 then c[..7] else c
  }

  /**
   * The colour of an embed: the configured per-type colour, else the type
   * entry's colour, cut to `#RRGGBB`; the default colour of the type when both
   * are unset. A resolved `#` colour is never longer than 7 characters.
   */
  function ResolveColor(bot: Option<BotData>, t: EmbedType): (r: string)
    ensures r != ""
    ensures StartsWith(r, "#") ==> |r| <= 7
    ensures ConfiguredColor(bot, t) != "" ==> r == TruncateHex(ConfiguredColor(bot, t))
    ensures ConfiguredColor(bot, t) == "" && TypeStyleOf(bot, t).color != "" ==>
              r == TruncateHex(TypeStyleOf(bot, t).color)
    ensures ConfiguredColor(bot, t) == "" && TypeStyleOf(bot, t).color == "" ==> r == DefaultStyle(t).color
  {
    var color := TruncateHex(Or(ConfiguredColor(bot, t), TypeStyleOf(bot, t).color));
    Or(color, DefaultStyle(t).color)
  }

  /** `config.embedTitle || name || DEFAULT_CONFIG.TITLE`. */
  function ResolveTitle(bot: Option<BotData>): (r: string)
    ensures r != ""
    ensures SettingsOf(bot).Some? && SettingsOf(bot).value.embedTitle != "" ==> r == SettingsOf(bot).value.embedTitle
    ensures (SettingsOf(bot).None? || SettingsOf(bot).value.embedTitle == "") && bot.Some? && bot.value.name != "" ==>
              r == bot.value.name
    ensures bot.None? || ((SettingsOf(bot).None? || SettingsOf(bot).value.embedTitle == "") && bot.value.name == "") ==>
              r == DEFAULT_TITLE
  {
    var configured := match SettingsOf(bot) case Some(cfg) => cfg.embedTitle case None => "";
    var name := if bot.Some? then bot.value.name else "";
    Or(configured, Or(name, DEFAULT_TITLE))
  }

  /** `config.footerText || DEFAULT_CONFIG.FOOTER_TEXT`. */
  function ResolveFooter(bot: Option<BotData>): (r: string)
    ensures r != ""
    ensures SettingsOf(bot).Some? && SettingsOf(bot).value.footerText != "" ==> r == SettingsOf(bot).value.footerText
    ensures SettingsOf(bot).None? || SettingsOf(bot).value.footerText == "" ==> r == DEFAULT_FOOTER
  {
    match SettingsOf(bot)
    case Some(cfg) => Or(cfg.footerText, DEFAULT_FOOTER)
    case None => DEFAULT_FOOTER
  }

  /** `createBaseEmbed`: the description as given, the other fields resolved. */
  function CreateBaseEmbed(description: string, t: EmbedType, bot: Option<BotData>): (e: Embed)
    ensures e.description == description
    ensures e.title == ResolveTitle(bot) && e.color == ResolveColor(bot, t) && e.footer == ResolveFooter(bot)
  {
    Embed(ResolveTitle(bot), ResolveColor(bot, t), description, ResolveFooter(bot))
  }

  /** `botConfig?.config?.TYPES?.[type]?.ICON || DEFAULT_CONFIG.TYPES[type].ICON`. */
  function IconOf(bot: Option<BotData>, t: EmbedType): (r: string)
    ensures r != ""
    ensures SettingsOf(bot).Some? && TypeKey(t) in SettingsOf(bot).value.types
            && SettingsOf(bot).value.types[TypeKey(t)].icon != "" ==>
              r == SettingsOf(bot).value.types[TypeKey(t)].icon
    ensures SettingsOf(bot).None? || TypeKey(t) !in SettingsOf(bot).value.types
            || SettingsOf(bot).value.types[TypeKey(t)].icon == "" ==>
              r == DefaultStyle(t).icon
  {
    var configured := match SettingsOf(bot)
      case Some(cfg) => if TypeKey(t) in cfg.types then cfg.types[TypeKey(t)].icon else ""
      case None => "";
    Or(configured, DefaultStyle(t).icon)
  }

  /** A success embed carries the text unprefixed. */
  function CreateSuccessEmbed(text: string, bot: Option<BotData>): (e: Embed)
    ensures e.description == text
    ensures e.color == ResolveColor(bot, SuccessKind)
  {
    CreateBaseEmbed(text, SuccessKind, bot)
  }

  /** A warning embed prefixes the text with the warning icon and a space. */
  function CreateWarningEmbed(text: string, bot: Option<BotData>): (e: Embed)
    ensures e.description == IconOf(bot, WarningKind) + " " + text
    ensures e.color == ResolveColor(bot, WarningKind)
  {
    CreateBaseEmbed(IconOf(bot, WarningKind) + " " + text, WarningKind, bot)
  }

  /** An error embed prefixes the text with the error icon and a space. */
  function CreateErrorEmbed(text: string, bot: Option<BotData>): (e: Embed)
    ensures e.description == IconOf(bot, ErrorKind) + " " + text
    ensures e.color == ResolveColor(bot, ErrorKind)
  {
    CreateBaseEmbed(IconOf(bot, ErrorKind) + " " + text, ErrorKind, bot)
  }

  /** The embed of each type, by type. */
  function CreateEmbed(t: EmbedType, text: string, bot: Option<BotData>): Embed {
    match t
    case SuccessKind => CreateSuccessEmbed(text, bot)
    case WarningKind => CreateWarningEmbed(text, bot)
    case ErrorKind => CreateErrorEmbed(text, bot)
  }

  /** Without a bot every field is the default of `DEFAULT_CONFIG`. */
  lemma DefaultsWithoutBot(text: string)
    ensures CreateSuccessEmbed(text, None) == Embed(DEFAULT_TITLE, "#00FFD1", text, DEFAULT_FOOTER)
    ensures CreateWarningEmbed(text, None) == Embed(DEFAULT_TITLE, "#FBFF00", "\U{26A0}\U{FE0F} " + text, DEFAULT_FOOTER)
    ensures CreateErrorEmbed(text, None) == Embed(DEFAULT_TITLE, "#FF0000", "\U{274C} " + text, DEFAULT_FOOTER)
  {
  }

  /**
   * A bot whose configuration has no `TYPES` table (the stored schema has
   * none) gets its configured colour, cut to 7 characters, or the default one.
   */
  lemma ConfiguredColorWins(bot: BotData, t: EmbedType, c: string)
    requires bot.config.Some? && bot.config.value.types == map[]
    requires ToLowerAscii(TypeKey(t)) in bot.config.value.colors && bot.config.value.colors[ToLowerAscii(TypeKey(t))] == c
    ensures c != "" && !StartsWith(c, "#") ==> ResolveColor(Some(bot), t) == c
    ensures StartsWith(c, "#") && |c| > 7 ==> ResolveColor(Some(bot), t) == c[..7]
    ensures c == "" ==> ResolveColor(Some(bot), t) == DefaultStyle(t).color
  {
  }

  /** The lower-case colour keys `type.toLowerCase()` produces. */
  lemma ColorKeys()
    ensures ToLowerAscii(TypeKey(SuccessKind)) == "success"
    ensures ToLowerAscii(TypeKey(WarningKind)) == "warning"
    ensures ToLowerAscii(TypeKey(ErrorKind)) == "error"
  {
    assert ToLowerAscii("SUCCESS") == "success";
    assert ToLowerAscii("WARNING") == "warning";
    assert ToLowerAscii("ERROR") == "error";
  }
}
