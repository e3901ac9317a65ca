/** The persisted records the services read and write (field names of the Mongo schemas). */
module Models {
  import opened Wrappers

  /**
   * A type entry of an embed configuration (`TYPES.SUCCESS` …): its colour and
   * icon. A field that is missing, null or empty is the empty string; the
   * services only test these fields for truthiness.
   */
  datatype TypeStyle = TypeStyle(color: string, icon: string)

  /**
   * `bot.config`: embed title, footer, per-type colours keyed `success`,
   * `warning`, `error`, and the optional `TYPES` table keyed `SUCCESS`,
   * `WARNING`, `ERROR`. Missing, null and empty strings are all "".
   */
  datatype EmbedSettings = EmbedSettings(
    embedTitle: string,
    footerText: string,
    colors: map<string, string>,
    types: map<string, TypeStyle>)

  /** A bot persona (`Bot` document): id, display name, Discord token and embed configuration. */
  datatype BotData = BotData(
    id: string,
    name: string,
    token: string,
    config: Option<EmbedSettings>)

  /** A `Channel` document: the Discord channel, its guild, the bot assigned to it. */
  datatype ChannelRecord = ChannelRecord(
    channelId: string,
    guildId: string,
    name: string,
    botId: Option<string>,
    isActive: bool)
}
