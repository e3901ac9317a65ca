/**
 * The discord.js values the services read, reduced to plain data, and the
 * mention tokens Discord embeds in message text.
 */
module Discord {
  import opened Wrappers
  import opened Text

  /** `ChannelType.GuildText`. */
  const TEXT_CHANNEL: int := 0

  datatype Role = Role(id: string, name: string)

  /**
   * A fetched message. `mentionsBot` is `message.mentions.has(client.user)`
   * as seen by the client that fetched or received it.
   */
  datatype DiscordMessage = DiscordMessage(
    id: string,
    authorId: string,
    authorIsBot: bool,
    authorUsername: string,
    content: string,
    createdTimestamp: int,
    mentionsBot: bool)

  /** A channel of a guild; `messages` is what `channel.messages.fetch` resolves to or the error it throws. */
  datatype DiscordChannel = DiscordChannel(
    id: string,
    name: string,
    channelType: int,
    messages: Result<seq<DiscordMessage>, string>)

  /** A guild; `channels` is what `guild.channels.fetch` resolves to or the error it throws. */
  datatype DiscordGuild = DiscordGuild(
    id: string,
    name: string,
    roles: seq<Role>,
    channels: Result<seq<DiscordChannel>, string>)

  function UserMention(id: string): string { "<@" + id + ">" }
  function NicknameMention(id: string): string { "<@!" + id + ">" }
  function RoleMention(id: string): string { "<@&" + id + ">" }
  function ChannelMention(id: string): string { "<#" + id + ">" }

  /**
   * The text of a message addressed to the bot: the first `<@id>` and then the
   * first `<@!id>` token of the bot removed, and the rest trimmed.
   */
  function StripBotMention(content: string, botId: string): (r: string)
    ensures Trimmed(r)
  {
    Trim(ReplaceFirst(ReplaceFirst(content, UserMention(botId), ""), NicknameMention(botId), ""))
  }

  /** A message without a mention of the bot is only trimmed. */
  lemma StripWithoutMention(content: string, botId: string)
    requires !Includes(content, UserMention(botId)) && !Includes(content, NicknameMention(botId))
    ensures StripBotMention(content, botId) == Trim(content)
  {
  }

  /** A question written after a leading mention of the bot is recovered exactly. */
  lemma StripLeadingMention(botId: string, question: string)
    requires Trimmed(question)
    requires !Includes(" " + question, NicknameMention(botId))
    ensures StripBotMention(UserMention(botId) + " " + question, botId) == question
  {
    var mention, rest := UserMention(botId), " " + question;
    assert UserMention(botId) + " " + question == mention + rest;
    assert ReplaceFirst(mention + rest, mention, "") == rest by {
      ReplaceFirstAtStart(mention, rest, "");
      assert "" + rest == rest;
    }
    assert ReplaceFirst(rest, NicknameMention(botId), "") == rest;
    assert Trim(rest) == question by {
      TrimPadded(" ", question, "");
      assert rest + "" == rest;
    }
  }
}
