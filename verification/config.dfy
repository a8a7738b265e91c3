/** The static configuration of the bot (`Bot.config` and `Bot.controller`). */
module BotConfig {

  /** Canned replies. */
  const NoText := "I'm sorry. I'm afraid I can't do that"
  const EntryText := "Ignore me, just here to make sure no one works late!"
  const ConfusedText := "Sorry, I don't know what you want from me."

  /** The emoji used when the bot reacts instead of replying. */
  const GoHomeReaction := "go_home"

  /** Default zone, in the unit the date library reads it in (hours, see Lateness). */
  const DefaultZone := -4

  /** The workday: starts at 07:00 local and lasts 12 hours. */
  const DayStartHour := 7
  const DayLengthHours := 12

  /** The command vocabulary, in the order `Object.values` yields it. */
  const LeaveWord := "leave"
  const JoinWord := "join"
  const Vocabulary := [LeaveWord, JoinWord]

  /** Platform event names the bot listens to. */
  const RtmOpen := "rtm_open"
  const RtmClose := "rtm_close"
  const ChannelJoin := "bot_channel_join"
  const GroupJoin := "bot_group_join"
  const Ambient := "ambient"
  const DirectMessage := "direct_message"
  const DirectMention := "direct_mention"
  const Mention := "mention"

  /** The four texts a text nudge is drawn from. */
  const GoHomeOptions := ["Go home!", "Are you homeless?", "Stop working!", "Why are you here?"]
}
