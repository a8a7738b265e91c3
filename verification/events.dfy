/** What the handlers see and what they do. Every call the bot makes into the
    platform is recorded as an `Effect` value instead of being performed. */
module Events {
  import opened Values

  /** A message timestamp: its whole seconds (what `Number(message.ts)` yields
      for the minute-level decision) and the sub-second digits, kept opaque so
      that a reaction can name the message exactly. */
  datatype Timestamp = Timestamp(seconds: int, fraction: nat)

  /** An inbound message. `matched` is its `match` array, which the platform
      library attaches to a heard message; it is empty when absent. */
  datatype Message = Message(ts: Timestamp, channel: string, user: string, text: string, matched: seq<string>)

  /** Calls into the platform. The membership calls carry the message their
      callback will reply to. */
  datatype Effect =
    | Reply(to: Message, text: string)
    | JoinChannel(name: Option<string>, origin: Message)
    | LeaveChannel(name: Option<string>, origin: Message)
    | AddReaction(timestamp: Timestamp, channel: string, emoji: string)
    | LookupUser(query: Message)
  {
    predicate IsMembershipCall()
    {
      JoinChannel? || LeaveChannel?
    }
  }
}
