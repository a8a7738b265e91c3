/** The ambient-message path (`handleChatter`) and the response selector
    (`shouldUseReaction`, `generateGoHome`, `isTired`), plus the greeting for a
    newly joined room (`handleNewRoom`). Each `Math.random()` call is an injected
    draw in [0, 1). */
module Chatter {
  import opened Values
  import opened BotConfig
  import opened Events
  import opened Lateness

  /** What `Math.random()` can return. */
  predicate IsDraw(r: real)
  {
    0.0 <= r < 1.0
  }

  /** React instead of replying when the draw is below 0.6. */
  function ShouldUseReaction(draw: real): (react: bool)
    ensures IsDraw(draw) ==> (react <==> 0.0 <= draw < 0.6)
    ensures IsDraw(draw) ==> (!react <==> 0.6 <= draw < 1.0)
  {
    draw < 0.6
  }

  /** The rate-limiting hook; never tired in this version. */
  function IsTired(): (tired: bool)
    ensures !tired
  {
    false
  }

  /** `Math.floor(Math.random() * options.length)`. */
  function GoHomeIndex(draw: real): (i: int)
    requires IsDraw(draw)
    ensures 0 <= i < |GoHomeOptions|
    ensures i as real <= draw * 4.0 < i as real + 1.0
  {
    (draw * 4.0).Floor
  }

  /** A go-home text: always one of the four fixed, non-empty options. */
  function GenerateGoHome(draw: real): (text: string)
    requires IsDraw(draw)
    ensures text in GoHomeOptions
    ensures |text| > 0
  {
    GoHomeOptions[GoHomeIndex(draw)]
  }

  /** Each option is chosen on exactly one quarter of the draws, so the choice
      is uniform when the draws are. */
  lemma GoHomeQuarters(draw: real, i: int)
    requires IsDraw(draw) && 0 <= i < |GoHomeOptions|
    ensures GenerateGoHome(draw) == GoHomeOptions[i] <==> i as real / 4.0 <= draw < (i + 1) as real / 4.0
  {
    var j := GoHomeIndex(draw);
    assert GoHomeOptions[0] != GoHomeOptions[1] && GoHomeOptions[0] != GoHomeOptions[2] && GoHomeOptions[0] != GoHomeOptions[3];
    assert GoHomeOptions[1] != GoHomeOptions[2] && GoHomeOptions[1] != GoHomeOptions[3] && GoHomeOptions[2] != GoHomeOptions[3];
    assert GenerateGoHome(draw) == GoHomeOptions[i] <==> j == i;
  }

  /** `handleNewRoom`: greet the room. */
  function HandleNewRoom(message: Message): (effects: seq<Effect>)
    ensures |effects| == 1 && effects[0].Reply? && effects[0].to == message && effects[0].text == EntryText
  {
    [Reply(message, EntryText)]
  }

  /** What the user directory returns: a user with a timezone offset, or no
      user at all (then reading `user.tz_offset` throws). */
  datatype UserInfo = NoUser | User(tzOffset: Timezone)

  /** `handleChatter`, first step: look up the author. The message itself is
      passed as the query. */
  function HandleChatter(message: Message): (effects: seq<Effect>)
    ensures |effects| == 1 && effects[0].LookupUser? && effects[0].query == message
  {
    [LookupUser(message)]
  }

  /** `handleChatter`, second step: the lookup's callback fires. Nothing is done
      in working hours; outside them exactly one nudge goes out, a `go_home`
      reaction on the message or a go-home reply. */
  function OnUserInfo(message: Message, info: UserInfo, reactionDraw: real, textDraw: real): (r: Result<seq<Effect>>)
    requires IsDraw(reactionDraw) && IsDraw(textDraw)
    ensures r.Thrown? <==> info.NoUser?
    ensures r.Ok? ==> |r.value| <= 1
    ensures r.Ok? ==> (|r.value| == 0 <==> DayStartHour * 60 < MinuteOfDay(message.ts.seconds, info.tzOffset) < (DayStartHour + DayLengthHours) * 60)
    ensures r.Ok? && |r.value| == 1 ==> (r.value[0].AddReaction? <==> reactionDraw < 0.6)
    ensures r.Ok? && |r.value| == 1 && r.value[0].AddReaction? ==> r.value[0] == AddReaction(message.ts, message.channel, GoHomeReaction)
    ensures r.Ok? && |r.value| == 1 && !r.value[0].AddReaction? ==> r.value[0].Reply? && r.value[0].to == message && r.value[0].text in GoHomeOptions
    ensures r.Ok? && |r.value| == 1 && !r.value[0].AddReaction? ==> r.value[0] == Reply(message, GenerateGoHome(textDraw))
  {
    match info
    case NoUser => Thrown(TypeError)
    case User(tz) =>
      IsLateRule(message.ts.seconds, tz);
      if IsLate(message.ts.seconds, tz) && !IsTired() then
        if !ShouldUseReaction(reactionDraw) then Ok([Reply(message, GenerateGoHome(textDraw))])
        else Ok([AddReaction(message.ts, message.channel, GoHomeReaction)])
      else Ok([])
  }
}
