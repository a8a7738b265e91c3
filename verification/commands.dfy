/** The command interpreter (`handleDM`) and the room actuator (`joinLeaveRoom`). */
module Commands {
  import opened Values
  import opened BotConfig
  import opened Text
  import opened Events

  /** The room actuator: leaves the named room when the action is exactly
      "leave" (case-sensitive) and joins it for any other action. The room name
      is the second space-separated field of the message text. */
  function JoinLeaveRoom(action: string, message: Message): (effects: seq<Effect>)
    ensures |effects| == 1 && effects[0].IsMembershipCall()
    ensures effects[0].LeaveChannel? <==> action == LeaveWord
    ensures effects[0].origin == message
    ensures effects[0].name == SecondField(message.text)
    ensures effects[0].name == None <==> ' ' !in message.text
  {
    SecondFieldAbsent(message.text);
    var name := SecondField(message.text);
    if action == LeaveWord then [LeaveChannel(name, message)] else [JoinChannel(name, message)]
  }

  /** The membership call's callback, fired once by the platform: it replies the
      fixed apology to the originating message, whatever error and response it
      is given (also when the call succeeded), and never retries the call. */
  function MembershipCallback(call: Effect, error: Option<string>, response: Option<string>): (effects: seq<Effect>)
    requires call.IsMembershipCall()
    ensures |effects| == 1 && effects[0].Reply?
    ensures effects[0].to == call.origin && effects[0].text == NoText
    ensures forall k :: 0 <= k < |effects| ==> !effects[k].IsMembershipCall()
  {
    [Reply(call.origin, NoText)]
  }

  /** What the `switch` in `handleDM` decides. */
  datatype Decision = Actuate(action: string) | Confused

  /** Reads `matched[0]` and lower-cases it: a vocabulary word sends the ORIGINAL
      text of the word on to the actuator, anything else is confusing. Without a
      match the read throws. */
  function Interpret(matched: seq<string>): (d: Result<Decision>)
    ensures d.Thrown? <==> |matched| == 0
    ensures d.Ok? && d.value.Actuate? ==> d.value.action == matched[0]
    ensures d.Ok? ==> (d.value.Actuate? <==> EqualsIgnoringCase(matched[0], LeaveWord) || EqualsIgnoringCase(matched[0], JoinWord))
  {
    if |matched| == 0 then Thrown(TypeError)
    else
      var action := matched[0];
      LowerEqualsIff(action, LeaveWord);
      LowerEqualsIff(action, JoinWord);
      var lowered := Lower(action);
      if lowered == LeaveWord || lowered == JoinWord then Ok(Actuate(action)) else Ok(Confused)
  }

  /** `handleDM`: exactly one outcome per directed message, either one
      membership call or one confused reply. */
  function HandleDM(message: Message): (r: Result<seq<Effect>>)
    ensures r.Thrown? <==> |message.matched| == 0
    ensures r.Ok? ==> |r.value| == 1
    ensures r.Ok? ==> (r.value[0].IsMembershipCall() <==> EqualsIgnoringCase(message.matched[0], LeaveWord) || EqualsIgnoringCase(message.matched[0], JoinWord))
    ensures r.Ok? && !r.value[0].IsMembershipCall() ==> r.value[0] == Reply(message, ConfusedText)
    ensures r.Ok? && r.value[0].IsMembershipCall() ==> r.value == JoinLeaveRoom(message.matched[0], message)
  {
    match Interpret(message.matched)
    case Thrown(e) => Thrown(e)
    case Ok(Actuate(action)) => Ok(JoinLeaveRoom(action, message))
    case Ok(Confused) => Ok([Reply(message, ConfusedText)])
  }

  /** Because the actuator compares case-sensitively, a shouted "LEAVE" heard
      in a direct message makes the bot JOIN the named room. */
  lemma ShoutedLeaveJoins(message: Message)
    requires |message.matched| > 0 && message.matched[0] == "LEAVE"
    ensures HandleDM(message).Ok?
    ensures HandleDM(message).value == [JoinChannel(SecondField(message.text), message)]
  {
    assert EqualsIgnoringCase("LEAVE", LeaveWord) by {
      assert UpperChar('l') == 'L' && UpperChar('e') == 'E' && UpperChar('a') == 'A' && UpperChar('v') == 'V';
    }
  }

  /** The room name of "<word> mock-room now" is "mock-room". */
  lemma MockRoomName(word: string)
    requires ' ' !in word
    ensures SecondField(word + " mock-room now") == Some("mock-room")
  {
    var parts := [word, "mock-room", "now"];
    assert parts[1..] == ["mock-room", "now"] && parts[1..][1..] == ["now"];
    assert JoinWith(["now"], ' ') == "now";
    assert JoinWith(["mock-room", "now"], ' ') == "mock-room now";
    assert JoinWith(parts, ' ') == word + [' '] + "mock-room now";
    assert word + " mock-room now" == word + [' '] + "mock-room now";
    assert ' ' !in "mock-room" && ' ' !in "now";
    SecondFieldOfParts(parts);
  }

  /** The actuator examples the repository's tests use: "join mock-room now"
      joins and "leave mock-room now" leaves the room "mock-room". */
  lemma ActuatorExamples(word: string, message: Message)
    requires word == JoinWord || word == LeaveWord
    requires message.text == word + " mock-room now"
    ensures word == JoinWord ==> JoinLeaveRoom(word, message) == [JoinChannel(Some("mock-room"), message)]
    ensures word == LeaveWord ==> JoinLeaveRoom(word, message) == [LeaveChannel(Some("mock-room"), message)]
  {
    MockRoomName(word);
  }
}
