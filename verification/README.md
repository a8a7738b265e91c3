# Go-home bot: a Dafny model of its decision logic

This project models the decision logic of a Slack bot (`src/bot.js`) that
nags people who post outside working hours, and proves properties of it. The
model covers:

- which controller the bot runs under and where it stores its data;
- the listeners it registers, and how reconnecting re-registers them;
- the command interpreter for `join` / `leave` directed messages and the room actuator;
- the lateness detector;
- the response selector that either reacts with `:go_home:` or replies with one of four texts.

Every call the bot makes into the platform (reply, join, leave, add reaction,
user lookup) is returned as an `Effect` value. The call is not performed.
Platform callbacks firing (the membership callback, the user-lookup callback)
are separate functions. Each `Math.random()` call is an injected draw, a real
number in [0, 1).

Modules, one per file:

| file | module | models |
|---|---|---|
| values.dfy | Values | `undefined` (`Option`) and a thrown TypeError (`Result`) |
| config.dfy | BotConfig | `Bot.config` and `Bot.controller` constants |
| text.dfy | Text | `toLowerCase`, `split(" ")` and the room-name field |
| lateness.dfy | Lateness | `isLate` and the fixed-offset date arithmetic it uses |
| events.dfy | Events | messages and effects |
| commands.dfy | Commands | `handleDM`, `joinLeaveRoom` and the membership callback |
| chatter.dfy | Chatter | `handleChatter`, `shouldUseReaction`, `generateGoHome`, `isTired`, `handleNewRoom` |
| controllers.dfy | Controllers | `newController`, `configStore` and the constructor |
| router.dfy | Router | `registerListeners` and which handler an event reaches |
| supervisor.dfy | Supervisor | `connect`, `onRtmOpen`, `onRtmClose` and reconnect traces |

## Lateness

`Lateness.IsLate` follows the code step by step. It puts `now` in the resolved
offset, sets hour 7 and minute 0 while keeping `now`'s seconds to get
`dayStart`, adds 12 hours to get `dayEnd`, and returns late unless `now` lies
strictly between the two. `Lateness.IsLateRule` proves that this is the same
as a closed-form rule: a message is in hours exactly when its local minute of
the day `m` satisfies 420 < m < 1140. So 07:00:xx and 19:00:xx are both late.

The offset is `timezone / 60`, or the default `-4` when that is NaN. The date
library reads an offset argument whose magnitude is below 16 as hours, and any
other as minutes. The model keeps this rule explicitly (`Lateness.ShiftSeconds`).
So the default is UTC-4. A numeric offset under 960 seconds in magnitude, such
as 600, is read as that many hours' worth of minutes: 600 s gives 10 h. Zero
is a number, so it gives UTC.

## Behaviour worth knowing

- The bot reacts when the draw is below 0.6, so it reacts with probability 0.6 and replies with probability 0.4.
- The working-hours window excludes both ends. The seconds are kept when `dayStart` is built, so 07:00:ss and 19:00:ss are late.
- The membership callback replies the apology whenever it fires. The platform library calls it after every call, successful or not, so a successful join or leave is answered with "I'm sorry. I'm afraid I can't do that".
- `joinLeaveRoom` compares the action with `"leave"` case-sensitively. `handleDM` passes the original case on, so a directed "LEAVE room" makes the bot JOIN the room (`Commands.ShoutedLeaveJoins`).
- Both `onRtmOpen` and `onRtmClose` reconnect. Each event creates one more controller and one more batch of six bindings (`Supervisor.DuplicateBindings`).
- The command word comes from the platform's `match[0]`. The room name is the second field of a single-space split, which may be `undefined` or empty.

The repository's tests disagree with the code in three places; the model follows the code:

- The expected listener list in src/__tests__/bot.test.js:117-127 does not match the list `registerListeners` binds.
- The code passes the whole message to `users.info`, not `{user}`.
- A message without `match` makes `handleDM` throw. The test expects the confused reply.

## Model

| member | source | states |
|---|---|---|
| Lateness.IsLateRule | src/bot.js:242-256 | not late exactly when the local minute of the day is strictly between 07:00 and 19:00; both boundary minutes are late |
| Lateness.OffsetResolution | src/bot.js:247-249 | NaN uses the -4 default read as hours (UTC-4); a numeric offset of 960 s or more in magnitude is used as is; smaller ones, including 0, are read as hours |
| Lateness.IsLateDaily | src/bot.js:242-256 | the answer depends only on the local time of day: shifting the timestamp by whole days does not change it |
| Lateness.Boundaries | src/bot.js:250-255 | 07:00:ss and 19:00:ss local are late, 07:01:ss and 18:59:ss are in hours, for every second ss |
| Lateness.TestVectorZoneAhead | src/__tests__/bot.test.js:247-251 | 1530071118 at +14400 s is in hours, at +3600 s late |
| Lateness.TestVectorDefaultZone | src/__tests__/bot.test.js:253-257 | 1530050018 with no offset is in hours, with offset 0 late |
| Text.LowerEqualsIff | src/bot.js:186-191 | lower-casing then comparing with a lower-case word is the same as case-insensitive equality |
| Text.Split | src/bot.js:169 | `split` pieces contain no separator and joining them with the separator gives back the text |
| Text.SplitUnique | src/bot.js:169 | the split is the only cut of the text into separator-free pieces |
| Text.SecondFieldAbsent | src/bot.js:169 | the room name is `undefined` exactly when the text has no space |
| Text.SecondFieldOfParts | src/bot.js:169 | for text made of two or more space-free fields joined by single spaces, the room name is the second field |
| Commands.JoinLeaveRoom | src/bot.js:166-178 | one membership call: leave iff the action is exactly "leave", join otherwise, named by the second field, answering to the message |
| Commands.MembershipCallback | src/bot.js:171-174 | the callback replies the fixed apology to the originating message exactly once, whatever its arguments, and makes no further membership call |
| Commands.Interpret | src/bot.js:186-195 | no `match` throws; a case-insensitive "leave"/"join" goes to the actuator with its original case; anything else is confusing |
| Commands.HandleDM | src/bot.js:185-196 | exactly one effect: the actuator's membership call iff the word is in the vocabulary, else the confused reply |
| Commands.ShoutedLeaveJoins | src/bot.js:175-191 | a directed "LEAVE" reaches the actuator and results in a JOIN |
| Commands.MockRoomName | src/__tests__/bot.test.js:137 | "<word> mock-room now" has room name "mock-room" |
| Commands.ActuatorExamples | src/__tests__/bot.test.js:133-161 | "join mock-room now" and "leave mock-room now" call join / leave with name "mock-room" |
| Chatter.ShouldUseReaction | src/bot.js:207-209 | reacts exactly on draws in [0, 0.6) and replies on draws in [0.6, 1) |
| Chatter.HandleNewRoom | src/bot.js:203-205 | exactly one reply, the entry greeting, to the message |
| Chatter.HandleChatter | src/bot.js:216-217 | exactly one user lookup, with the whole message as the query |
| Chatter.IsTired | src/bot.js:261-263 | the rate-limit hook is never tired |
| Chatter.GenerateGoHome | src/bot.js:269-277 | the text is one of the four fixed options and is non-empty |
| Chatter.GoHomeQuarters | src/bot.js:276 | option i is chosen exactly for draws in [i/4, (i+1)/4) |
| Chatter.OnUserInfo | src/bot.js:216-233 | a missing user throws; nothing in hours; otherwise exactly one nudge, the go_home reaction on the message iff the draw is below 0.6, else a reply with the go-home text the second draw selects |
| Controllers.InitialStore | src/bot.js:50-64 | the store is the custom-integration one iff TOKEN is set and non-empty, else the app one |
| Controllers.NewController | src/bot.js:95-119 | custom integration iff TOKEN or SLACK_TOKEN is set; else an app iff CLIENT_ID, CLIENT_SECRET and PORT are all set; else exit 1 |
| Controllers.TokenPreferred | src/bot.js:102-104 | TOKEN is used over SLACK_TOKEN when both are set |
| Controllers.SlackTokenUsesAppStore | src/bot.js:50-104 | with only SLACK_TOKEN, the bot is a custom integration but stores in the app's directory |
| Controllers.NoCredentialsExit | src/bot.js:106-118 | with no token and an incomplete app triple the result is exit status 1 |
| Router.BatchRoutes | src/bot.js:146-158 | one registration binds each event to exactly its documented handler once, and nothing else |
| Router.AllBatchesRoute | src/bot.js:124-158 | after n registrations every event's handler is bound n times |
| Router.DeliverOnce | src/bot.js:146-205 | on one controller, a message event runs exactly one handler: greeting, command interpreter for every directed message handed to `handleDM`, or user lookup |
| Supervisor.Connect | src/bot.js:124-126 | connect appends one new controller and its batch of six bindings, keeping earlier ones, or exits with 1 |
| Supervisor.OnOpen | src/bot.js:128-133 | open marks the bot connected and connects again: it keeps running iff a controller can be made, appending that controller and its batch, else exits 1 |
| Supervisor.OnClose | src/bot.js:135-140 | close marks the bot disconnected and connects again: it keeps running iff a controller can be made, appending that controller and its batch, else exits 1 |
| Supervisor.ReplayGrows | src/bot.js:124-158 | over any open/close sequence the bot keeps running, gains one controller and batch per event, keeps old bindings, and its flag reflects the last event |
| Supervisor.ReplayFatal | src/bot.js:115-126 | without credentials the first connectivity event ends the process with status 1 |
| Supervisor.Start | src/__tests__/index.test.js:10-12 | constructing and connecting once runs iff a controller can be made, with one controller and its batch |
| Supervisor.DuplicateBindings | src/bot.js:124-158 | after the initial connect and k open/close events every handler is bound k + 1 times |

## Left out

- Platform calls are effect values. This covers constructing the Botkit controller, `ci.configure` / `app.configure` (lib/ is not part of this model) and every `self.api` call. Their results are not modelled, apart from a callback firing.
- `onInstallation`, `console` logging, dotenv and reading `process.env` are left out: they are I/O with no decision in them. The environment is a parameter, and `process.exit(1)` is the `Exited(1)` outcome.
- The platform library's `hears` pattern matching is library code. `Router.DeliverOnce` treats every directed event as reaching `handleDM`, and the `match` array is an input of the message.
- Asynchrony is out. The user lookup and the membership call are effects, and their callbacks firing are `Chatter.OnUserInfo` and `Commands.MembershipCallback`. The reaction call's own callback is not modelled.
- Lateness.ShiftSeconds is an assumption about the date library, not a proved fact. It encodes the library's rule that an offset argument under 16 in magnitude means hours and any other means minutes. The library's code is not part of this model.
- Lateness.IsLate: timestamps are whole seconds. `Number(message.ts)` is fractional, but the sub-second part cannot change the minute.
- Lateness.IsLate: a timezone offset that is not a whole number of seconds, or that is infinite, is not modelled.
- Lateness.IsLate: a missing or non-numeric message timestamp is not modelled. It gives an invalid date, which reads as late.
- Text.Lower folds ASCII letters only. The only non-ASCII character whose lower case is ASCII is KELVIN SIGN, which becomes `k`, and `k` is in neither "leave" nor "join". So the vocabulary decision is unaffected.
- A message without `text` is not modelled. It would make `joinLeaveRoom` throw; texts are always strings here.
- Supervisor.ReplayGrows uses one environment for the whole event sequence. `Supervisor.Connect` itself takes whatever environment is read at that moment.
- `isConnected` is written but never read by the bot. It is modelled as an `Option<bool>` that stays unset until the first open or close.
- The date library is modelled only for fixed offsets. It has no time zones and no DST, and only the setters, the addition and the comparison `isLate` uses.
- `Math.random` is a real draw in [0, 1). Multiplying a float by 4 is exact, so the draw's index is the same.
- src/index.js and index.js, the earlier revisions of the bot, are not part of this model, and neither are the test stubs.
