/** The connection supervisor (`connect`, `onRtmOpen`, `onRtmClose`) and the
    bot's state across reconnects. */
module Supervisor {
  import opened Values
  import opened Controllers
  import opened Router

  /** The bot's state: its store, the connection flag (unset until the first
      open or close), the controllers created so far and every binding made. */
  datatype Bot = Bot(store: StoreConfig, isConnected: Option<bool>, controllers: seq<Controller>, bindings: seq<Binding>)

  /** The constructor: only the store is chosen. */
  function NewBot(env: Env): Bot
  {
    Bot(InitialStore(env), None, [], [])
  }

  /** Every controller got exactly one registration batch, in order. */
  predicate WellFormed(bot: Bot)
  {
    bot.bindings == AllBatches(|bot.controllers|)
  }

  /** The process either keeps running or has exited. */
  datatype Run = Running(bot: Bot) | Exited(code: int)

  /** `connect`: create a new controller from the environment read now and
      register all listeners on it; exit if no controller can be made. */
  function Connect(bot: Bot, env: Env): (r: Run)
    ensures NewController(env, bot.store).Fatal? <==> r == Exited(1)
    ensures r.Running? <==> NewController(env, bot.store).Selected?
    ensures r.Running? ==> r.bot.store == bot.store && r.bot.isConnected == bot.isConnected
    ensures r.Running? ==> r.bot.controllers == bot.controllers + [NewController(env, bot.store).controller]
    ensures r.Running? ==> r.bot.bindings == bot.bindings + Batch(|bot.controllers|)
    ensures WellFormed(bot) && r.Running? ==> WellFormed(r.bot)
  {
    match NewController(env, bot.store)
    case Fatal(code) => Exited(code)
    case Selected(c) =>
      Running(bot.(controllers := bot.controllers + [c], bindings := bot.bindings + Batch(|bot.controllers|)))
  }

  /** `onRtmOpen`: mark connected, then connect again. */
  function OnOpen(bot: Bot, env: Env): (r: Run)
    ensures r.Running? <==> NewController(env, bot.store).Selected?
    ensures r.Exited? ==> r.code == 1
    ensures r.Running? ==> r.bot.isConnected == Some(true) && r.bot.store == bot.store
    ensures r.Running? ==> r.bot.controllers == bot.controllers + [NewController(env, bot.store).controller]
    ensures r.Running? ==> r.bot.bindings == bot.bindings + Batch(|bot.controllers|)
  {
    Connect(bot.(isConnected := Some(true)), env)
  }

  /** `onRtmClose`: mark disconnected, then connect again. */
  function OnClose(bot: Bot, env: Env): (r: Run)
    ensures r.Running? <==> NewController(env, bot.store).Selected?
    ensures r.Exited? ==> r.code == 1
    ensures r.Running? ==> r.bot.isConnected == Some(false) && r.bot.store == bot.store
    ensures r.Running? ==> r.bot.controllers == bot.controllers + [NewController(env, bot.store).controller]
    ensures r.Running? ==> r.bot.bindings == bot.bindings + Batch(|bot.controllers|)
  {
    Connect(bot.(isConnected := Some(false)), env)
  }

  /** A connectivity event. */
  datatype Signal = Opened | Closed

  /** Applies a sequence of connectivity events, stopping once the process exits. */
  function Replay(bot: Bot, env: Env, signals: seq<Signal>): Run
    decreases |signals|
  {
    if |signals| == 0 then Running(bot)
    else
      var r := if signals[0] == Opened then OnOpen(bot, env) else OnClose(bot, env);
      match r
      case Exited(code) => Exited(code)
      case Running(next) => Replay(next, env, signals[1..])
  }

  /** With a usable environment the supervisor never stops: each event adds one
      controller and one full batch of bindings, earlier bindings are kept, and
      the flag reflects the last event. */
  lemma {:induction false} ReplayGrows(bot: Bot, env: Env, signals: seq<Signal>)
    requires WellFormed(bot) && NewController(env, bot.store).Selected?
    ensures Replay(bot, env, signals).Running?
    ensures WellFormed(Replay(bot, env, signals).bot)
    ensures Replay(bot, env, signals).bot.store == bot.store
    ensures |Replay(bot, env, signals).bot.controllers| == |bot.controllers| + |signals|
    ensures bot.bindings <= Replay(bot, env, signals).bot.bindings
    ensures |signals| > 0 ==> Replay(bot, env, signals).bot.isConnected == Some(signals[|signals| - 1] == Opened)
    decreases |signals|
  {
    if |signals| > 0 {
      var next := (if signals[0] == Opened then OnOpen(bot, env) else OnClose(bot, env)).bot;
      ReplayGrows(next, env, signals[1..]);
      if |signals| > 1 {
        assert signals[1..][|signals[1..]| - 1] == signals[|signals| - 1];
      }
    }
  }

  /** Without credentials the first connectivity event ends the process with status 1. */
  lemma ReplayFatal(bot: Bot, env: Env, signals: seq<Signal>)
    requires NewController(env, bot.store).Fatal? && |signals| > 0
    ensures Replay(bot, env, signals) == Exited(1)
  {
  }

  /** The entry point: construct the bot and connect once. */
  function Start(env: Env): (r: Run)
    ensures NewController(env, InitialStore(env)).Selected? <==> r.Running?
    ensures r.Running? ==> WellFormed(r.bot) && |r.bot.controllers| == 1
    ensures r.Running? ==> r.bot == Bot(InitialStore(env), None, [NewController(env, InitialStore(env)).controller], Batch(0))
  {
    Connect(NewBot(env), env)
  }

  /** Reconnecting is not idempotent: after the initial connect and k
      connectivity events every platform event has its handler bound k + 1
      times. */
  lemma DuplicateBindings(env: Env, signals: seq<Signal>, name: string)
    requires NewController(env, InitialStore(env)).Selected?
    ensures Replay(Start(env).bot, env, signals).Running?
    ensures HandlersFor(Replay(Start(env).bot, env, signals).bot.bindings, name) == Repeat(Route(name), |signals| + 1)
  {
    ReplayGrows(Start(env).bot, env, signals);
    AllBatchesRoute(|signals| + 1, name);
  }
}
