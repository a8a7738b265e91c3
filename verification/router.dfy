/** The event router: what `registerListeners` binds, and which handler an
    event reaches. A controller's listener table is modelled as an append-only
    log of bindings, each tagged with the controller it was registered on. */
module Router {
  import opened Values
  import opened BotConfig
  import opened Events
  import Commands
  import Chatter

  /** The bot's handlers, by name. */
  datatype Handler = OnRtmOpen | OnRtmClose | NewRoomHandler | DMHandler | ChatterHandler

  /** `controller.on(event, handler)` or `controller.hears(patterns, events, handler)`. */
  datatype Listener =
    | On(event: string, handler: Handler)
    | Hears(patterns: seq<string>, events: seq<string>, handler: Handler)
  {
    predicate Covers(name: string)
    {
      match this
      case On(event, _) => event == name
      case Hears(_, events, _) => name in events
    }
  }

  datatype Binding = Binding(controller: nat, listener: Listener)

  /** The listeners one call of `registerListeners` binds, in order. */
  function RegisterListeners(): seq<Listener>
  {
    [ On(RtmOpen, OnRtmOpen),
      On(RtmClose, OnRtmClose),
      On(ChannelJoin, NewRoomHandler),
      On(GroupJoin, NewRoomHandler),
      Hears(Vocabulary, [DirectMessage, DirectMention, Mention], DMHandler),
      On(Ambient, ChatterHandler) ]
  }

  /** The bindings registering on controller `index` adds. */
  function Batch(index: nat): (batch: seq<Binding>)
    ensures |batch| == |RegisterListeners()|
    ensures forall k :: 0 <= k < |batch| ==> batch[k] == Binding(index, RegisterListeners()[k])
  {
    seq(|RegisterListeners()|, k requires 0 <= k < |RegisterListeners()| => Binding(index, RegisterListeners()[k]))
  }

  /** The documented routing: which handler each platform event goes to. Both
      room-join events go to the greeting, all three directed kinds to the
      command interpreter. */
  function Route(name: string): seq<Handler>
  {
    if name == RtmOpen then [OnRtmOpen]
    else if name == RtmClose then [OnRtmClose]
    else if name == ChannelJoin || name == GroupJoin then [NewRoomHandler]
    else if name == DirectMessage || name == DirectMention || name == Mention then [DMHandler]
    else if name == Ambient then [ChatterHandler]
    else []
  }

  /** The handlers bound to an event, in binding order (duplicates kept). */
  function HandlersFor(bindings: seq<Binding>, name: string): seq<Handler>
  {
    if |bindings| == 0 then []
    else
      (if bindings[0].listener.Covers(name) then [bindings[0].listener.handler] else [])
      + HandlersFor(bindings[1..], name)
  }

  lemma {:induction false} HandlersForAppend(a: seq<Binding>, b: seq<Binding>, name: string)
    ensures HandlersFor(a + b, name) == HandlersFor(a, name) + HandlersFor(b, name)
  {
    if |a| > 0 {
      assert (a + b)[1..] == a[1..] + b;
      HandlersForAppend(a[1..], b, name);
    } else {
      assert a + b == b;
    }
  }

  /** One registration binds every event to exactly its documented handler,
      once; no other event is bound. */
  lemma BatchRoutes(index: nat, name: string)
    ensures HandlersFor(Batch(index), name) == Route(name)
  {
    var l := RegisterListeners();
    var b := Batch(index);
    assert b == [b[0]] + [b[1]] + [b[2]] + [b[3]] + [b[4]] + [b[5]];
    HandlersForAppend([b[0]] + [b[1]] + [b[2]] + [b[3]] + [b[4]], [b[5]], name);
    HandlersForAppend([b[0]] + [b[1]] + [b[2]] + [b[3]], [b[4]], name);
    HandlersForAppend([b[0]] + [b[1]] + [b[2]], [b[3]], name);
    HandlersForAppend([b[0]] + [b[1]], [b[2]], name);
    HandlersForAppend([b[0]], [b[1]], name);
    assert [DirectMessage, DirectMention, Mention] == [DirectMessage] + [DirectMention] + [Mention];
  }

  /** The bindings of controllers 0 .. n-1, one batch each. */
  function AllBatches(n: nat): seq<Binding>
  {
    if n == 0 then [] else AllBatches(n - 1) + Batch(n - 1)
  }

  function Repeat<T>(xs: seq<T>, n: nat): (r: seq<T>)
    ensures |r| == n * |xs|
  {
    if n == 0 then [] else Repeat(xs, n - 1) + xs
  }

  /** After n registrations every event has its handler bound n times. */
  lemma {:induction false} AllBatchesRoute(n: nat, name: string)
    ensures HandlersFor(AllBatches(n), name) == Repeat(Route(name), n)
  {
    if n > 0 {
      AllBatchesRoute(n - 1, name);
      HandlersForAppend(AllBatches(n - 1), Batch(n - 1), name);
      BatchRoutes(n - 1, name);
    }
  }

  /** The bindings made on one controller. */
  function OnController(bindings: seq<Binding>, controller: nat): (r: seq<Binding>)
    ensures forall k :: 0 <= k < |r| ==> r[k].controller == controller
  {
    if |bindings| == 0 then []
    else (if bindings[0].controller == controller then [bindings[0]] else []) + OnController(bindings[1..], controller)
  }

  lemma {:induction false} OnControllerAppend(a: seq<Binding>, b: seq<Binding>, controller: nat)
    ensures OnController(a + b, controller) == OnController(a, controller) + OnController(b, controller)
  {
    if |a| > 0 {
      assert (a + b)[1..] == a[1..] + b;
      OnControllerAppend(a[1..], b, controller);
    } else {
      assert a + b == b;
    }
  }

  lemma {:induction false} OnControllerBatch(index: nat, controller: nat)
    ensures OnController(Batch(index), controller) == if index == controller then Batch(index) else []
  {
    var b := Batch(index);
    assert b == [b[0]] + [b[1]] + [b[2]] + [b[3]] + [b[4]] + [b[5]];
    OnControllerAppend([b[0]] + [b[1]] + [b[2]] + [b[3]] + [b[4]], [b[5]], controller);
    OnControllerAppend([b[0]] + [b[1]] + [b[2]] + [b[3]], [b[4]], controller);
    OnControllerAppend([b[0]] + [b[1]] + [b[2]], [b[3]], controller);
    OnControllerAppend([b[0]] + [b[1]], [b[2]], controller);
    OnControllerAppend([b[0]], [b[1]], controller);
  }

  /** Each controller carries exactly the batch registered on it. */
  lemma {:induction false} OnControllerAll(n: nat, controller: nat)
    ensures OnController(AllBatches(n), controller) == if controller < n then Batch(controller) else []
  {
    if n > 0 {
      OnControllerAll(n - 1, controller);
      OnControllerAppend(AllBatches(n - 1), Batch(n - 1), controller);
      OnControllerBatch(n - 1, controller);
    }
  }

  /** Runs a message handler on a message. */
  function Handle(h: Handler, message: Message): Result<seq<Effect>>
    requires h != OnRtmOpen && h != OnRtmClose
  {
    match h
    case NewRoomHandler => Ok(Chatter.HandleNewRoom(message))
    case DMHandler => Commands.HandleDM(message)
    case ChatterHandler => Ok(Chatter.HandleChatter(message))
  }

  predicate IsMessageEvent(name: string)
  {
    name in [ChannelJoin, GroupJoin, DirectMessage, DirectMention, Mention, Ambient]
  }

  /** What a controller does with a message event: every handler bound to it on
      that controller runs, in binding order. The connection handlers are never
      bound to a message event (`BatchRoutes`); they would do nothing here. */
  function Deliver(bindings: seq<Binding>, controller: nat, name: string, message: Message): seq<Result<seq<Effect>>>
    requires IsMessageEvent(name)
  {
    var hs := HandlersFor(OnController(bindings, controller), name);
    seq(|hs|, k requires 0 <= k < |hs| => if hs[k] == OnRtmOpen || hs[k] == OnRtmClose then Ok([]) else Handle(hs[k], message))
  }

  /** On a controller whose registrations are in order, a message event runs
      exactly one handler: the greeting for a room join, the command interpreter
      for a directed message, the lookup for ambient chatter. */
  lemma DeliverOnce(n: nat, controller: nat, name: string, message: Message)
    requires controller < n && IsMessageEvent(name)
    ensures |Deliver(AllBatches(n), controller, name, message)| == 1
    ensures (name == ChannelJoin || name == GroupJoin) ==> Deliver(AllBatches(n), controller, name, message)[0] == Ok([Reply(message, EntryText)])
    ensures (name == DirectMessage || name == DirectMention || name == Mention) ==> Deliver(AllBatches(n), controller, name, message)[0] == Commands.HandleDM(message)
    ensures name == Ambient ==> Deliver(AllBatches(n), controller, name, message)[0] == Ok([LookupUser(message)])
  {
    OnControllerAll(n, controller);
    BatchRoutes(controller, name);
    var hs := HandlersFor(OnController(AllBatches(n), controller), name);
    assert hs == Route(name);
    var h := if name == ChannelJoin || name == GroupJoin then NewRoomHandler
      else if name == Ambient then ChatterHandler
      else DMHandler;
    assert Route(name) == [h];
    assert Deliver(AllBatches(n), controller, name, message) == [Handle(h, message)];
  }
}
