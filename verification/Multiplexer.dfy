/** Many calls over one socket: stream ids, the receiver's routing and time-outs, as a machine whose
    runs are arbitrary interleavings (src/detail/connection_impl.cpp:141-203, 386-430;
    src/detail/stream_pool.hpp and .cpp). Stream ids are those of section 2.3 of CQL Binary
    Protocol v4; the server answers every request it reads once, on the request's stream. */
module Multiplexer {
  import opened Bytes

  const MAX_STREAMS := 1024

  predicate ClientStream(s: int) { 0 <= s < MAX_STREAMS }

  /** A request or its answer, with the call it belongs to; or a frame of the server's own making
      on an id that no client request uses. */
  datatype Packet = Packet(stream: int, call: nat) | Stray(stream: int)

  datatype SendTask = Unsent | Sent | SendFailed

  datatype Phase =
    | Waiting                     // in Pop
    | Popped(answer: Packet)      // Pop succeeded, task.Wait() next
    | TimedOut                    // Pop failed, task.Wait() next
    | Marked                      // MarkBroken() done, the exception not yet out of the call
    | Returned(answer: Packet)    // the guard has released the stream id
    | Failed

  datatype Call = Call(stream: int, send: SendTask, phase: Phase)

  datatype State = State(
    free: multiset<int>,          // StreamPool::_queue
    calls: map<nat, Call>,
    outbound: seq<Packet>,        // client to server, in TCP order
    server: multiset<Packet>,     // read by the server, not answered yet
    inbound: seq<Packet>,         // server to client, in TCP order
    queues: map<int, seq<Packet>>,  // one per stream id, capacity 1
    broken: bool,
    receiving: bool,              // ReceiverLoop is running
    lost: multiset<Packet>,       // dropped by the receiver on its way out
    delivered: multiset<Packet>)  // popped by some call

  datatype Step =
    | Acquire(call: nat, stream: int)
    | Send(call: nat)
    | SendFails(call: nat)
    | ServerReads
    | ServerAnswers(packet: Packet)
    | ServerStray(stream: int)
    | Receive
    | PushTimesOut
    | ReadFails
    | ReceiverCancelled
    | Pop(call: nat)
    | PopTimesOut(call: nat)
    | MarkBroken(call: nat)
    | Release(call: nat)

  predicate Active(st: State, r: nat) {
    r in st.calls && !st.calls[r].phase.Returned? && !st.calls[r].phase.Failed?
  }

  predicate InPhase(st: State, r: nat, p: Phase) { r in st.calls && st.calls[r].phase == p }

  /** The receiver has a frame for a client stream in hand. */
  predicate Routable(st: State) {
    st.receiving && st.inbound != [] && ClientStream(st.inbound[0].stream)
  }

  predicate QueueFree(st: State, s: int) { s in st.queues && st.queues[s] == [] }

  predicate Enabled(st: State, step: Step) {
    match step
    case Acquire(r, s) => r !in st.calls && s in st.free
    case Send(r) => Active(st, r) && st.calls[r].send.Unsent?
    case SendFails(r) => Active(st, r) && st.calls[r].send.Unsent?
    case ServerReads => st.outbound != []
    case ServerAnswers(p) => p in st.server
    case ServerStray(s) => !ClientStream(s)
    case Receive => st.receiving && st.inbound != [] && (Routable(st) ==> QueueFree(st, st.inbound[0].stream))
    case PushTimesOut => Routable(st) && !QueueFree(st, st.inbound[0].stream)
    case ReadFails => st.receiving
    case ReceiverCancelled => st.receiving
    case Pop(r) => InPhase(st, r, Waiting) && st.calls[r].stream in st.queues && st.queues[st.calls[r].stream] != []
    case PopTimesOut(r) => InPhase(st, r, Waiting)
    case MarkBroken(r) => InPhase(st, r, TimedOut) && !st.calls[r].send.Unsent?
    case Release(r) =>
      r in st.calls && (st.calls[r].phase.Marked? || (st.calls[r].phase.Popped? && !st.calls[r].send.Unsent?))
  }

  function WithCall(st: State, r: nat, c: Call): State { st.(calls := st.calls[r := c]) }

  function WithPhase(st: State, r: nat, p: Phase): State
    requires r in st.calls
  {
    WithCall(st, r, st.calls[r].(phase := p))
  }

  /** One turn of `ReceiverLoop` after `ReadFrame`: skip a negative id, stop at an id out of range,
      otherwise push to that id's queue. */
  function Route(st: State): (t: State)
    requires st.inbound != []
    ensures t == st.(inbound := st.inbound[1..], queues := t.queues, receiving := t.receiving)
  {
    var p, rest := st.inbound[0], st.inbound[1..];
    if p.stream < 0 then st.(inbound := rest)
    else if p.stream >= MAX_STREAMS then st.(inbound := rest, receiving := false)
    else
      var q := if p.stream in st.queues then st.queues[p.stream] else [];
      st.(inbound := rest, queues := st.queues[p.stream := q + [p]])
  }

  predicate ByServer(step: Step) { step.ServerReads? || step.ServerAnswers? || step.ServerStray? }
  predicate ByReceiver(step: Step) { step.Receive? || step.PushTimesOut? || step.ReadFails? || step.ReceiverCancelled? }

  function ApplyServer(st: State, step: Step): (t: State)
    requires ByServer(step) && Enabled(st, step)
    ensures t == st.(outbound := t.outbound, server := t.server, inbound := t.inbound)
  {
    match step
    case ServerReads => st.(outbound := st.outbound[1..], server := st.server + multiset{st.outbound[0]})
    case ServerAnswers(p) => st.(server := st.server - multiset{p}, inbound := st.inbound + [p])
    case ServerStray(s) => st.(inbound := st.inbound + [Stray(s)])
  }

  function ApplyReceiver(st: State, step: Step): (t: State)
    requires ByReceiver(step) && Enabled(st, step)
    ensures t == st.(inbound := t.inbound, queues := t.queues, receiving := t.receiving, broken := t.broken, lost := t.lost)
    ensures st.broken ==> t.broken
  {
    match step
    case Receive => Route(st)
    case PushTimesOut =>
      st.(receiving := false, inbound := st.inbound[1..], lost := st.lost + multiset{st.inbound[0]})
    case ReadFails => st.(broken := true, receiving := false)
    case ReceiverCancelled => st.(receiving := false)
  }

  function ApplyCall(st: State, step: Step): (t: State)
    requires !ByServer(step) && !ByReceiver(step) && Enabled(st, step)
    ensures t == st.(free := t.free, calls := t.calls, outbound := t.outbound, queues := t.queues, broken := t.broken, delivered := t.delivered)
    ensures st.broken ==> t.broken
    ensures t.calls.Keys == st.calls.Keys + {step.call}
    ensures forall r :: r in st.calls && r != step.call ==> t.calls[r] == st.calls[r]
  {
    match step
    case Acquire(r, s) => WithCall(st, r, Call(s, Unsent, Waiting)).(free := st.free - multiset{s})
    case Send(r) =>
      WithCall(st, r, st.calls[r].(send := Sent)).(outbound := st.outbound + [Packet(st.calls[r].stream, r)])
    case SendFails(r) => WithCall(st, r, st.calls[r].(send := SendFailed))
    case Pop(r) =>
      var s := st.calls[r].stream;
      var p := st.queues[s][0];
      WithPhase(st, r, Popped(p)).(queues := st.queues[s := st.queues[s][1..]], delivered := st.delivered + multiset{p})
    case PopTimesOut(r) => WithPhase(st, r, TimedOut)
    case MarkBroken(r) => WithPhase(st, r, Marked).(broken := true)
    case Release(r) =>
      var c := st.calls[r];
      WithPhase(st, r, if c.phase.Marked? then Failed else Returned(c.phase.answer))
        .(free := st.free + multiset{c.stream})
  }

  /** A step that is not enabled leaves the state as it is, so runs are all sequences of steps. */
  function Apply(st: State, step: Step): State {
    if !Enabled(st, step) then st
    else if ByServer(step) then ApplyServer(st, step)
    else if ByReceiver(step) then ApplyReceiver(st, step)
    else ApplyCall(st, step)
  }

  function Run(st: State, steps: seq<Step>): State
    decreases |steps|
  {
    if steps == [] then st else Apply(Run(st, steps[..|steps| - 1]), steps[|steps| - 1])
  }

  function IdsBelow(n: nat): set<int> { set s: int | 0 <= s < n && ClientStream(s) }

  function ClientIds(): set<int> { IdsBelow(MAX_STREAMS) }

  /** A connection after the handshake: every id free, every queue empty, the receiver started. */
  function Start(): State {
    State(multiset(ClientIds()), map[], [], multiset{}, [], map s | s in ClientIds() :: [],
          false, true, multiset{}, multiset{})
  }

  // ----- where a packet is -----

  function QueueOf(st: State, s: int): seq<Packet> { if s in st.queues then st.queues[s] else [] }

  /** Copies of a packet that may still be delivered. */
  function InFlight(st: State, p: Packet): nat {
    multiset(st.outbound)[p] + st.server[p] + multiset(st.inbound)[p] + multiset(QueueOf(st, p.stream))[p]
  }

  function Gone(st: State, p: Packet): nat { st.lost[p] + st.delivered[p] }

  predicate IsSent(st: State, p: Packet) {
    p.Packet? && p.call in st.calls && st.calls[p.call].stream == p.stream && st.calls[p.call].send.Sent?
  }

  /** Every packet of a sent call is in exactly one place and no other packet is anywhere. */
  ghost predicate Conserved(st: State) {
    forall p: Packet :: p.Packet? ==> InFlight(st, p) + Gone(st, p) == if IsSent(st, p) then 1 else 0
  }

  ghost predicate Clear(st: State, s: int) {
    forall p: Packet :: p.Packet? && p.stream == s ==> InFlight(st, p) == 0
  }

  /** Everything still to be delivered on the call's stream is the call's own. */
  ghost predicate OwnStream(st: State, r: nat)
    requires r in st.calls
  {
    forall p: Packet :: p.Packet? && p.stream == st.calls[r].stream && InFlight(st, p) > 0 ==> p.call == r
  }

  predicate Holds(st: State, r: nat, s: int) { Active(st, r) && st.calls[r].stream == s }

  // ----- the invariant of every run -----

  ghost predicate QueueShape(st: State) {
    && (forall s :: s in st.queues <==> ClientStream(s))
    && (forall s :: s in st.queues ==> |st.queues[s]| <= 1)
    && (forall s, i :: s in st.queues && 0 <= i < |st.queues[s]| ==> st.queues[s][i].Packet? && st.queues[s][i].stream == s)
  }

  predicate OfClient(p: Packet) { p.Packet? && ClientStream(p.stream) }

  ghost predicate WireShape(st: State) {
    && (forall p :: p in st.outbound ==> OfClient(p))
    && (forall p :: p in st.server ==> OfClient(p))
    && (forall p :: p in st.inbound ==> OfClient(p) || (p.Stray? && !ClientStream(p.stream)))
  }

  ghost predicate IdShape(st: State) {
    && (forall r :: r in st.calls ==> ClientStream(st.calls[r].stream))
    && (forall s :: s in st.free ==> ClientStream(s))
  }

  ghost predicate Shape(st: State) { QueueShape(st) && WireShape(st) && IdShape(st) }

  /** Each id is free once or held by exactly one call. */
  ghost predicate IdsBalanced(st: State) {
    && (forall s :: s in st.free ==> st.free[s] == 1)
    && (forall r :: Active(st, r) ==> st.calls[r].stream !in st.free)
    && (forall r, q :: Active(st, r) && Active(st, q) && st.calls[r].stream == st.calls[q].stream ==> r == q)
    && (forall s :: ClientStream(s) && s !in st.free ==> exists r :: Holds(st, r, s))
  }

  /** A call with an answer in hand. */
  predicate HasAnswer(st: State, r: nat) {
    r in st.calls && (st.calls[r].phase.Popped? || st.calls[r].phase.Returned?)
  }

  predicate HasFailed(st: State, r: nat) {
    r in st.calls && (st.calls[r].phase.Marked? || st.calls[r].phase.Failed?)
  }

  /** Every answer was popped from a queue. */
  ghost predicate Answered(st: State) {
    forall r :: HasAnswer(st, r) ==> st.calls[r].phase.answer in st.delivered
  }

  /** The call can only see its own traffic: while it holds its id nothing else is under way there,
      and its answer, once it has one, is its own. */
  ghost predicate Guarded(st: State, r: nat) {
    && r in st.calls
    && (Active(st, r) ==> OwnStream(st, r))
    && (HasAnswer(st, r) ==> st.calls[r].phase.answer == Packet(st.calls[r].stream, r))
  }

  /** While the connection is not broken nothing lingers on a free id, every call is guarded and
      none has failed. */
  ghost predicate Tidy(st: State) {
    !st.broken ==>
      && (forall s :: s in st.free ==> Clear(st, s))
      && (forall r :: r in st.calls ==> Guarded(st, r))
      && (forall r :: !HasFailed(st, r))
  }

  ghost predicate Inv(st: State) {
    Shape(st) && IdsBalanced(st) && Conserved(st) && Answered(st) && Tidy(st)
  }

  // ----- multiset bookkeeping -----

  lemma Front(xs: seq<Packet>)
    requires xs != []
    ensures multiset(xs) == multiset{xs[0]} + multiset(xs[1..])
  {
    assert xs == [xs[0]] + xs[1..];
  }

  lemma Back(xs: seq<Packet>, x: Packet)
    ensures multiset(xs + [x]) == multiset(xs) + multiset{x}
  {
  }

  lemma SameTraffic(st: State, t: State, p: Packet)
    requires t.outbound == st.outbound && t.server == st.server && t.inbound == st.inbound && t.queues == st.queues
    requires t.lost == st.lost && t.delivered == st.delivered
    ensures InFlight(t, p) == InFlight(st, p) && Gone(t, p) == Gone(st, p)
  {
  }

  lemma SendMoves(st: State, r: nat, p: Packet)
    requires Enabled(st, Send(r))
    ensures var t := Apply(st, Send(r));
            InFlight(t, p) == InFlight(st, p) + (if p == Packet(st.calls[r].stream, r) then 1 else 0) && Gone(t, p) == Gone(st, p)
  {
    SendMakes(st, r);
    hide Apply, Enabled;
    Back(st.outbound, Packet(st.calls[r].stream, r));
  }

  lemma SendMakes(st: State, r: nat)
    requires Enabled(st, Send(r))
    ensures Apply(st, Send(r)) == WithCall(st, r, st.calls[r].(send := Sent))
                                    .(outbound := st.outbound + [Packet(st.calls[r].stream, r)])
  {
    hide ApplyServer, ApplyReceiver, Routable, QueueFree;
  }

  lemma ServerMoves(st: State, step: Step, p: Packet)
    requires Enabled(st, step) && (step.ServerReads? || step.ServerAnswers? || step.ServerStray?) && p.Packet?
    ensures var t := Apply(st, step); InFlight(t, p) == InFlight(st, p) && Gone(t, p) == Gone(st, p)
  {
    match step {
      case ServerReads => Front(st.outbound);
      case ServerAnswers(q) => Back(st.inbound, q);
      case ServerStray(s) => Back(st.inbound, Stray(s));
    }
  }

  lemma ReceiveMoves(st: State, p: Packet)
    requires Shape(st) && Enabled(st, Receive) && p.Packet?
    ensures var t := Apply(st, Receive); InFlight(t, p) == InFlight(st, p) && Gone(t, p) == Gone(st, p)
  {
    var x := st.inbound[0];
    assert x in st.inbound;
    if ClientStream(x.stream) {
      RouteMoves(st, p);
    } else {
      assert x.Stray?;
      Front(st.inbound);
      hide Shape;
    }
  }

  lemma RouteMoves(st: State, p: Packet)
    requires Routable(st) && QueueFree(st, st.inbound[0].stream)
    ensures var t := Apply(st, Receive); InFlight(t, p) == InFlight(st, p) && Gone(t, p) == Gone(st, p)
  {
    Routes(st);
    Front(st.inbound);
    hide Apply;
  }

  /** A frame for a client stream whose queue is empty goes into it. */
  lemma Routes(st: State)
    requires Routable(st) && QueueFree(st, st.inbound[0].stream)
    ensures Apply(st, Receive) == st.(inbound := st.inbound[1..], queues := st.queues[st.inbound[0].stream := [st.inbound[0]]])
  {
    assert [] + [st.inbound[0]] == [st.inbound[0]];
  }

  lemma PushTimesOutMoves(st: State, p: Packet)
    requires Enabled(st, PushTimesOut)
    ensures var t := Apply(st, PushTimesOut);
            InFlight(t, p) + Gone(t, p) == InFlight(st, p) + Gone(st, p) && InFlight(t, p) <= InFlight(st, p)
  {
    Front(st.inbound);
  }

  lemma PopMoves(st: State, r: nat, p: Packet)
    requires Shape(st) && Enabled(st, Pop(r))
    ensures var t := Apply(st, Pop(r));
            InFlight(t, p) + Gone(t, p) == InFlight(st, p) + Gone(st, p) && InFlight(t, p) <= InFlight(st, p)
  {
    var s := st.calls[r].stream;
    Front(st.queues[s]);
    assert QueueOf(Apply(st, Pop(r)), s) == QueueOf(st, s)[1..];
  }

  /** What one step does to the packets on their way: `Send` puts the call's own packet on the wire,
      a pop or a failed push takes one out, every other step moves packets or leaves them. */
  lemma StepMoves(st: State, step: Step, p: Packet)
    requires Shape(st) && p.Packet? && Enabled(st, step)
    ensures var t := Apply(st, step);
            if step.Send? then
              && InFlight(t, p) == InFlight(st, p) + (if p == Packet(st.calls[step.call].stream, step.call) then 1 else 0)
              && Gone(t, p) == Gone(st, p)
            else
              && InFlight(t, p) + Gone(t, p) == InFlight(st, p) + Gone(st, p)
              && InFlight(t, p) <= InFlight(st, p)
  {
    hide InFlight, Gone, Apply, Enabled, Shape;
    match step {
      case Send(r) => SendMoves(st, r, p);
      case ServerReads => ServerMoves(st, step, p);
      case ServerAnswers(q) => ServerMoves(st, step, p);
      case ServerStray(s) => ServerMoves(st, step, p);
      case Receive => ReceiveMoves(st, p);
      case PushTimesOut => PushTimesOutMoves(st, p);
      case Pop(r) => PopMoves(st, r, p);
      case _ => OtherMoves(st, step, p);
    }
  }

  lemma OtherMoves(st: State, step: Step, p: Packet)
    requires !ByServer(step) && !step.Send? && !step.Receive? && !step.PushTimesOut? && !step.Pop?
    ensures var t := Apply(st, step); InFlight(t, p) == InFlight(st, p) && Gone(t, p) == Gone(st, p)
  {
    hide InFlight, Gone, Routable, QueueFree;
    SameTraffic(st, Apply(st, step), p);
  }

  // ----- each part of the invariant survives every step -----

  lemma StepQueueShape(st: State, step: Step)
    requires QueueShape(st) && WireShape(st)
    ensures QueueShape(Apply(st, step))
  {
    if step.Pop? {
      PopQueueShape(st, step.call);
    } else if step.Receive? {
      ReceiveQueueShape(st);
    } else {
      StepQueues(st, step);
      hide Apply;
    }
  }

  lemma StepQueues(st: State, step: Step)
    requires !step.Pop? && !step.Receive?
    ensures Apply(st, step).queues == st.queues
  {
    hide Routable, QueueFree, Route;
  }

  lemma PopQueueShape(st: State, r: nat)
    requires QueueShape(st)
    ensures QueueShape(Apply(st, Pop(r)))
  {
  }

  lemma ReceiveQueueShape(st: State)
    requires QueueShape(st) && WireShape(st)
    ensures QueueShape(Apply(st, Receive))
  {
    if Enabled(st, Receive) {
      var x := st.inbound[0];
      if ClientStream(x.stream) {
        assert st.queues[x.stream] + [x] == [x];
      }
    }
  }

  lemma StepWireShape(st: State, step: Step)
    requires WireShape(st) && IdShape(st)
    ensures WireShape(Apply(st, step))
  {
    if step.Send? {
      SendWireShape(st, step.call);
    } else if ByServer(step) {
      ServerWireShape(st, step);
    } else if ByReceiver(step) {
      ReceiverWireShape(st, step);
    } else {
      CallOutbound(st, step);
      hide ApplyCall, ApplyServer, ApplyReceiver, Enabled;
    }
  }

  lemma CallOutbound(st: State, step: Step)
    requires !step.Send? && !ByServer(step) && !ByReceiver(step)
    ensures Apply(st, step).outbound == st.outbound
  {
    hide Routable, QueueFree;
  }

  lemma SendWireShape(st: State, r: nat)
    requires WireShape(st) && IdShape(st)
    ensures WireShape(Apply(st, Send(r)))
  {
  }

  lemma ServerWireShape(st: State, step: Step)
    requires WireShape(st) && ByServer(step)
    ensures WireShape(Apply(st, step))
  {
    hide ApplyReceiver, ApplyCall, Routable, QueueFree;
    if step.ServerReads? && st.outbound != [] {
      assert st.outbound[0] in st.outbound;
    }
  }

  lemma ReceiverWireShape(st: State, step: Step)
    requires WireShape(st) && ByReceiver(step)
    ensures WireShape(Apply(st, step))
  {
  }

  lemma StepIdShape(st: State, step: Step)
    requires IdShape(st)
    ensures IdShape(Apply(st, step))
  {
    if Enabled(st, step) && !ByServer(step) && !ByReceiver(step) {
      CallIdShape(st, step);
    } else {
      hide ApplyServer, ApplyReceiver;
    }
  }

  lemma CallIdShape(st: State, step: Step)
    requires IdShape(st) && Enabled(st, step) && !ByServer(step) && !ByReceiver(step)
    ensures IdShape(ApplyCall(st, step))
  {
    StepStream(st, step, step.call);
    assert step.Release? ==> ClientStream(st.calls[step.call].stream);
  }

  /** A call keeps the stream id it acquired; only `Acquire` makes a call. */
  lemma StepStream(st: State, step: Step, r: nat)
    ensures var t := Apply(st, step);
            && (r in st.calls ==> r in t.calls && t.calls[r].stream == st.calls[r].stream)
            && (r in t.calls && r !in st.calls ==>
                  step == Acquire(r, t.calls[r].stream) && Enabled(st, step) && t.calls[r] == Call(step.stream, Unsent, Waiting))
  {
    hide ApplyServer, ApplyReceiver, ApplyCall;
    if Enabled(st, step) && !ByServer(step) && !ByReceiver(step) && step.call == r {
      CallStream(st, step);
    }
    hide Enabled;
  }

  lemma CallStream(st: State, step: Step)
    requires Enabled(st, step) && !ByServer(step) && !ByReceiver(step)
    ensures var r, t := step.call, ApplyCall(st, step);
            r in t.calls && if r in st.calls then t.calls[r].stream == st.calls[r].stream
                            else step == Acquire(r, t.calls[r].stream) && t.calls[r] == Call(step.stream, Unsent, Waiting)
  {
    hide Routable, QueueFree;
  }

  lemma StepSend(st: State, step: Step, r: nat)
    requires r in st.calls && Enabled(st, step)
    ensures r in Apply(st, step).calls
    ensures Apply(st, step).calls[r].send.Sent? == (st.calls[r].send.Sent? || step == Send(r))
  {
    hide ApplyServer, ApplyReceiver;
    if !ByServer(step) && !ByReceiver(step) {
      CallSend(st, step, r);
    }
  }

  lemma CallSend(st: State, step: Step, r: nat)
    requires r in st.calls && Enabled(st, step) && !ByServer(step) && !ByReceiver(step)
    ensures ApplyCall(st, step).calls[r].send.Sent? == (st.calls[r].send.Sent? || step == Send(r))
  {
    hide Routable, QueueFree;
  }

  lemma StepShape(st: State, step: Step)
    requires Shape(st)
    ensures Shape(Apply(st, step))
  {
    hide Apply, QueueShape, WireShape, IdShape;
    StepQueueShape(st, step);
    StepWireShape(st, step);
    StepIdShape(st, step);
  }

  /** Only `Send` changes which packets have been sent, and only for its own call. */
  lemma StepSent(st: State, step: Step, p: Packet)
    requires Enabled(st, step) && p.Packet?
    ensures IsSent(Apply(st, step), p) == (IsSent(st, p) || (step.Send? && p == Packet(st.calls[step.call].stream, step.call)))
    ensures step.Send? ==> !IsSent(st, Packet(st.calls[step.call].stream, step.call))
  {
    StepStream(st, step, p.call);
    if p.call in st.calls {
      StepSend(st, step, p.call);
    }
    hide Apply;
  }

  lemma StepConserved(st: State, step: Step)
    requires Shape(st) && Conserved(st)
    ensures Conserved(Apply(st, step))
  {
    if Enabled(st, step) {
      forall p: Packet | p.Packet?
        ensures InFlight(Apply(st, step), p) + Gone(Apply(st, step), p) == if IsSent(Apply(st, step), p) then 1 else 0
      {
        hide InFlight, Gone, Apply, IsSent, Shape;
        StepMoves(st, step, p);
        StepSent(st, step, p);
      }
    }
  }

  // ----- stream ids -----

  /** A step changes the free ids only by the id its own call takes or gives back. */
  lemma StepFree(st: State, step: Step)
    requires Enabled(st, step)
    ensures Apply(st, step).free ==
            if step.Acquire? then st.free - multiset{step.stream}
            else if step.Release? then st.free + multiset{st.calls[step.call].stream}
            else st.free
  {
    hide Routable, QueueFree, Route;
  }

  /** A call is active from its `Acquire` to its `Release`. */
  lemma StepActive(st: State, step: Step, r: nat)
    requires Enabled(st, step)
    ensures Active(Apply(st, step), r) ==
            ((Active(st, r) && step != Release(r)) || (step.Acquire? && step.call == r))
  {
    hide ApplyServer, ApplyReceiver;
    if !ByServer(step) && !ByReceiver(step) {
      CallActive(st, step, r);
    }
  }

  lemma CallActive(st: State, step: Step, r: nat)
    requires Enabled(st, step) && !ByServer(step) && !ByReceiver(step)
    ensures Active(ApplyCall(st, step), r) ==
            ((Active(st, r) && step != Release(r)) || (step.Acquire? && step.call == r))
  {
    hide Routable, QueueFree;
  }

  /** What a step does to the ids, without saying how. */
  ghost predicate IdsMove(st: State, step: Step, t: State) {
    && t.free == (if step.Acquire? then st.free - multiset{step.stream}
                  else if step.Release? && step.call in st.calls then st.free + multiset{st.calls[step.call].stream}
                  else st.free)
    && (forall r :: Active(t, r) <==> ((Active(st, r) && step != Release(r)) || (step.Acquire? && step.call == r)))
    && (forall r :: r in st.calls ==> r in t.calls && t.calls[r].stream == st.calls[r].stream)
    && (step.Acquire? ==> step.call in t.calls && t.calls[step.call].stream == step.stream)
  }

  lemma CallKnown(st: State, step: Step)
    requires Enabled(st, step)
    ensures step.Acquire? ==> step.call !in st.calls
    ensures step.Release? ==> step.call in st.calls
  {
    hide Routable, QueueFree;
  }

  lemma StepIdsMove(st: State, step: Step)
    requires Enabled(st, step)
    ensures IdsMove(st, step, Apply(st, step))
  {
    hide Apply, Enabled;
    CallKnown(st, step);
    var t := Apply(st, step);
    StepFree(st, step);
    forall r ensures Active(t, r) <==> ((Active(st, r) && step != Release(r)) || (step.Acquire? && step.call == r)) {
      StepActive(st, step, r);
    }
    forall r | r in st.calls ensures r in t.calls && t.calls[r].stream == st.calls[r].stream {
      StepStream(st, step, r);
    }
    if step.Acquire? {
      assert Active(t, step.call);
      StepStream(st, step, step.call);
    }
  }

  lemma StepIdsBalanced(st: State, step: Step)
    requires IdsBalanced(st)
    ensures IdsBalanced(Apply(st, step))
  {
    if Enabled(st, step) {
      var t := Apply(st, step);
      StepIdsMove(st, step);
      if step.Acquire? {
        hide Apply;
        AcquireBalanced(st, step.call, step.stream, t);
      } else if step.Release? {
        hide Apply;
        ReleaseBalanced(st, step.call, t);
      } else {
        hide Apply;
        SameBalanced(st, step, t);
      }
    }
  }

  lemma AcquireBalanced(st: State, r: nat, s: int, t: State)
    requires IdsBalanced(st) && Enabled(st, Acquire(r, s)) && IdsMove(st, Acquire(r, s), t)
    ensures IdsBalanced(t)
  {
    forall s' | ClientStream(s') && s' !in t.free ensures exists q :: Holds(t, q, s') {
      if s' == s {
        assert Holds(t, r, s);
      } else {
        var q :| Holds(st, q, s');
        assert Holds(t, q, s');
      }
    }
  }

  lemma ReleaseBalanced(st: State, r: nat, t: State)
    requires IdsBalanced(st) && Enabled(st, Release(r)) && IdsMove(st, Release(r), t)
    ensures IdsBalanced(t)
  {
    assert Active(st, r);
    forall s' | ClientStream(s') && s' !in t.free ensures exists q :: Holds(t, q, s') {
      var q :| Holds(st, q, s');
      assert Holds(t, q, s');
    }
  }

  lemma SameBalanced(st: State, step: Step, t: State)
    requires IdsBalanced(st) && IdsMove(st, step, t) && !step.Acquire? && !step.Release?
    ensures IdsBalanced(t)
  {
    forall s' | ClientStream(s') && s' !in t.free ensures exists q :: Holds(t, q, s') {
      var q :| Holds(st, q, s');
      assert Holds(t, q, s');
    }
  }

  // ----- answers -----

  /** What a step does to one call's answer. */
  ghost predicate PhaseMove(st: State, step: Step, t: State, r: nat) {
    && (HasAnswer(t, r) ==>
          (HasAnswer(st, r) && t.calls[r].phase == st.calls[r].phase)
          || (step == Pop(r) && Enabled(st, step) && t.calls[r].phase == Popped(st.queues[st.calls[r].stream][0])
              && st.queues[st.calls[r].stream][0] in t.delivered)
          || (step == Release(r) && Enabled(st, step) && st.calls[r].phase.Popped? && t.calls[r].phase.Returned?
              && t.calls[r].phase.answer == st.calls[r].phase.answer))
    && (HasFailed(t, r) ==> HasFailed(st, r) || step == MarkBroken(r))
    && (step == MarkBroken(r) && Enabled(st, step) ==> t.broken)
  }

  lemma StepPhase(st: State, step: Step, r: nat)
    requires Enabled(st, step)
    ensures PhaseMove(st, step, Apply(st, step), r)
  {
    if ByServer(step) || ByReceiver(step) {
      SameCall(st, step, Apply(st, step), r);
    } else {
      CallPhase(st, step, r);
    }
  }

  lemma SameCall(st: State, step: Step, t: State, r: nat)
    requires ByServer(step) || ByReceiver(step) || step.call != r
    requires if r in st.calls then r in t.calls && t.calls[r] == st.calls[r] else r !in t.calls
    ensures PhaseMove(st, step, t, r)
  {
    hide Enabled;
  }

  lemma CallPhase(st: State, step: Step, r: nat)
    requires Enabled(st, step) && !ByServer(step) && !ByReceiver(step)
    ensures PhaseMove(st, step, ApplyCall(st, step), r)
  {
    if step == Pop(r) {
      PopPhase(st, r);
    } else if step.call == r {
      OwnPhase(st, step);
    } else {
      hide ApplyCall, Enabled, PhaseMove;
      SameCall(st, step, ApplyCall(st, step), r);
    }
  }

  lemma OwnPhase(st: State, step: Step)
    requires Enabled(st, step) && !ByServer(step) && !ByReceiver(step) && !step.Pop?
    ensures PhaseMove(st, step, ApplyCall(st, step), step.call)
  {
    var r, t := step.call, ApplyCall(st, step);
    assert t.calls[r].phase == (match step
      case Acquire(_, _) => Waiting
      case PopTimesOut(_) => TimedOut
      case MarkBroken(_) => Marked
      case Release(_) => if st.calls[r].phase.Marked? then Failed else Returned(st.calls[r].phase.answer)
      case _ => st.calls[r].phase) by {
      hide Routable, QueueFree;
    }
    assert step.MarkBroken? ==> t.broken;
    assert step.Release? ==> st.calls[r].phase.Marked? || st.calls[r].phase.Popped?;
    assert !step.Acquire? ==> r in st.calls;
    hide Enabled, ApplyCall;
  }

  lemma PopPhase(st: State, r: nat)
    requires Enabled(st, Pop(r))
    ensures PhaseMove(st, Pop(r), ApplyCall(st, Pop(r)), r)
  {
  }

  /** Nothing popped is forgotten and `broken` is never taken back. */
  lemma StepMonotone(st: State, step: Step, p: Packet)
    ensures st.delivered[p] <= Apply(st, step).delivered[p]
    ensures st.broken ==> Apply(st, step).broken
  {
    hide Routable, QueueFree, Route, ApplyServer;
  }

  lemma StepAnswered(st: State, step: Step)
    requires Answered(st)
    ensures Answered(Apply(st, step))
  {
    if Enabled(st, step) {
      var t := Apply(st, step);
      forall r | HasAnswer(t, r) ensures t.calls[r].phase.answer in t.delivered {
        StepPhase(st, step, r);
        if HasAnswer(st, r) {
          StepMonotone(st, step, st.calls[r].phase.answer);
        }
        hide Apply, Enabled;
      }
    }
  }

  /** A guarded call stays guarded whatever the other calls, the server and the receiver do. */
  lemma StepGuarded(st: State, step: Step, r: nat)
    requires Shape(st) && IdsBalanced(st) && Guarded(st, r) && Enabled(st, step)
    ensures Guarded(Apply(st, step), r)
  {
    var t := Apply(st, step);
    StepStream(st, step, r);
    StepActive(st, step, r);
    StepPhase(st, step, r);
    if Active(t, r) {
      forall p: Packet | p.Packet? && p.stream == t.calls[r].stream && InFlight(t, p) > 0 ensures p.call == r {
        StepMoves(st, step, p);
        hide Apply, InFlight, Shape;
      }
    }
    if step == Pop(r) {
      PopsInFlight(st, r);
    }
    hide Apply, Shape, InFlight, Enabled;
  }

  lemma PopsInFlight(st: State, r: nat)
    requires Shape(st) && Enabled(st, Pop(r))
    ensures var p := st.queues[st.calls[r].stream][0];
            p.Packet? && p.stream == st.calls[r].stream && InFlight(st, p) > 0
  {
  }

  /** A call that takes a clear id starts guarded. */
  lemma AcquireGuarded(st: State, r: nat, s: int)
    requires Enabled(st, Acquire(r, s)) && Clear(st, s)
    ensures Guarded(Apply(st, Acquire(r, s)), r)
  {
    var t := Apply(st, Acquire(r, s));
    forall p: Packet | p.Packet? && p.stream == s ensures InFlight(t, p) == 0 {
      SameTraffic(st, t, p);
    }
  }

  /** The id a successful call gives back carries nothing more. */
  lemma ReleaseClear(st: State, r: nat)
    requires Conserved(st) && Answered(st) && Guarded(st, r) && Enabled(st, Release(r)) && st.calls[r].phase.Popped?
    ensures Clear(st, st.calls[r].stream)
  {
    assert HasAnswer(st, r) && Active(st, r);
    var own := Packet(st.calls[r].stream, r);
    assert Gone(st, own) > 0;
    forall p: Packet | p.Packet? && p.stream == own.stream ensures InFlight(st, p) == 0 {
      assert InFlight(st, own) + Gone(st, own) <= 1;
      hide InFlight, Gone;
    }
  }

  /** A free id stays clear: only a call that holds the id sends on it. */
  lemma StepClear(st: State, step: Step, s: int)
    requires Shape(st) && IdsBalanced(st) && Enabled(st, step) && Clear(st, s) && (step.Send? ==> s in st.free)
    ensures Clear(Apply(st, step), s)
  {
    forall p: Packet | p.Packet? && p.stream == s ensures InFlight(Apply(st, step), p) == 0 {
      StepMoves(st, step, p);
      hide Apply, InFlight, Shape;
    }
  }

  lemma StepTidy(st: State, step: Step)
    requires Inv(st) && Enabled(st, step)
    ensures Tidy(Apply(st, step))
  {
    var t := Apply(st, step);
    if !t.broken {
      StepMonotone(st, step, Stray(0));
      StepFree(st, step);
      forall s | s in t.free ensures Clear(t, s) {
        FreeClear(st, step, s);
      }
      forall r | r in t.calls ensures Guarded(t, r) {
        StepStream(st, step, r);
        if r in st.calls {
          StepGuarded(st, step, r);
        } else {
          AcquireGuarded(st, r, step.stream);
        }
      }
      forall r ensures !HasFailed(t, r) {
        StepPhase(st, step, r);
      }
    }
    hide Apply, Enabled, Shape;
  }

  lemma FreeClear(st: State, step: Step, s: int)
    requires Inv(st) && Enabled(st, step) && !st.broken && s in Apply(st, step).free
    ensures Clear(Apply(st, step), s)
  {
    StepFree(st, step);
    if step.Release? && st.calls[step.call].stream == s {
      var r := step.call;
      assert !HasFailed(st, r);
      assert st.calls[r].phase.Popped?;
      ReleaseClear(st, r);
    }
    hide Apply, Shape, Clear;
    StepClear(st, step, s);
  }

  lemma StepInv(st: State, step: Step)
    requires Inv(st)
    ensures Inv(Apply(st, step))
  {
    hide Shape, Conserved, Answered, IdsBalanced, Tidy;
    StepShape(st, step);
    StepIdsBalanced(st, step);
    StepConserved(st, step);
    StepAnswered(st, step);
    if Enabled(st, step) {
      StepTidy(st, step);
    } else {
      assert Apply(st, step) == st;
    }
  }

  // ----- what holds in every run -----

  lemma {:induction false} RunInv(steps: seq<Step>)
    ensures Inv(Run(Start(), steps))
    decreases |steps|
  {
    if steps == [] {
      StartInv();
    } else {
      var n := |steps| - 1;
      RunInv(steps[..n]);
      StepInv(Run(Start(), steps[..n]), steps[n]);
      hide Inv;
    }
  }

  lemma StartInv()
    ensures Inv(Start())
  {
    hide Start, Shape, IdsBalanced, Conserved, Clear;
    StartShape();
    StartBalanced();
    StartConserved();
    assert Start().calls == map[] by { StartBalanced(); }
    forall s | s in Start().free ensures Clear(Start(), s) {
      StartClear(s);
    }
  }

  lemma StartShape()
    ensures Shape(Start())
  {
    forall s ensures s in ClientIds() <==> ClientStream(s) { }
    hide ClientIds;
  }

  lemma StartBalanced()
    ensures IdsBalanced(Start()) && Start().calls == map[]
  {
    forall s ensures s in ClientIds() <==> ClientStream(s) { }
    hide ClientIds;
  }

  lemma StartConserved()
    ensures Conserved(Start())
  {
    forall p: Packet ensures InFlight(Start(), p) == 0 && Gone(Start(), p) == 0 {
      StartsEmpty(p);
    }
    hide InFlight, Gone;
  }

  lemma StartClear(s: int)
    ensures Clear(Start(), s)
  {
    forall p: Packet ensures InFlight(Start(), p) == 0 {
      StartsEmpty(p);
    }
    hide InFlight;
  }

  lemma StartsEmpty(p: Packet)
    ensures InFlight(Start(), p) == 0 && Gone(Start(), p) == 0
  {
    assert QueueOf(Start(), p.stream) == [];
  }

  lemma {:induction false} RunSplit(st: State, before: seq<Step>, after: seq<Step>)
    ensures Run(st, before + after) == Run(Run(st, before), after)
    decreases |after|
  {
    if after == [] {
      assert before + after == before;
    } else {
      var n := |after| - 1;
      RunSplit(st, before, after[..n]);
      assert (before + after)[..|before + after| - 1] == before + after[..n];
      hide Apply;
    }
  }

  lemma {:induction false} GuardedKept(st: State, r: nat, steps: seq<Step>)
    requires Inv(st) && Guarded(st, r)
    ensures Inv(Run(st, steps)) && Guarded(Run(st, steps), r)
    ensures Run(st, steps).calls[r].stream == st.calls[r].stream
    decreases |steps|
  {
    if steps != [] {
      var n := |steps| - 1;
      var mid := Run(st, steps[..n]);
      GuardedKept(st, r, steps[..n]);
      StepInv(mid, steps[n]);
      StepStream(mid, steps[n], r);
      if Enabled(mid, steps[n]) {
        StepGuarded(mid, steps[n], r);
      } else {
        assert Apply(mid, steps[n]) == mid;
      }
      hide Apply, Inv, Guarded;
    }
  }

  /** Whatever happens before and after, a call that takes a clear id ends with its own answer or
      with an error. */
  lemma ClearAcquireIsSafe(before: seq<Step>, r: nat, s: int, after: seq<Step>)
    requires Enabled(Run(Start(), before), Acquire(r, s)) && Clear(Run(Start(), before), s)
    ensures var t := Run(Start(), before + [Acquire(r, s)] + after);
            && r in t.calls && t.calls[r].stream == s
            && (HasAnswer(t, r) ==> t.calls[r].phase.answer == Packet(s, r))
  {
    hide Inv, Run, Clear, Enabled, Apply;
    var run := before + [Acquire(r, s)];
    RunSnoc(before, Acquire(r, s));
    RunInv(run);
    AcquireGuarded(Run(Start(), before), r, s);
    AcquireMakes(Run(Start(), before), r, s);
    GuardedKept(Run(Start(), run), r, after);
    RunSplit(Start(), run, after);
  }

  lemma RunSnoc(steps: seq<Step>, step: Step)
    ensures Run(Start(), steps + [step]) == Apply(Run(Start(), steps), step)
  {
    assert (steps + [step])[..|steps + [step]| - 1] == steps;
  }

  lemma AcquireMakes(st: State, r: nat, s: int)
    requires Enabled(st, Acquire(r, s))
    ensures var t := Apply(st, Acquire(r, s)); r in t.calls && t.calls[r].stream == s
  {
  }

  /** No request ever sees another request's response: a call that took its stream id while the
      connection was not broken ends with its own answer or with an error, even if other calls time
      out, the connection breaks later and ids are reused. */
  lemma OwnAnswerOrError(before: seq<Step>, r: nat, s: int, after: seq<Step>)
    requires Enabled(Run(Start(), before), Acquire(r, s)) && !Run(Start(), before).broken
    ensures var t := Run(Start(), before + [Acquire(r, s)] + after);
            && r in t.calls && t.calls[r].stream == s
            && (HasAnswer(t, r) ==> t.calls[r].phase.answer == Packet(s, r))
  {
    assert Clear(Run(Start(), before), s) by {
      RunInv(before);
    }
    ClearAcquireIsSafe(before, r, s, after);
  }

  /** While the connection is not broken a stream carries one packet at a time. */
  lemma AloneOnStream(st: State, p: Packet, q: Packet)
    requires Inv(st) && !st.broken && OfClient(p) && InFlight(st, p) > 0
    ensures InFlight(st, p) == 1
    ensures q.Packet? && q.stream == p.stream && q != p ==> InFlight(st, q) == 0
  {
    hide Shape, Answered, InFlight, Gone;
    assert p.stream in st.free ==> Clear(st, p.stream);
    var r :| Holds(st, r, p.stream);
    assert Guarded(st, r);
  }

  lemma QueueFreeForInbound(st: State)
    requires Inv(st) && !st.broken && Routable(st)
    ensures QueueFree(st, st.inbound[0].stream)
  {
    var p := st.inbound[0];
    assert p in st.inbound && OfClient(p) && p.stream in st.queues;
    if st.queues[p.stream] != [] {
      var q := st.queues[p.stream][0];
      assert q in st.queues[p.stream];
      AloneOnStream(st, p, q);
      assert false;
    }
  }

  /** Before the first time-out the receiver never waits in `Push`: the queue a frame goes to is empty. */
  lemma PushNeverBlocks(steps: seq<Step>)
    requires !Run(Start(), steps).broken
    ensures var st := Run(Start(), steps);
            !Enabled(st, PushTimesOut) && (st.receiving && st.inbound != [] ==> Enabled(st, Receive))
  {
    hide Inv, Run, QueueFree;
    RunInv(steps);
    if Routable(Run(Start(), steps)) {
      QueueFreeForInbound(Run(Start(), steps));
    }
  }

  /** In every run a call has given its id back, or marked the connection, only after its own send is over:
      nothing is sent on an id that is somebody else's by then. */
  lemma {:induction false} SendIsOver(steps: seq<Step>, r: nat)
    ensures var st := Run(Start(), steps);
            r in st.calls && (HasFailed(st, r) || st.calls[r].phase.Returned?) ==> !st.calls[r].send.Unsent?
    decreases |steps|
  {
    if steps != [] {
      var n := |steps| - 1;
      SendIsOver(steps[..n], r);
      StepSendIsOver(Run(Start(), steps[..n]), steps[n], r);
      hide Apply, HasFailed;
    }
  }

  lemma StepSendIsOver(st: State, step: Step, r: nat)
    requires r in st.calls && (HasFailed(st, r) || st.calls[r].phase.Returned?) ==> !st.calls[r].send.Unsent?
    ensures var t := Apply(st, step);
            r in t.calls && (HasFailed(t, r) || t.calls[r].phase.Returned?) ==> !t.calls[r].send.Unsent?
  {
    hide Routable, QueueFree, ApplyServer, ApplyReceiver, ApplyCall;
    if Enabled(st, step) && !ByServer(step) && !ByReceiver(step) && step.call == r {
      OwnSendIsOver(st, step);
    }
    hide Enabled;
  }

  lemma OwnSendIsOver(st: State, step: Step)
    requires Enabled(st, step) && !ByServer(step) && !ByReceiver(step)
    requires var r := step.call; r in st.calls && (HasFailed(st, r) || st.calls[r].phase.Returned?) ==> !st.calls[r].send.Unsent?
    ensures var r, t := step.call, ApplyCall(st, step);
            r in t.calls && (HasFailed(t, r) || t.calls[r].phase.Returned?) ==> !t.calls[r].send.Unsent?
  {
    hide Routable, QueueFree;
  }

  /** Conservation, in every reachable state: a call's request exists once from `Send` on (going out,
      at the server, coming back, queued, popped, or dropped by the receiver) and before that nowhere. */
  lemma OnePlaceEach(steps: seq<Step>, r: nat)
    requires r in Run(Start(), steps).calls
    ensures var st := Run(Start(), steps);
            var p := Packet(st.calls[r].stream, r);
            InFlight(st, p) + Gone(st, p) == if st.calls[r].send.Sent? then 1 else 0
    ensures var st := Run(Start(), steps);
            forall s: int :: s != st.calls[r].stream ==> InFlight(st, Packet(s, r)) + Gone(st, Packet(s, r)) == 0
  {
    var st := Run(Start(), steps);
    RunInv(steps);
    hide InFlight, Gone, Run;
  }

  /** In every reachable state each of the 1024 ids is free once or held by one call, never both;
      every per-stream queue holds at most one packet; and while the connection is not broken a free
      id has nothing anywhere. */
  lemma IdsAndQueues(steps: seq<Step>, s: int)
    requires ClientStream(s)
    ensures var st := Run(Start(), steps);
            && (s in st.free <==> !exists r :: Holds(st, r, s))
            && (s in st.free ==> st.free[s] == 1)
            && (forall r, q :: Holds(st, r, s) && Holds(st, q, s) ==> r == q)
            && s in st.queues && |st.queues[s]| <= 1
            && (!st.broken && s in st.free ==> Clear(st, s))
  {
    RunInv(steps);
    hide Run, Clear;
  }

  // ----- how many ids are in use -----

  ghost function ActiveCalls(st: State): set<nat> { set r | r in st.calls && Active(st, r) }

  ghost predicate Counted(st: State) { |st.free| + |ActiveCalls(st)| == MAX_STREAMS }

  lemma StepCounted(st: State, step: Step)
    requires Counted(st)
    ensures Counted(Apply(st, step))
  {
    if Enabled(st, step) {
      StepIdsMove(st, step);
      CallKnown(st, step);
      if step.Acquire? {
        AcquireCounts(st, step, Apply(st, step));
      } else if step.Release? {
        ReleaseCounts(st, step, Apply(st, step));
      } else {
        hide Apply, Enabled;
        assert ActiveCalls(Apply(st, step)) == ActiveCalls(st);
      }
    }
  }

  lemma AcquireCounts(st: State, step: Step, t: State)
    requires Counted(st) && Enabled(st, step) && step.Acquire? && IdsMove(st, step, t)
    ensures Counted(t)
  {
    assert Active(t, step.call);
    assert ActiveCalls(t) == ActiveCalls(st) + {step.call};
  }

  lemma ReleaseCounts(st: State, step: Step, t: State)
    requires Counted(st) && Enabled(st, step) && step.Release? && IdsMove(st, step, t)
    ensures Counted(t)
  {
    assert Active(st, step.call);
    assert ActiveCalls(t) == ActiveCalls(st) - {step.call};
  }

  lemma {:induction false} CountIdsBelow(n: nat)
    requires n <= MAX_STREAMS
    ensures |multiset(IdsBelow(n))| == n
  {
    if n > 0 {
      CountIdsBelow(n - 1);
      assert IdsBelow(n) == IdsBelow(n - 1) + {n - 1};
    }
  }

  /** The ids not in the pool are as many as the calls in progress: `GetUsedStreams` counts calls, and
      a connection is idle exactly when no call is in progress. */
  lemma {:induction false} UsedStreamsAreCalls(steps: seq<Step>)
    ensures var st := Run(Start(), steps); MAX_STREAMS - |st.free| == |ActiveCalls(st)|
    ensures var st := Run(Start(), steps); |st.free| == MAX_STREAMS <==> forall r :: !Active(st, r)
    decreases |steps|
  {
    if steps == [] {
      CountIdsBelow(MAX_STREAMS);
      assert ActiveCalls(Start()) == {};
    } else {
      var n := |steps| - 1;
      UsedStreamsAreCalls(steps[..n]);
      StepCounted(Run(Start(), steps[..n]), steps[n]);
      hide Apply;
    }
    var st := Run(Start(), steps);
    assert (forall r :: !Active(st, r)) <==> ActiveCalls(st) == {} by {
      if ActiveCalls(st) == {} {
        forall r ensures !Active(st, r) {
          assert r !in ActiveCalls(st);
        }
      }
    }
  }

  lemma TakesId(st: State, r: nat, s: int)
    requires r !in st.calls && s in st.free
    ensures Enabled(st, Acquire(r, s))
    ensures Apply(st, Acquire(r, s)) == st.(calls := st.calls[r := Call(s, Unsent, Waiting)], free := st.free - multiset{s})
  {
  }
}
