/** Taking a stream id that an earlier call gave back (src/detail/connection_impl.cpp:175-203, 388-430;
    src/detail/stream_pool.hpp:47-62): exactly when the call that takes it can get another call's answer. */
module Reuse {
  import opened Bytes
  import opened Multiplexer

  // ----- what may still arrive -----

  /** A frame on such an id stops the receiver. */
  predicate Unknown(p: Packet) { p.stream >= MAX_STREAMS }

  predicate AllKnown(ps: seq<Packet>) { forall p :: p in ps ==> !Unknown(p) }

  /** The receiver gets to frame `i` of those that have arrived. */
  predicate Reached(st: State, i: int) {
    st.receiving && 0 <= i < |st.inbound| && AllKnown(st.inbound[..i])
  }

  predicate AtServer(st: State, p: Packet) { p in st.outbound || p in st.server }

  /** The packet is queued, or the receiver runs and can get to it: it has arrived with no unknown id
      ahead of it, or no unknown id has arrived and its answer is still to come. */
  ghost predicate Comes(st: State, p: Packet) {
    || p in QueueOf(st, p.stream)
    || (exists i :: Reached(st, i) && st.inbound[i] == p)
    || (st.receiving && AllKnown(st.inbound) && AtServer(st, p))
  }

  /** Something on the stream may still come. */
  ghost predicate Threatened(st: State, s: int) {
    exists p: Packet :: p.Packet? && p.stream == s && Comes(st, p)
  }

  /** However the run goes on, the call that takes id `s` now gets its own answer or none. */
  ghost predicate Safe(before: seq<Step>, r: nat, s: int) {
    forall after: seq<Step> :: AnswersOwn(Run(Start(), before + [Acquire(r, s)] + after), r, s)
  }

  predicate AnswersOwn(t: State, r: nat, s: int) {
    HasAnswer(t, r) ==> t.calls[r].phase.answer == Packet(s, r)
  }

  // ----- no step but a Send brings a packet into reach -----

  lemma ServerComes(st: State, step: Step, p: Packet)
    requires ByServer(step) && Enabled(st, step) && p.Packet? && Comes(ApplyServer(st, step), p)
    ensures Comes(st, p)
  {
    var t := ApplyServer(st, step);
    if p !in QueueOf(st, p.stream) {
      if step.ServerReads? {
        assert AtServer(t, p) ==> AtServer(st, p);
      } else {
        var x := t.inbound[|st.inbound|];
        assert t.inbound == st.inbound + [x];
        forall i | Reached(t, i) && t.inbound[i] == p ensures Comes(st, p) {
          assert AllKnown(st.inbound[..i]) by { assert st.inbound[..i] == t.inbound[..i]; }
          if i < |st.inbound| {
            assert Reached(st, i);
          } else {
            assert st.inbound[..i] == st.inbound;
          }
        }
        assert AllKnown(t.inbound) ==> AllKnown(st.inbound);
      }
    }
  }

  lemma ReceiverComes(st: State, step: Step, p: Packet)
    requires ByReceiver(step) && Enabled(st, step) && p.Packet? && Comes(ApplyReceiver(st, step), p)
    ensures Comes(st, p)
  {
    var t := ApplyReceiver(st, step);
    if p !in QueueOf(st, p.stream) && step.Receive? {
      var x := st.inbound[0];
      assert st.inbound == [x] + t.inbound;
      if p in QueueOf(t, p.stream) {
        assert p == x && Reached(st, 0);
      } else {
        assert !Unknown(x);
        forall i | Reached(t, i) && t.inbound[i] == p ensures Comes(st, p) {
          assert st.inbound[..i + 1] == [x] + t.inbound[..i];
          assert Reached(st, i + 1);
        }
        assert AllKnown(t.inbound) ==> AllKnown(st.inbound);
      }
    }
  }

  lemma CallComes(st: State, step: Step, p: Packet)
    requires !ByServer(step) && !ByReceiver(step) && Enabled(st, step) && p.Packet? && Comes(ApplyCall(st, step), p)
    ensures Comes(st, p) || (step.Send? && p == Packet(st.calls[step.call].stream, step.call))
  {
    var t := ApplyCall(st, step);
    assert t.inbound == st.inbound && t.receiving == st.receiving && t.server == st.server;
    forall i | Reached(t, i) ensures Reached(st, i) { }
    assert p in QueueOf(t, p.stream) ==> p in QueueOf(st, p.stream);
    assert p in t.outbound ==> p in st.outbound || (step.Send? && p == Packet(st.calls[step.call].stream, step.call));
    hide ApplyCall, Enabled, QueueOf;
  }

  lemma StepComes(st: State, step: Step, p: Packet)
    requires Enabled(st, step) && p.Packet? && Comes(Apply(st, step), p)
    ensures Comes(st, p) || (step.Send? && p == Packet(st.calls[step.call].stream, step.call))
  {
    hide Comes, ApplyServer, ApplyReceiver, ApplyCall;
    if ByServer(step) {
      ServerComes(st, step, p);
    } else if ByReceiver(step) {
      ReceiverComes(st, step, p);
    } else {
      CallComes(st, step, p);
    }
  }

  // ----- a call whose id is not threatened is safe -----

  /** Only the call's own packet may come on its stream, and its answer, once it has one, is its own. */
  ghost predicate Shielded(st: State, r: nat) {
    && r in st.calls
    && (Active(st, r) ==> forall p: Packet :: p.Packet? && p.stream == st.calls[r].stream && Comes(st, p) ==> p.call == r)
    && (HasAnswer(st, r) ==> st.calls[r].phase.answer == Packet(st.calls[r].stream, r))
  }

  lemma StepShielded(st: State, step: Step, r: nat)
    requires Inv(st) && Shielded(st, r) && Enabled(st, step)
    ensures Shielded(Apply(st, step), r)
  {
    var t := Apply(st, step);
    StepStream(st, step, r);
    StepActive(st, step, r);
    StepPhase(st, step, r);
    if Active(t, r) {
      forall p: Packet | p.Packet? && p.stream == t.calls[r].stream && Comes(t, p) ensures p.call == r {
        StepComes(st, step, p);
        hide Apply, Comes, Shape;
      }
    }
    if step == Pop(r) {
      PopsComing(st, r);
    }
    hide Apply, Inv, Comes, Enabled;
  }

  lemma PopsComing(st: State, r: nat)
    requires Shape(st) && Enabled(st, Pop(r))
    ensures var p := st.queues[st.calls[r].stream][0];
            p.Packet? && p.stream == st.calls[r].stream && Comes(st, p)
  {
  }

  lemma {:induction false} ShieldedKept(st: State, r: nat, steps: seq<Step>)
    requires Inv(st) && Shielded(st, r)
    ensures Inv(Run(st, steps)) && Shielded(Run(st, steps), r)
    ensures Run(st, steps).calls[r].stream == st.calls[r].stream
    decreases |steps|
  {
    if steps != [] {
      var n := |steps| - 1;
      var mid := Run(st, steps[..n]);
      ShieldedKept(st, r, steps[..n]);
      StepInv(mid, steps[n]);
      StepStream(mid, steps[n], r);
      if Enabled(mid, steps[n]) {
        StepShielded(mid, steps[n], r);
      } else {
        assert Apply(mid, steps[n]) == mid;
      }
      hide Apply, Inv, Shielded;
    }
  }

  lemma TakesShielded(st: State, r: nat, s: int)
    requires Enabled(st, Acquire(r, s)) && !Threatened(st, s)
    ensures Shielded(Apply(st, Acquire(r, s)), r)
  {
    var t := Apply(st, Acquire(r, s));
    TakesId(st, r, s);
    forall p: Packet | p.Packet? && p.stream == s ensures !Comes(t, p) {
      if Comes(t, p) {
        StepComes(st, Acquire(r, s), p);
      }
      hide Comes;
    }
  }

  lemma SafeUnlessThreatened(before: seq<Step>, r: nat, s: int)
    requires Enabled(Run(Start(), before), Acquire(r, s)) && !Threatened(Run(Start(), before), s)
    ensures Safe(before, r, s)
  {
    hide Inv, Run, Apply, Enabled, Comes, Threatened;
    var run := before + [Acquire(r, s)];
    RunSnoc(before, Acquire(r, s));
    RunInv(run);
    TakesShielded(Run(Start(), before), r, s);
    AcquireMakes(Run(Start(), before), r, s);
    forall after: seq<Step> ensures AnswersOwn(Run(Start(), run + after), r, s) {
      ShieldedKept(Run(Start(), run), r, after);
      RunSplit(Start(), run, after);
    }
  }

  // ----- a call whose id is threatened can get another call's answer -----

  /** The call has just taken id `s`. */
  ghost predicate Waits(st: State, r: nat, s: int) {
    Inv(st) && r in st.calls && st.calls[r] == Call(s, Unsent, Waiting)
  }

  ghost predicate CanMix(st: State, r: nat, s: int) {
    exists after: seq<Step> :: !AnswersOwn(Run(st, after), r, s)
  }

  lemma CanMixLater(st: State, steps: seq<Step>, r: nat, s: int)
    requires CanMix(Run(st, steps), r, s)
    ensures CanMix(st, r, s)
  {
    var after: seq<Step> :| !AnswersOwn(Run(Run(st, steps), after), r, s);
    RunSplit(st, steps, after);
    hide Run;
  }

  lemma CanMixNext(st: State, step: Step, r: nat, s: int)
    requires CanMix(Apply(st, step), r, s)
    ensures CanMix(st, r, s)
  {
    RunOne(st, step);
    CanMixLater(st, [step], r, s);
  }

  lemma RunOne(st: State, step: Step)
    ensures Run(st, [step]) == Apply(st, step)
  {
    assert [step][..0] == [];
    assert Run(st, [step][..0]) == st;
  }

  lemma Gets(st: State, r: nat)
    requires r in st.calls && st.calls[r].phase.Waiting? && QueueOf(st, st.calls[r].stream) != []
    ensures var t := Apply(st, Pop(r));
            && HasAnswer(t, r) && t.calls[r].stream == st.calls[r].stream
            && t.calls[r].phase.answer == st.queues[st.calls[r].stream][0]
  {
  }

  lemma QueuedMixes(st: State, r: nat, s: int)
    requires Waits(st, r, s) && QueueOf(st, s) != []
    ensures CanMix(st, r, s)
  {
    var p := st.queues[s][0];
    assert !IsSent(st, Packet(s, r));
    assert InFlight(st, Packet(s, r)) == 0;
    assert p != Packet(s, r) by {
      assert p in st.queues[s];
    }
    hide Inv, Apply;
    Gets(st, r);
    RunOne(st, Pop(r));
    assert !AnswersOwn(Run(st, [Pop(r)]), r, s);
  }

  /** A finite set of calls leaves a call number free. */
  lemma {:induction false} Fresh(used: set<nat>) returns (n: nat)
    ensures forall x :: x in used ==> x < n
    decreases |used|
  {
    if used == {} {
      n := 0;
    } else {
      var x :| x in used;
      var m := Fresh(used - {x});
      n := if x < m then m else x + 1;
      assert used == used - {x} + {x};
    }
  }

  /** As far as the waiting call is concerned nothing has changed. */
  ghost predicate Same(st: State, t: State, r: nat, s: int) {
    && t.inbound == st.inbound && t.receiving == st.receiving
    && Waits(t, r, s)
  }

  /** What the steps of another call, which are no receiver steps, leave as it is. */
  lemma OtherCallStep(st: State, step: Step, r: nat, s: int)
    requires Waits(st, r, s) && !ByServer(step) && !ByReceiver(step) && step.call != r
    ensures Same(st, Apply(st, step), r, s)
  {
    StepInv(st, step);
    hide Inv;
  }

  /** A full queue can always be emptied: its id is free, or its holder can pop or give the id back; and
      then a new call can take the id and pop. */
  lemma Emptied(st: State, r: nat, s: int, s': int) returns (steps: seq<Step>)
    requires Waits(st, r, s) && ClientStream(s') && s' != s
    ensures var t := Run(st, steps); Same(st, t, r, s) && QueueFree(t, s')
  {
    hide Run, Apply, Inv, Same, QueueFree;
    if s' in st.free {
      steps := PopsFree(st, r, s, s');
    } else {
      var q := Holder(st, r, s, s');
      if st.calls[q].phase.Waiting? {
        steps := [Pop(q)];
        RunOne(st, Pop(q));
        OtherCallStep(st, Pop(q), r, s);
        PopEmpties(st, q);
      } else {
        var c := HolderLeaves(st, r, s, q);
        SameWaits(st, c, r, s);
        var more := PopsFree(c, r, s, s');
        RunThree(st, SendFails(q), MarkBroken(q), Release(q));
        RunSplit(st, [SendFails(q)] + [MarkBroken(q)] + [Release(q)], more);
        SameTwice(st, c, Run(c, more), r, s);
        steps := [SendFails(q)] + [MarkBroken(q)] + [Release(q)] + more;
      }
    }
  }

  lemma SameTwice(st: State, t: State, u: State, r: nat, s: int)
    requires Same(st, t, r, s) && Same(t, u, r, s)
    ensures Same(st, u, r, s)
  {
    hide Waits;
  }

  lemma SameWaits(st: State, t: State, r: nat, s: int)
    requires Same(st, t, r, s)
    ensures Waits(t, r, s)
  {
    hide Waits;
  }

  lemma WaitsShape(st: State, r: nat, s: int)
    requires Waits(st, r, s)
    ensures Shape(st)
  {
    hide Shape;
  }

  lemma Holder(st: State, r: nat, s: int, s': int) returns (q: nat)
    requires Waits(st, r, s) && ClientStream(s') && s' != s && s' !in st.free
    ensures Holds(st, q, s') && q != r && Shape(st)
  {
    assert IdsBalanced(st);
    q :| Holds(st, q, s');
    hide IdsBalanced;
  }

  lemma HolderLeaves(st: State, r: nat, s: int, q: nat) returns (c: State)
    requires Waits(st, r, s) && Active(st, q) && q != r && !st.calls[q].phase.Waiting?
    ensures c == Apply(Apply(Apply(st, SendFails(q)), MarkBroken(q)), Release(q))
    ensures Same(st, c, r, s) && st.calls[q].stream in c.free
  {
    hide Inv, Apply, Waits;
    var a := Apply(st, SendFails(q));
    var b := Apply(a, MarkBroken(q));
    c := Apply(b, Release(q));
    GivesBack(st, q);
    OtherCallStep(st, SendFails(q), r, s);
    OtherCallStep(a, MarkBroken(q), r, s);
    OtherCallStep(b, Release(q), r, s);
  }

  lemma RunThree(st: State, a: Step, b: Step, c: Step)
    ensures Run(st, [a] + [b] + [c]) == Apply(Apply(Apply(st, a), b), c)
  {
    hide Run, Apply;
    RunOne(st, a);
    RunSplit(st, [a], [b]);
    RunOne(Apply(st, a), b);
    RunSplit(st, [a] + [b], [c]);
    RunOne(Apply(Apply(st, a), b), c);
  }

  /** A holder past waiting gives its id back, one way or the other. */
  lemma GivesBack(st: State, q: nat)
    requires Active(st, q) && !st.calls[q].phase.Waiting?
    ensures var t := Apply(Apply(Apply(st, SendFails(q)), MarkBroken(q)), Release(q));
            st.calls[q].stream in t.free
  {
    var a := Apply(st, SendFails(q));
    assert q in a.calls && !a.calls[q].send.Unsent? && a.calls[q].phase == st.calls[q].phase && a.calls[q].stream == st.calls[q].stream;
    MarksAndReleases(a, q);
  }

  lemma MarksAndReleases(st: State, q: nat)
    requires Active(st, q) && !st.calls[q].phase.Waiting? && !st.calls[q].send.Unsent?
    ensures st.calls[q].stream in Apply(Apply(st, MarkBroken(q)), Release(q)).free
  {
    var b := Apply(st, MarkBroken(q));
    assert q in b.calls && b.calls[q].stream == st.calls[q].stream && !b.calls[q].send.Unsent?;
    assert b.calls[q].phase.Marked? || b.calls[q].phase.Popped?;
  }

  lemma PopEmpties(st: State, q: nat)
    requires Shape(st) && q in st.calls && st.calls[q].phase.Waiting?
    ensures QueueFree(Apply(st, Pop(q)), st.calls[q].stream)
  {
  }

  /** A new call takes a free id and pops what is in its queue. */
  lemma PopsFree(st: State, r: nat, s: int, s': int) returns (steps: seq<Step>)
    requires Waits(st, r, s) && s' in st.free && ClientStream(s') && s' != s
    ensures var t := Run(st, steps); Same(st, t, r, s) && QueueFree(t, s')
  {
    hide Run, Apply, Inv, Enabled, QueueFree;
    var n := Fresh(st.calls.Keys);
    assert n !in st.calls.Keys && n != r;
    var a := Apply(st, Acquire(n, s'));
    TakesId(st, n, s');
    OtherCallStep(st, Acquire(n, s'), r, s);
    OtherCallStep(a, Pop(n), r, s);
    WaitsShape(a, r, s);
    PopEmpties(a, n);
    RunOne(st, Acquire(n, s'));
    RunOne(a, Pop(n));
    RunSplit(st, [Acquire(n, s')], [Pop(n)]);
    steps := [Acquire(n, s')] + [Pop(n)];
  }

  /** The receiver takes the head frame off. */
  lemma HeadTaken(st: State, r: nat, s: int)
    requires Waits(st, r, s) && st.receiving && st.inbound != [] && !Unknown(st.inbound[0])
    requires Routable(st) ==> QueueFree(st, st.inbound[0].stream)
    ensures var t := Apply(st, Receive);
            && Waits(t, r, s) && t.receiving && t.inbound == st.inbound[1..]
            && (Routable(st) ==> QueueOf(t, st.inbound[0].stream) != [])
  {
    StepInv(st, Receive);
    hide Inv;
    if Routable(st) {
      Routes(st);
      hide Apply;
    } else {
      Skipped(st);
      hide Apply;
    }
  }

  lemma Skipped(st: State)
    requires st.receiving && st.inbound != [] && st.inbound[0].stream < 0
    ensures Apply(st, Receive) == st.(inbound := st.inbound[1..])
  {
  }

  lemma {:induction false} ReachedMixes(st: State, r: nat, s: int, i: nat)
    requires Waits(st, r, s) && ClientStream(s) && Reached(st, i) && st.inbound[i].stream == s
    ensures CanMix(st, r, s)
    decreases i
  {
    hide Run, Apply, Inv, Same;
    if QueueOf(st, s) != [] {
      QueuedMixes(st, r, s);
    } else if st.inbound[0].stream == s {
      HeadOnStream(st, r, s);
    } else {
      assert st.inbound[0] in st.inbound[..i];
      var steps := HeadFreed(st, r, s);
      var t := Run(st, steps);
      HeadTaken(t, r, s);
      var u := Apply(t, Receive);
      assert st.inbound[1..][..i - 1] == st.inbound[..i][1..];
      assert Reached(u, i - 1);
      ReachedMixes(u, r, s, i - 1);
      CanMixNext(t, Receive, r, s);
      CanMixLater(st, steps, r, s);
    }
  }

  /** The head frame, which is not the waiting call's, can go to its queue. */
  lemma HeadFreed(st: State, r: nat, s: int) returns (steps: seq<Step>)
    requires Waits(st, r, s) && st.receiving && st.inbound != [] && !Unknown(st.inbound[0]) && st.inbound[0].stream != s
    ensures var t := Run(st, steps);
            && Waits(t, r, s) && t.receiving && t.inbound == st.inbound
            && (Routable(t) ==> QueueFree(t, t.inbound[0].stream))
  {
    hide Inv, Apply, QueueFree;
    if ClientStream(st.inbound[0].stream) {
      hide Run;
      steps := Emptied(st, r, s, st.inbound[0].stream);
    } else {
      steps := [];
    }
  }

  lemma HeadOnStream(st: State, r: nat, s: int)
    requires Waits(st, r, s) && ClientStream(s) && QueueOf(st, s) == [] && Reached(st, 0) && st.inbound[0].stream == s
    ensures CanMix(st, r, s)
  {
    assert s in st.queues;
    hide Inv, Apply;
    HeadTaken(st, r, s);
    QueuedMixes(Apply(st, Receive), r, s);
    CanMixNext(st, Receive, r, s);
  }

  lemma ServerStepWaits(st: State, step: Step, r: nat, s: int)
    requires Waits(st, r, s) && ByServer(step)
    ensures Waits(Apply(st, step), r, s)
  {
    StepInv(st, step);
    hide Inv;
  }

  lemma AtServerMixes(st: State, r: nat, s: int, p: Packet)
    requires Waits(st, r, s) && ClientStream(s) && st.receiving && AllKnown(st.inbound)
    requires p in st.server && p.stream == s
    ensures CanMix(st, r, s)
  {
    hide Inv, Apply, Waits;
    var t := Apply(st, ServerAnswers(p));
    Answers(st, p);
    ServerStepWaits(st, ServerAnswers(p), r, s);
    assert t.inbound[..|st.inbound|] == st.inbound;
    ReachedMixes(t, r, s, |st.inbound|);
    CanMixNext(st, ServerAnswers(p), r, s);
  }

  lemma {:induction false} OutboundMixes(st: State, r: nat, s: int, k: nat)
    requires Waits(st, r, s) && ClientStream(s) && st.receiving && AllKnown(st.inbound)
    requires k < |st.outbound| && st.outbound[k].stream == s
    ensures CanMix(st, r, s)
    decreases k
  {
    hide Inv, Apply, Waits;
    var t := Apply(st, ServerReads);
    Reads(st);
    ServerStepWaits(st, ServerReads, r, s);
    if k == 0 {
      AtServerMixes(t, r, s, st.outbound[0]);
    } else {
      OutboundMixes(t, r, s, k - 1);
    }
    CanMixNext(st, ServerReads, r, s);
  }

  lemma Reads(st: State)
    requires st.outbound != []
    ensures Apply(st, ServerReads) == st.(outbound := st.outbound[1..], server := st.server + multiset{st.outbound[0]})
  {
  }

  lemma Answers(st: State, p: Packet)
    requires p in st.server
    ensures Apply(st, ServerAnswers(p)) == st.(server := st.server - multiset{p}, inbound := st.inbound + [p])
  {
  }

  lemma ThreatMixes(st: State, r: nat, s: int)
    requires Waits(st, r, s) && ClientStream(s) && Threatened(st, s)
    ensures CanMix(st, r, s)
  {
    var p: Packet :| p.Packet? && p.stream == s && Comes(st, p);
    hide Inv;
    if p in QueueOf(st, s) {
      QueuedMixes(st, r, s);
    } else if i :| Reached(st, i) && st.inbound[i] == p {
      ReachedMixes(st, r, s, i);
    } else if p in st.server {
      AtServerMixes(st, r, s, p);
    } else {
      var k :| 0 <= k < |st.outbound| && st.outbound[k] == p;
      OutboundMixes(st, r, s, k);
    }
  }

  lemma TakesWaits(st: State, r: nat, s: int)
    requires Inv(st) && Enabled(st, Acquire(r, s))
    ensures Waits(Apply(st, Acquire(r, s)), r, s) && ClientStream(s)
  {
    assert IdShape(st);
    StepInv(st, Acquire(r, s));
    TakesId(st, r, s);
    hide Apply, Inv;
  }

  lemma TakesThreat(st: State, r: nat, s: int)
    requires Enabled(st, Acquire(r, s)) && Threatened(st, s)
    ensures Threatened(Apply(st, Acquire(r, s)), s)
  {
    TakesId(st, r, s);
    hide Apply, Enabled;
    var p: Packet :| p.Packet? && p.stream == s && Comes(st, p);
    var t := Apply(st, Acquire(r, s));
    assert QueueOf(t, s) == QueueOf(st, s);
    forall i | Reached(st, i) ensures Reached(t, i) { }
    assert Comes(t, p);
  }

  /** The exact condition, in every reachable state: the call that takes id `s` can get another call's
      answer if and only if something on the stream is queued, or the receiver runs and such a packet
      has arrived with no unknown id ahead of it, or no unknown id has arrived and such a packet is on
      its way to the server or at it. */
  lemma ReuseExactly(before: seq<Step>, r: nat, s: int)
    requires Enabled(Run(Start(), before), Acquire(r, s))
    ensures Safe(before, r, s) <==> !Threatened(Run(Start(), before), s)
  {
    hide Inv, Run, Apply, Enabled, Comes, Threatened;
    if Threatened(Run(Start(), before), s) {
      RunInv(before);
      TakesWaits(Run(Start(), before), r, s);
      TakesThreat(Run(Start(), before), r, s);
      RunSnoc(before, Acquire(r, s));
      var run := before + [Acquire(r, s)];
      ThreatMixes(Run(Start(), run), r, s);
      var after: seq<Step> :| !AnswersOwn(Run(Run(Start(), run), after), r, s);
      RunSplit(Start(), run, after);
      assert !AnswersOwn(Run(Start(), run + after), r, s);
    } else {
      SafeUnlessThreatened(before, r, s);
    }
  }

  /** Something left in the queue is enough. */
  lemma UnsafeWhenStale(before: seq<Step>, r: nat, s: int)
    requires Enabled(Run(Start(), before), Acquire(r, s)) && QueueOf(Run(Start(), before), s) != []
    ensures !Safe(before, r, s)
  {
    QueuedThreatens(before, s);
    hide Run, Enabled, QueueOf, Threatened;
    ReuseExactly(before, r, s);
  }

  lemma QueuedThreatens(before: seq<Step>, s: int)
    ensures var st := Run(Start(), before);
            (QueueOf(st, s) != [] ==> Threatened(st, s)) && (!st.receiving && Threatened(st, s) ==> QueueOf(st, s) != [])
  {
    RunInv(before);
    hide Run;
    var st := Run(Start(), before);
    if QueueOf(st, s) != [] {
      assert Comes(st, QueueOf(st, s)[0]);
    }
  }

  /** Once the receiver has stopped, an id is safe to take exactly when its queue is empty. */
  lemma SafeAfterReceiver(before: seq<Step>, r: nat, s: int)
    requires Enabled(Run(Start(), before), Acquire(r, s)) && !Run(Start(), before).receiving
    ensures Safe(before, r, s) <==> QueueOf(Run(Start(), before), s) == []
  {
    QueuedThreatens(before, s);
    hide Run, Enabled, QueueOf, Threatened;
    ReuseExactly(before, r, s);
  }

  /** While the receiver runs and no unknown id has arrived, an id is safe to take exactly when nothing
      is under way on it. */
  lemma SafeWhileReceiving(before: seq<Step>, r: nat, s: int)
    requires Enabled(Run(Start(), before), Acquire(r, s))
    requires Run(Start(), before).receiving && AllKnown(Run(Start(), before).inbound)
    ensures Safe(before, r, s) <==> Clear(Run(Start(), before), s)
  {
    AllComes(Run(Start(), before), s);
    hide Run, Enabled, Clear, Threatened;
    ReuseExactly(before, r, s);
  }

  lemma AllComes(st: State, s: int)
    requires st.receiving && AllKnown(st.inbound)
    ensures Threatened(st, s) <==> !Clear(st, s)
  {
    forall p: Packet ensures Comes(st, p) <==> InFlight(st, p) > 0 {
      if p in st.inbound {
        var i :| 0 <= i < |st.inbound| && st.inbound[i] == p;
        assert Reached(st, i);
      }
    }
    hide Comes, InFlight;
  }

  // ----- the first time-out -----

  lemma Sends(st: State, r: nat)
    requires r in st.calls && st.calls[r].phase.Waiting? && st.calls[r].send.Unsent?
    ensures Apply(st, Send(r)) == st.(calls := st.calls[r := st.calls[r].(send := Sent)],
                                      outbound := st.outbound + [Packet(st.calls[r].stream, r)])
  {
  }

  /** A sent call that times out marks the connection broken and gives its id back. */
  lemma GivesUp(st: State, r: nat)
    requires r in st.calls && st.calls[r].phase.Waiting? && st.calls[r].send.Sent?
    ensures var t := Apply(Apply(Apply(st, PopTimesOut(r)), MarkBroken(r)), Release(r));
            t == st.(calls := st.calls[r := st.calls[r].(phase := Failed)], broken := true,
                     free := st.free + multiset{st.calls[r].stream})
  {
    var a := Apply(st, PopTimesOut(r));
    assert a == WithPhase(st, r, TimedOut);
    var b := Apply(a, MarkBroken(r));
    assert b == WithPhase(a, r, Marked).(broken := true);
  }

  /** The only request on its way is read, answered and routed to its stream's queue. */
  lemma GoesRound(st: State, p: Packet)
    requires st.outbound == [p] && st.server == multiset{} && st.inbound == []
    requires OfClient(p) && QueueFree(st, p.stream) && st.receiving
    ensures var t := Apply(Apply(Apply(st, ServerReads), ServerAnswers(p)), Receive);
            t == st.(outbound := [], queues := st.queues[p.stream := [p]])
  {
    var a := Apply(st, ServerReads);
    assert a == st.(outbound := [], server := multiset{p});
    var b := Apply(a, ServerAnswers(p));
    assert b == st.(outbound := [], inbound := [p]);
  }

  function TimeoutAndReuse(): seq<Step> {
    [Acquire(0, 0), Send(0), PopTimesOut(0), MarkBroken(0), Release(0),
     Acquire(1, 0), ServerReads, ServerAnswers(Packet(0, 0)), Receive, Pop(1)]
  }

  ghost predicate AfterTimeout(st: State) {
    && st.free == Start().free && st.calls == map[0 := Call(0, Sent, Failed)]
    && st.outbound == [Packet(0, 0)] && st.server == multiset{} && st.inbound == []
    && st.queues == Start().queues && st.broken && st.receiving
  }

  lemma FirstTimeout()
    ensures AfterTimeout(Run(Start(), TimeoutAndReuse()[..5]))
  {
    hide Run, Apply, Enabled;
    var steps := TimeoutAndReuse();
    Prefix(steps, 0);
    Prefix(steps, 1);
    Prefix(steps, 2);
    Prefix(steps, 3);
    Prefix(steps, 4);
    assert 0 in ClientIds();
    TakesId(Start(), 0, 0);
    Sends(Run(Start(), steps[..1]), 0);
    GivesUp(Run(Start(), steps[..2]), 0);
    assert Run(Start(), steps[..5]).free == Start().free - multiset{0} + multiset{0};
  }

  lemma NextCall(st: State)
    requires AfterTimeout(st)
    ensures Enabled(st, Acquire(1, 0))
    ensures var a := Apply(st, Acquire(1, 0));
            var b := Apply(Apply(Apply(a, ServerReads), ServerAnswers(Packet(0, 0))), Receive);
            var t := Apply(b, Pop(1));
            HasAnswer(t, 1) && t.calls[1].stream == 0 && t.calls[1].phase.answer == Packet(0, 0)
  {
    assert 0 in ClientIds();
    hide Apply, Enabled;
    TakesId(st, 1, 0);
    GoesRound(Apply(st, Acquire(1, 0)), Packet(0, 0));
    Gets(Apply(Apply(Apply(Apply(st, Acquire(1, 0)), ServerReads), ServerAnswers(Packet(0, 0))), Receive), 1);
  }

  /** The guard `!broken` is needed: call 0 times out, breaks the connection and gives id 0 back, and
      call 1, which takes id 0 afterwards, gets call 0's answer. */
  lemma ReuseAfterTimeoutMixesAnswers()
    ensures var st := Run(Start(), TimeoutAndReuse()[..5]);
            st.broken && Enabled(st, Acquire(1, 0))
    ensures var t := Run(Start(), TimeoutAndReuse());
            HasAnswer(t, 1) && t.calls[1].stream == 0 && t.calls[1].phase.answer == Packet(0, 0)
  {
    hide Run, Apply, Enabled, HasAnswer, Start;
    var steps := TimeoutAndReuse();
    FirstTimeout();
    NextCall(Run(Start(), steps[..5]));
    Prefix(steps, 5);
    Prefix(steps, 6);
    Prefix(steps, 7);
    Prefix(steps, 8);
    Prefix(steps, 9);
    assert steps[..10] == steps;
  }

  lemma Prefix(steps: seq<Step>, k: nat)
    requires k < |steps|
    ensures Run(Start(), steps[..0]) == Start()
    ensures Run(Start(), steps[..k + 1]) == Apply(Run(Start(), steps[..k]), steps[k])
  {
    assert steps[..k + 1][..|steps[..k + 1]| - 1] == steps[..k];
  }

  // ----- a receiver that stops unnoticed -----

  /** Step `k` of the run was enabled when its turn came, and of the given kind. */
  predicate Taken(steps: seq<Step>, kind: (State, Step) -> bool, k: nat) {
    k < |steps| && var st := Run(Start(), steps[..k]); Enabled(st, steps[k]) && kind(st, steps[k])
  }

  ghost predicate Happened(steps: seq<Step>, kind: (State, Step) -> bool) {
    exists k: nat :: Taken(steps, kind, k)
  }

  /** What marks the connection: a failed read, and a call whose pop timed out. */
  predicate Marks(st: State, step: Step) { step.ReadFails? || step.MarkBroken? }

  /** The receiver is cancelled, or finds a frame with an unknown id. */
  predicate EndsQuietly(st: State, step: Step) {
    step.ReceiverCancelled? || (step.Receive? && st.inbound != [] && Unknown(st.inbound[0]))
  }

  predicate Ends(st: State, step: Step) { EndsQuietly(st, step) || step.PushTimesOut? || step.ReadFails? }

  lemma HappenedSnoc(steps: seq<Step>, kind: (State, Step) -> bool)
    requires steps != []
    ensures var n := |steps| - 1;
            Happened(steps, kind) <==> Happened(steps[..n], kind) || Taken(steps, kind, n)
  {
    var n := |steps| - 1;
    forall k: nat | k < n ensures Taken(steps[..n], kind, k) <==> Taken(steps, kind, k) {
      assert steps[..n][..k] == steps[..k];
    }
  }

  lemma HappenedBefore(steps: seq<Step>, kind: (State, Step) -> bool, k: nat)
    requires k <= |steps|
    ensures Happened(steps[..k], kind) ==> Happened(steps, kind)
  {
    if i: nat :| Taken(steps[..k], kind, i) {
      assert steps[..k][..i] == steps[..i];
      assert Taken(steps, kind, i);
    }
  }

  lemma StepMarks(st: State, step: Step)
    ensures Apply(st, step).broken <==> st.broken || (Enabled(st, step) && Marks(st, step))
  {
    hide Enabled, Route;
  }

  lemma StepEnds(st: State, step: Step)
    ensures !Apply(st, step).receiving <==> !st.receiving || (Enabled(st, step) && Ends(st, step))
  {
    hide Routable, QueueFree;
  }

  lemma {:induction false} MarkedExactly(steps: seq<Step>)
    ensures Run(Start(), steps).broken <==> Happened(steps, Marks)
    decreases |steps|
  {
    if steps != [] {
      var n := |steps| - 1;
      MarkedExactly(steps[..n]);
      StepMarks(Run(Start(), steps[..n]), steps[n]);
      HappenedSnoc(steps, Marks);
      hide Apply, Enabled, Happened;
    }
  }

  lemma {:induction false} EndedExactly(steps: seq<Step>)
    ensures !Run(Start(), steps).receiving <==> Happened(steps, Ends)
    decreases |steps|
  {
    if steps != [] {
      var n := |steps| - 1;
      EndedExactly(steps[..n]);
      StepEnds(Run(Start(), steps[..n]), steps[n]);
      HappenedSnoc(steps, Ends);
      hide Apply, Enabled, Happened, Ends;
    }
  }

  /** In every run, the receiver has stopped and the connection is not marked broken if and only if the
      receiver was cancelled or found an unknown id, no read failed and no call marked the connection. */
  lemma StopsUnnoticedExactly(steps: seq<Step>)
    ensures var st := Run(Start(), steps);
            !st.receiving && !st.broken <==> Happened(steps, EndsQuietly) && !Happened(steps, Marks)
  {
    MarkedExactly(steps);
    EndedExactly(steps);
    hide Run, Enabled;
    if Happened(steps, Ends) && !Happened(steps, Marks) {
      var k: nat :| Taken(steps, Ends, k);
      EndsUnmarked(steps, k);
    }
    if Happened(steps, EndsQuietly) {
      var k: nat :| Taken(steps, EndsQuietly, k);
      assert Taken(steps, Ends, k);
    }
  }

  /** No push times out before the connection is marked. */
  lemma EndsUnmarked(steps: seq<Step>, k: nat)
    requires Taken(steps, Ends, k) && !Happened(steps, Marks)
    ensures Taken(steps, EndsQuietly, k)
  {
    HappenedBefore(steps, Marks, k);
    MarkedExactly(steps[..k]);
    PushNeverBlocks(steps[..k]);
    hide Run, Enabled;
    assert !Taken(steps, Marks, k);
  }

  /** The receiver may stop without the connection being marked broken. */
  lemma ReceiverStopsUnnoticed()
    ensures var st := Run(Start(), [ServerStray(MAX_STREAMS), Receive]); !st.receiving && !st.broken
  {
    hide Run;
    var steps := [ServerStray(MAX_STREAMS), Receive];
    Prefix(steps, 0);
    Prefix(steps, 1);
    assert steps[..2] == steps;
  }
}
