/** The receiver's loop (src/detail/connection_impl.cpp:386-430) as a method over the fields it changes,
    with calls and the server going on between its turns, proved to make the machine's receiver steps. */
module Receiver {
  import opened Bytes
  import opened Multiplexer

  /** A step of a call or of the server. */
  type OtherStep = x: Step | !ByReceiver(x) witness ServerReads

  /** One turn of the loop from outside: what the others do before its read returns, whether the task has
      been cancelled, whether the read fails. */
  datatype Turn = Turn(others: seq<OtherStep>, cancelled: bool, readFails: bool) {
    /** The task goes on and its read brings no exception. */
    predicate Reads() { !cancelled && !readFails }
  }

  /** `Idle`: the loop goes on. */
  datatype Stop = Idle | Cancelled | ReadFailed | UnknownStream | QueueFull

  /** The machine's receiver step of a turn, if the read returns something. */
  function Own(st: State, turn: Turn): seq<Step> {
    if turn.cancelled then [ReceiverCancelled]
    else if turn.readFails then [ReadFails]
    else if st.inbound == [] then []
    else [Routed(st)]
  }

  function Routed(st: State): Step { if Enabled(st, Receive) then Receive else PushTimesOut }

  /** The machine's run that goes with the turns of the loop: the others' steps, then the receiver's. */
  function Turns(st: State, turns: seq<Turn>): seq<Step>
    decreases |turns|
  {
    if turns == [] || !st.receiving then []
    else
      var others: seq<Step> := turns[0].others;
      var own := Own(Run(st, others), turns[0]);
      (others + own) + Turns(Run(st, others + own), turns[1..])
  }

  class ReceivingEnd {
    var inbound: seq<Packet>            // frames that arrived and are not read yet
    var queues: map<int, seq<Packet>>
    var broken: bool
    var receiving: bool
    var lost: seq<Packet>

    /** The fields are those of a machine state. */
    ghost predicate Shows(st: State)
      reads this
    {
      inbound == st.inbound && queues == st.queues && broken == st.broken && receiving == st.receiving
      && multiset(lost) == st.lost
    }

    /** The frame in front is gone: skipped for a negative id, the end of the loop for an id the client
        does not have, else in its queue if that was empty, and only on a broken connection it may not be. */
    ghost predicate Handled(arrived: seq<Packet>, before: map<int, seq<Packet>>, wasBroken: bool, gone: seq<Packet>, stop: Stop)
      requires arrived != []
      reads this
    {
      var p := arrived[0];
      && inbound == arrived[1..]
      && if p.stream < 0 then stop == Idle && queues == before && lost == gone
         else if p.stream >= 1024 then stop == UnknownStream && queues == before && lost == gone
         else
           && p.stream in before
           && if before[p.stream] == [] then stop == Idle && queues == before[p.stream := [p]] && lost == gone
              else stop == QueueFull && wasBroken && queues == before && lost == gone + [p]
    }

    method MarkBroken()
      modifies this`broken
      ensures broken
    {
      broken := true;
    }

    /** Push with a deadline onto a queue of capacity 1 that is not popped before the deadline. */
    method Push(s: int, p: Packet) returns (ok: bool)
      requires s in queues
      modifies this`queues
      ensures ok <==> old(queues)[s] == []
      ensures queues == if ok then old(queues)[s := [p]] else old(queues)
    {
      ok := queues[s] == [];
      if ok {
        queues := queues[s := [p]];
      }
    }

    /** Calls and the server go on while the receiver waits. */
    method Others(run: seq<Step>, others: seq<OtherStep>)
      requires Shows(Run(Start(), run))
      modifies this`inbound, this`queues, this`broken
      ensures Shows(Run(Start(), run + others))
    {
      hide Run, Start;
      OthersKeep(Run(Start(), run), others);
      RunSplit(Start(), run, others);
      var st := Run(Start(), run + others);
      inbound, queues, broken := st.inbound, st.queues, st.broken;
    }

    /** The body of the loop after `run`. */
    method TakeTurn(turn: Turn, ghost run: seq<Step>) returns (stop: Stop)
      requires Shows(Run(Start(), run)) && receiving
      modifies this
      ensures Shows(Run(Start(), run + Own(Run(Start(), run), turn)))
      ensures receiving <==> stop == Idle
      ensures stop == Cancelled <==> turn.cancelled
      ensures stop == ReadFailed <==> !turn.cancelled && turn.readFails
      ensures broken <==> old(broken) || stop == ReadFailed
      ensures stop == QueueFull ==> broken
      ensures !turn.Reads() || old(inbound) == [] ==>
                inbound == old(inbound) && queues == old(queues) && lost == old(lost) && (turn.Reads() ==> stop == Idle)
      ensures turn.Reads() && old(inbound) != [] ==> Handled(old(inbound), old(queues), old(broken), old(lost), stop)
    {
      hide Run, Apply, Inv, Enabled, Routable, QueueFree;
      ghost var st := Run(Start(), run);
      assert run + [] == run;
      if turn.cancelled {
        receiving := false;
        RunSnoc(run, ReceiverCancelled);
        Cancels(st);
        return Cancelled;
      }
      if turn.readFails {
        MarkBroken();
        receiving := false;
        RunSnoc(run, ReadFails);
        Fails(st);
        return ReadFailed;
      }
      if inbound == [] {
        return Idle;
      }
      stop := Deliver(run);
    }

    /** What the turn does with the frame it has read. */
    method Deliver(ghost run: seq<Step>) returns (stop: Stop)
      requires Shows(Run(Start(), run)) && receiving && inbound != []
      modifies this
      ensures Shows(Run(Start(), run + [Routed(Run(Start(), run))]))
      ensures receiving <==> stop == Idle
      ensures broken == old(broken) && Handled(old(inbound), old(queues), old(broken), old(lost), stop)
    {
      RoutedMakes(run);
      hide Run, Start, Routed;
      var frame := inbound[0];
      inbound := inbound[1..];
      if frame.stream < 0 {
        return Idle;
      }
      if frame.stream >= MAX_STREAMS {
        receiving := false;
        return UnknownStream;
      }
      var ok := Push(frame.stream, frame);
      if !ok {
        receiving := false;
        Back(lost, frame);
        lost := lost + [frame];
        return QueueFull;
      }
      stop := Idle;
    }

    /** The loop. Whatever the calls and the server do between its turns, it makes exactly the receiver's
        steps of the machine; the connection is marked broken when a read fails, and a queue is found full
        only when the connection is broken. */
    method ReceiverLoop(turns: seq<Turn>, before: seq<Step>) returns (steps: seq<Step>, stop: Stop, ghost taken: nat)
      requires Shows(Run(Start(), before)) && receiving
      modifies this
      ensures steps == Turns(Run(Start(), before), turns) && Shows(Run(Start(), before + steps))
      ensures receiving <==> stop == Idle
      ensures taken <= |turns| && (receiving ==> taken == |turns|)
      ensures StopsRight(turns[..taken], stop)
      ensures stop == ReadFailed || stop == QueueFull ==> broken
      ensures OnceATurn(steps, turns[..taken])
    {
      hide Run, Apply, Inv, Turns, Own, Enabled;
      assert OnceATurn([], []) && turns[..0] == [] && StopsRight([], Idle);
      steps := [];
      stop := Idle;
      assert before + [] == before && turns[0..] == turns;
      ghost var goal := Turns(Run(Start(), before), turns);
      assert [] + goal == goal;
      var i := 0;
      hide OnceATurn, StopsRight, Handled;
      while i < |turns| && receiving
        invariant 0 <= i <= |turns| && Shows(Run(Start(), before + steps))
        invariant receiving <==> stop == Idle
        invariant goal == steps + Turns(Run(Start(), before + steps), turns[i..])
        invariant StopsRight(turns[..i], stop)
        invariant stop == ReadFailed || stop == QueueFull ==> broken
        invariant OnceATurn(steps, turns[..i])
        decreases |turns| - i
      {
        var others: seq<Step> := turns[i].others;
        TurnsOnce(before, steps, turns, i);
        Others(before + steps, turns[i].others);
        ghost var st := Run(Start(), before + steps + others);
        stop := TakeTurn(turns[i], before + steps + others);
        TurnAdds(st, turns, i, steps);
        StopsNext(turns, i, stop);
        steps := steps + (others + OwnStep(turns[i], before + steps + others));
        i := i + 1;
      }
      taken := i;
      TurnsEnd(Run(Start(), before + steps), turns[i..]);
      assert steps + [] == steps;
    }
  }

  /** What has stopped the loop after these turns: the first turn cancelled or with a failed read is the
      last one taken, and no turn before was either. */
  ghost predicate StopsRight(turns: seq<Turn>, stop: Stop) {
    var n := |turns|;
    && (forall k :: 0 <= k < n - 1 ==> turns[k].Reads())
    && (stop == Idle ==> forall k :: 0 <= k < n ==> turns[k].Reads())
    && (stop == Cancelled <==> n > 0 && turns[n - 1].cancelled)
    && (stop == ReadFailed <==> n > 0 && !turns[n - 1].cancelled && turns[n - 1].readFails)
  }

  lemma StopsNext(turns: seq<Turn>, i: nat, stop: Stop)
    requires i < |turns| && StopsRight(turns[..i], Idle)
    requires stop == Cancelled <==> turns[i].cancelled
    requires stop == ReadFailed <==> !turns[i].cancelled && turns[i].readFails
    ensures StopsRight(turns[..i + 1], stop)
  {
    assert forall k :: 0 <= k < i ==> turns[..i][k] == turns[..i + 1][k];
  }

  /** The same as `Own` after a run. */
  function OwnStep(turn: Turn, run: seq<Step>): seq<Step> { Own(Run(Start(), run), turn) }

  /** The steps of a run that are not the receiver's. */
  function OthersIn(steps: seq<Step>): seq<Step> {
    if steps == [] then []
    else OthersIn(steps[..|steps| - 1]) + (if ByReceiver(steps[|steps| - 1]) then [] else [steps[|steps| - 1]])
  }

  function OthersOf(turns: seq<Turn>): seq<Step> {
    if turns == [] then [] else OthersOf(turns[..|turns| - 1]) + turns[|turns| - 1].others
  }

  /** The others' steps of all turns are there in order, and at most one of the receiver's a turn. */
  predicate OnceATurn(steps: seq<Step>, turns: seq<Turn>) {
    OthersIn(steps) == OthersOf(turns) && |steps| - |OthersIn(steps)| <= |turns|
  }

  lemma {:induction false} OthersOnly(steps: seq<Step>, others: seq<OtherStep>)
    ensures OthersIn(steps + others) == OthersIn(steps) + others
    decreases |others|
  {
    if others == [] {
      assert steps + others == steps;
    } else {
      var n := |others| - 1;
      var all: seq<Step> := steps + others;
      OthersOnly(steps, others[..n]);
      assert all[..|all| - 1] == steps + others[..n] && all[|all| - 1] == others[n];
      assert OthersIn(steps) + others[..n] + [others[n]] == OthersIn(steps) + others;
    }
  }

  /** A turn adds its others' steps and at most one of the receiver's. */
  lemma TurnAdds(st: State, turns: seq<Turn>, i: nat, steps: seq<Step>)
    requires i < |turns| && OnceATurn(steps, turns[..i])
    ensures OnceATurn(steps + (turns[i].others + Own(st, turns[i])), turns[..i + 1])
  {
    OthersOnly(steps, turns[i].others);
    assert turns[..i + 1][..i] == turns[..i];
    OwnIsOne(st, turns[i]);
    hide Own, OthersIn;
    ThenOwn(steps, turns[i].others, Own(st, turns[i]));
  }

  lemma OwnIsOne(st: State, turn: Turn)
    ensures Own(st, turn) == [] || (|Own(st, turn)| == 1 && ByReceiver(Own(st, turn)[0]))
  {
    hide Enabled;
  }

  lemma ThenOwn(steps: seq<Step>, others: seq<Step>, own: seq<Step>)
    requires own == [] || (|own| == 1 && ByReceiver(own[0]))
    ensures OthersIn(steps + (others + own)) == OthersIn(steps + others)
  {
    var more := steps + (others + own);
    if own == [] {
      assert more == steps + others;
    } else {
      assert more[..|more| - 1] == steps + others;
    }
  }

  lemma TurnsEnd(st: State, turns: seq<Turn>)
    requires turns == [] || !st.receiving
    ensures Turns(st, turns) == []
  {
  }

  lemma TurnsOnce(before: seq<Step>, steps: seq<Step>, turns: seq<Turn>, i: nat)
    requires i < |turns| && Run(Start(), before + steps).receiving
    ensures var others: seq<Step> := turns[i].others;
            var more := steps + (others + OwnStep(turns[i], before + steps + others));
            && before + more == before + steps + others + OwnStep(turns[i], before + steps + others)
            && steps + Turns(Run(Start(), before + steps), turns[i..])
               == more + Turns(Run(Start(), before + more), turns[i + 1..])
  {
    hide Run, Own;
    var others: seq<Step> := turns[i].others;
    var st := Run(Start(), before + steps);
    RunSplit(Start(), before + steps, others);
    var own := OwnStep(turns[i], before + steps + others);
    RunSplit(Start(), before + steps, others + own);
    assert before + steps + (others + own) == before + (steps + (others + own));
    assert turns[i..][1..] == turns[i + 1..] && turns[i..][0] == turns[i];
    var rest := Turns(Run(st, others + own), turns[i + 1..]);
    assert steps + ((others + own) + rest) == (steps + (others + own)) + rest;
    assert before + (steps + (others + own)) == before + steps + others + own;
  }

  /** Only the receiver stops the receiver or loses a packet. */
  lemma {:induction false} OthersKeep(st: State, steps: seq<Step>)
    requires forall x :: x in steps ==> !ByReceiver(x)
    ensures Run(st, steps).receiving == st.receiving && Run(st, steps).lost == st.lost
    decreases |steps|
  {
    if steps != [] {
      OthersKeep(st, steps[..|steps| - 1]);
      OtherKeeps(Run(st, steps[..|steps| - 1]), steps[|steps| - 1]);
      hide Apply;
    }
  }

  lemma OtherKeeps(st: State, step: Step)
    requires !ByReceiver(step)
    ensures Apply(st, step).receiving == st.receiving && Apply(st, step).lost == st.lost
  {
    hide Enabled;
  }

  lemma HasQueue(steps: seq<Step>, s: int)
    requires ClientStream(s)
    ensures s in Run(Start(), steps).queues && |Run(Start(), steps).queues[s]| <= 1
  {
    IdsAndQueues(steps, s);
  }

  lemma NeverFullUnlessBroken(steps: seq<Step>)
    requires var st := Run(Start(), steps);
             st.receiving && st.inbound != [] && ClientStream(st.inbound[0].stream)
             && st.inbound[0].stream in st.queues && st.queues[st.inbound[0].stream] != []
    ensures Run(Start(), steps).broken
  {
    hide Run, Start;
    if !Run(Start(), steps).broken {
      PushNeverBlocks(steps);
    }
  }

  lemma Skips(st: State)
    requires st.receiving && st.inbound != [] && st.inbound[0].stream < 0
    ensures Enabled(st, Receive) && Apply(st, Receive) == st.(inbound := st.inbound[1..])
  {
  }

  lemma Stops(st: State)
    requires st.receiving && st.inbound != [] && st.inbound[0].stream >= MAX_STREAMS
    ensures Enabled(st, Receive) && Apply(st, Receive) == st.(inbound := st.inbound[1..], receiving := false)
  {
  }

  lemma Takes(st: State)
    requires st.receiving && st.inbound != [] && ClientStream(st.inbound[0].stream)
    requires st.inbound[0].stream in st.queues && st.queues[st.inbound[0].stream] == []
    ensures Enabled(st, Receive)
    ensures Apply(st, Receive)
         == st.(inbound := st.inbound[1..], queues := st.queues[st.inbound[0].stream := [st.inbound[0]]])
  {
    Routes(st);
  }

  lemma Overflows(st: State)
    requires st.receiving && st.inbound != [] && ClientStream(st.inbound[0].stream)
    requires st.inbound[0].stream in st.queues && st.queues[st.inbound[0].stream] != []
    ensures !Enabled(st, Receive)
    ensures Apply(st, PushTimesOut)
         == st.(inbound := st.inbound[1..], receiving := false, lost := st.lost + multiset{st.inbound[0]})
  {
  }

  /** The machine's step for the frame in front, by its id. */
  lemma RoutedMakes(run: seq<Step>)
    requires var st := Run(Start(), run); st.receiving && st.inbound != []
    ensures var st := Run(Start(), run);
            var t, x, s := Run(Start(), run + [Routed(st)]), st.inbound[0], st.inbound[0].stream;
            if s < 0 then t == st.(inbound := st.inbound[1..])
            else if s >= MAX_STREAMS then t == st.(inbound := st.inbound[1..], receiving := false)
            else
              && s in st.queues
              && if st.queues[s] == [] then t == st.(inbound := st.inbound[1..], queues := st.queues[s := [x]])
                 else st.broken && t == st.(inbound := st.inbound[1..], receiving := false, lost := st.lost + multiset{x})
  {
    hide Run, Start, Apply, Enabled;
    var st := Run(Start(), run);
    RunSnoc(run, Routed(st));
    var s := st.inbound[0].stream;
    if s < 0 {
      Skips(st);
    } else if s >= MAX_STREAMS {
      Stops(st);
    } else {
      HasQueue(run, s);
      if st.queues[s] == [] {
        Takes(st);
      } else {
        NeverFullUnlessBroken(run);
        Overflows(st);
      }
    }
  }

  lemma Fails(st: State)
    requires st.receiving
    ensures Apply(st, ReadFails) == st.(broken := true, receiving := false)
  {
  }

  lemma Cancels(st: State)
    requires st.receiving
    ensures Apply(st, ReceiverCancelled) == st.(receiving := false)
  {
  }
}
