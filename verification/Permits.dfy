/** The permits that bound the number of connections (src/detail/connection_pool.cpp:68-71, 163-212;
    src/detail/connection_impl.cpp:127-173). A semaphore lock is a movable handle: it starts in a
    connect task, moves into the connection and from there into a closing task, whose end gives the
    permit back. */
module Permits {
  import opened Bytes

  type Permit = nat

  /** A variable of type `SemaphoreLock` that exists at the moment. */
  datatype Place = InTask(task: nat) | InConnection(conn: nat) | InClosing(task: nat)

  datatype State = State(
    capacity: nat,                        // connecting_limit, or no limit
    taken: nat,                           // the semaphore's counter
    locks: map<Place, Option<Permit>>,    // None: empty or moved-from
    issued: Permit,                       // permits 0 to issued - 1 have been handed out
    released: multiset<Permit>,
    closed: set<nat>)                     // connections on which Close was called

  datatype Step =
    | StartConnect(task: nat)                // with an empty lock
    | TakePermit(task: nat)                  // at once or after waiting
    | EndConnect(task: nat)                  // the task is over; its lock, if any, goes
    | Build(task: nat, conn: nat)            // ConnectionImpl is constructed from the task's lock
    | Close(conn: nat, closing: nat)
    | Destroy(conn: nat, closing: nat)       // ~ConnectionImpl calls Close
    | EndClosing(closing: nat)

  predicate Enabled(st: State, step: Step) {
    match step
    case StartConnect(j) => InTask(j) !in st.locks
    case TakePermit(j) => InTask(j) in st.locks && st.locks[InTask(j)].None? && st.taken < st.capacity
    case EndConnect(j) => InTask(j) in st.locks
    case Build(j, c) =>
      InTask(j) in st.locks && st.locks[InTask(j)].Some? && InConnection(c) !in st.locks && c !in st.closed
    case Close(c, k) => InConnection(c) in st.locks && InClosing(k) !in st.locks
    case Destroy(c, k) => InConnection(c) in st.locks && InClosing(k) !in st.locks
    case EndClosing(k) => InClosing(k) in st.locks
  }

  /** Move construction: `to` gets the permit and `from` is left empty. */
  function Move(st: State, from: Place, to: Place): State
    requires from in st.locks
  {
    st.(locks := st.locks[from := None][to := st.locks[from]])
  }

  /** The lock's destructor. */
  function End(st: State, a: Place): State
    requires a in st.locks
  {
    var s := st.(locks := st.locks - {a});
    match st.locks[a]
    case None => s
    case Some(p) => s.(taken := if st.taken > 0 then st.taken - 1 else 0, released := st.released + multiset{p})
  }

  function Apply(st: State, step: Step): State {
    if !Enabled(st, step) then st
    else match step
      case StartConnect(j) => st.(locks := st.locks[InTask(j) := None])
      case TakePermit(j) =>
        st.(locks := st.locks[InTask(j) := Some(st.issued)], taken := st.taken + 1, issued := st.issued + 1)
      case EndConnect(j) => End(st, InTask(j))
      case Build(j, c) => Move(st, InTask(j), InConnection(c))
      case Close(c, k) => Move(st, InConnection(c), InClosing(k)).(closed := st.closed + {c})
      case Destroy(c, k) => End(Move(st, InConnection(c), InClosing(k)), InConnection(c)).(closed := st.closed + {c})
      case EndClosing(k) => End(st, InClosing(k))
  }

  function Run(st: State, steps: seq<Step>): State
    decreases |steps|
  {
    if steps == [] then st else Apply(Run(st, steps[..|steps| - 1]), steps[|steps| - 1])
  }

  function Start(capacity: nat): State { State(capacity, 0, map[], 0, multiset{}, {}) }

  type Locks = map<Place, Option<Permit>>

  predicate Holds(locks: Locks, a: Place, p: Permit) { a in locks && locks[a] == Some(p) }

  function Holders(locks: Locks): set<Place> { set a | a in locks && locks[a].Some? }

  // ----- the invariant -----

  /** Every permit handed out is in exactly one lock or was released once. */
  ghost predicate OnePlaceEach(locks: Locks, issued: Permit, released: multiset<Permit>) {
    && (forall a, p: Permit :: Holds(locks, a, p) ==> p < issued && released[p] == 0)
    && (forall a, b, p: Permit :: Holds(locks, a, p) && Holds(locks, b, p) ==> a == b)
    && (forall p: Permit :: released[p] <= if p < issued then 1 else 0)
    && (forall p: Permit :: p < issued && released[p] == 0 ==> exists a :: Holds(locks, a, p))
  }

  ghost predicate Counted(st: State) {
    st.taken == |Holders(st.locks)| && st.taken <= st.capacity && st.taken + |st.released| == st.issued
  }

  /** A connection has its permit until the first `Close`. */
  ghost predicate HeldUntilClosed(st: State) {
    forall c :: InConnection(c) in st.locks ==> (st.locks[InConnection(c)].Some? <==> c !in st.closed)
  }

  ghost predicate Sound(st: State) { OnePlaceEach(st.locks, st.issued, st.released) && Counted(st) }

  ghost predicate Inv(st: State) { Sound(st) && HeldUntilClosed(st) }

  lemma MoveSound(st: State, from: Place, to: Place)
    requires Sound(st) && from in st.locks && to !in st.locks
    ensures Sound(Move(st, from, to))
  {
    MoveCounted(st, from, to);
    var before, after := st.locks, Move(st, from, to).locks;
    hide Counted, Holders;
    forall p: Permit | p < st.issued && st.released[p] == 0 ensures exists a :: Holds(after, a, p) {
      var a :| Holds(before, a, p);
      assert Holds(after, if a == from then to else a, p);
    }
    forall a, p: Permit ensures Holds(after, a, p) <==> Holds(before, if a == to then from else a, p) && a != from { }
    assert after == Move(st, from, to).locks;
    hide Holds;
  }

  lemma MoveCounted(st: State, from: Place, to: Place)
    requires Counted(st) && from in st.locks && to !in st.locks
    ensures Counted(Move(st, from, to))
  {
    var before, after := st.locks, Move(st, from, to).locks;
    if before[from].Some? {
      assert Holders(after) == Holders(before) - {from} + {to};
    } else {
      assert Holders(after) == Holders(before);
    }
  }

  lemma EndSound(st: State, a: Place)
    requires Sound(st) && a in st.locks
    ensures Sound(End(st, a))
  {
    EndCounted(st, a);
    var before, t := st.locks, End(st, a);
    var after := t.locks;
    hide Counted, Holders;
    forall b, p: Permit ensures Holds(after, b, p) <==> Holds(before, b, p) && b != a { }
    if before[a].Some? {
      assert Holds(before, a, before[a].value);
    }
    forall p: Permit | p < t.issued && t.released[p] == 0 ensures exists b :: Holds(after, b, p) {
      var b :| Holds(before, b, p);
      assert Holds(after, b, p);
    }
  }

  lemma EndCounted(st: State, a: Place)
    requires Counted(st) && a in st.locks
    ensures Counted(End(st, a))
  {
    var before, after := st.locks, End(st, a).locks;
    if before[a].Some? {
      assert Holders(before) == Holders(after) + {a};
    } else {
      assert Holders(after) == Holders(before);
    }
  }

  lemma TakeSound(st: State, j: nat)
    requires Sound(st) && Enabled(st, TakePermit(j))
    ensures Sound(Apply(st, TakePermit(j)))
  {
    var before, t, a := st.locks, Apply(st, TakePermit(j)), InTask(j);
    var after := t.locks;
    forall b, p: Permit ensures Holds(after, b, p) <==> Holds(before, b, p) || (b == a && p == st.issued) { }
    assert Holders(after) == Holders(before) + {a};
    forall p: Permit | p < t.issued && t.released[p] == 0 ensures exists b :: Holds(after, b, p) {
      if p == st.issued {
        assert Holds(after, a, p);
      } else {
        var b :| Holds(before, b, p);
        assert Holds(after, b, p);
      }
    }
  }

  lemma StartSound(st: State, j: nat)
    requires Sound(st) && Enabled(st, StartConnect(j))
    ensures Sound(Apply(st, StartConnect(j)))
  {
    var before, after := st.locks, Apply(st, StartConnect(j)).locks;
    assert Holders(after) == Holders(before);
    forall b, p: Permit ensures Holds(after, b, p) <==> Holds(before, b, p) { }
    forall p: Permit | p < st.issued && st.released[p] == 0 ensures exists b :: Holds(after, b, p) {
      var b :| Holds(before, b, p);
      assert Holds(after, b, p);
    }
  }

  lemma StepInv(st: State, step: Step)
    requires Inv(st)
    ensures Inv(Apply(st, step))
  {
    StepHeld(st, step);
    if Enabled(st, step) {
      match step {
        case StartConnect(j) => StartSound(st, j);
        case TakePermit(j) => TakeSound(st, j);
        case EndConnect(j) => EndSound(st, InTask(j));
        case Build(j, c) => MoveSound(st, InTask(j), InConnection(c));
        case Close(c, k) => MoveSound(st, InConnection(c), InClosing(k));
        case Destroy(c, k) =>
          MoveSound(st, InConnection(c), InClosing(k));
          EndSound(Move(st, InConnection(c), InClosing(k)), InConnection(c));
        case EndClosing(k) => EndSound(st, InClosing(k));
      }
    }
    hide OnePlaceEach, HeldUntilClosed, Holders;
  }

  lemma StepHeld(st: State, step: Step)
    requires HeldUntilClosed(st)
    ensures HeldUntilClosed(Apply(st, step))
  {
  }

  lemma {:induction false} RunInv(capacity: nat, steps: seq<Step>)
    ensures Inv(Run(Start(capacity), steps)) && Run(Start(capacity), steps).capacity == capacity
    decreases |steps|
  {
    if steps != [] {
      var n := |steps| - 1;
      RunInv(capacity, steps[..n]);
      StepInv(Run(Start(capacity), steps[..n]), steps[n]);
      hide Inv;
    } else {
      assert Holders(Start(capacity).locks) == {};
    }
  }

  // ----- what holds in every run -----

  function Tasks(st: State): set<Place> { set a | a in Holders(st.locks) && a.InTask? }
  function Open(st: State): set<Place> { set a | a in st.locks && a.InConnection? && a.conn !in st.closed }
  function Closing(st: State): set<Place> { set a | a in Holders(st.locks) && a.InClosing? }

  /** In every run the permits in use are those of connect tasks holding one, of connections not closed
      yet, and of closing tasks of such connections, and never more than the capacity. */
  lemma PermitsConserved(capacity: nat, steps: seq<Step>)
    ensures var st := Run(Start(capacity), steps);
            && st.taken == |Tasks(st)| + |Open(st)| + |Closing(st)| <= capacity
            && st.issued == st.taken + |st.released|
  {
    RunInv(capacity, steps);
    var st := Run(Start(capacity), steps);
    assert Open(st) == set a | a in Holders(st.locks) && a.InConnection?;
    assert Holders(st.locks) == Tasks(st) + Open(st) + Closing(st);
    assert |Holders(st.locks)| == |Tasks(st) + Open(st)| + |Closing(st)|;
  }

  /** In every run no permit is released twice, and one is released unless some lock still holds it. */
  lemma ReleasedOnce(capacity: nat, steps: seq<Step>, p: Permit)
    requires p < Run(Start(capacity), steps).issued
    ensures var st := Run(Start(capacity), steps);
            st.released[p] == if exists a :: Holds(st.locks, a, p) then 0 else 1
  {
    RunInv(capacity, steps);
  }

  /** `Maintain` closes an idle connection and then destroys it. Its permit is released once, whatever
      the order in which the two closing tasks end. */
  lemma CloseThenDestroy(st: State, c: nat, p: Permit, k: nat, l: nat, order: bool)
    requires Inv(st) && Holds(st.locks, InConnection(c), p) && k != l && InClosing(k) !in st.locks && InClosing(l) !in st.locks
    ensures var closed := Apply(Apply(st, Close(c, k)), Destroy(c, l));
            var t := if order then Apply(Apply(closed, EndClosing(k)), EndClosing(l))
                     else Apply(Apply(closed, EndClosing(l)), EndClosing(k));
            && t.released == st.released + multiset{p} && st.released[p] == 0
            && t.taken == st.taken - 1 && t.locks == st.locks - {InConnection(c)}
  {
    assert InConnection(c) in Holders(st.locks);
    var a := Apply(st, Close(c, k));
    assert a.locks == st.locks[InConnection(c) := None][InClosing(k) := Some(p)];
    var b := Apply(a, Destroy(c, l));
    assert b.locks == (st.locks - {InConnection(c)})[InClosing(k) := Some(p)][InClosing(l) := None];
    hide Inv;
  }
}
