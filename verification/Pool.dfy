/** The connection pool of one node (src/detail/connection_pool.cpp:209-298, 391-531): a vector of
    connections that several tasks purge, pick from and push to, while connections break, expire and
    get busy on their own. */
module Pool {
  import opened Bytes

  type Conn = nat
  type Time = nat

  datatype Ping = Answered | Discarded | Failed | Escaped

  /** What a task did to the vector while `Maintain` was not looking. */
  datatype Other = Connected | Requested

  /** Everything the pool reads from outside. Every read happens at its own instant, so the answers may
      change between any two reads. */
  datatype World = World(
    broken: (Conn, Time) -> bool,
    expired: (Conn, Time) -> bool,
    used: (Conn, Time) -> nat,        // GetUsedStreams
    ping: (Conn, Time) -> Ping,
    others: Time -> seq<Other>)
  {
    /** A broken connection stays broken and an expired one expired. */
    ghost predicate Monotone() {
      && (forall c, t, u :: t <= u && broken(c, t) ==> broken(c, u))
      && (forall c, t, u :: t <= u && expired(c, t) ==> expired(c, u))
    }

    /** Neither broken nor expired up to `t`, in a monotone world. */
    predicate Sound(c: Conn, t: Time) { !broken(c, t) && !expired(c, t) }
  }

  datatype Cause = Broken | Expired | IdleDrop

  /** A deletion outside `Clear`; `at` is the instant of the read that decided it. */
  datatype Drop = Drop(conn: Conn, cause: Cause, at: Time)

  /** Outside `Clear` nothing is deleted but broken connections, connections seen expired and then
      without a stream in use, and connections closed while without a stream in use. */
  predicate Justified(w: World, d: Drop) {
    match d.cause
    case Broken => w.broken(d.conn, d.at)
    case Expired => d.at > 0 && w.expired(d.conn, d.at - 1) && w.used(d.conn, d.at) == 0
    case IdleDrop => w.used(d.conn, d.at) == 0
  }

  ghost predicate AllJustified(w: World, ds: seq<Drop>) { forall d :: d in ds ==> Justified(w, d) }

  /** From `t` to `u` the deletions grew from `older` to `ds`, each decided in that time. */
  ghost predicate Since(older: seq<Drop>, ds: seq<Drop>, t: Time, u: Time) {
    older <= ds && t <= u && forall i :: |older| <= i < |ds| ==> t <= ds[i].at < u
  }

  lemma SinceThen(a: seq<Drop>, b: seq<Drop>, c: seq<Drop>, t: Time, u: Time, v: Time)
    requires Since(a, b, t, u) && Since(b, c, u, v)
    ensures Since(a, c, t, v)
  {
  }

  lemma SincePass(older: seq<Drop>, ds: seq<Drop>, t: Time, u: Time)
    requires t <= u && forall d :: d in ds ==> t <= d.at < u
    ensures Since(older, older + ds, t, u)
  {
  }

  // ----- one look at one connection: the deletion it leads to, and the time after it -----

  function PurgeCheck(w: World, c: Conn, t: Time): (Option<Drop>, Time) {
    if w.broken(c, t) then (Some(Drop(c, Broken, t)), t + 1)
    else if !w.expired(c, t + 1) then (None, t + 2)
    else if w.used(c, t + 2) == 0 then (Some(Drop(c, Expired, t + 2)), t + 3)
    else (None, t + 3)
  }

  function PushCheck(w: World, c: Conn, t: Time): (Option<Drop>, Time) {
    var busy := w.expired(c, t);
    if busy && w.used(c, t + 1) == 0 then (Some(Drop(c, Expired, t + 1)), t + 2)
    else
      var u := if busy then t + 2 else t + 1;
      (if w.broken(c, u) then Some(Drop(c, Broken, u)) else None, u + 1)
  }

  // ----- whole passes over the vector -----

  datatype Pass = Pass(kept: seq<Conn>, drops: seq<Drop>, now: Time)

  /** The purge of `Acquire`. */
  function Purge(w: World, xs: seq<Conn>, t: Time): Pass {
    if xs == [] then Pass([], [], t)
    else
      var (d, u) := PurgeCheck(w, xs[0], t);
      var rest := Purge(w, xs[1..], u);
      match d
      case None => Pass([xs[0]] + rest.kept, rest.drops, rest.now)
      case Some(drop) => Pass(rest.kept, [drop] + rest.drops, rest.now)
  }

  /** The choice of `Acquire`: skip what has expired, keep the first connection with the fewest
      streams in use. */
  function Least(w: World, xs: seq<Conn>, best: Option<Conn>, t: Time): (Option<Conn>, Time) {
    if xs == [] then (best, t)
    else if w.expired(xs[0], t) then Least(w, xs[1..], best, t + 1)
    else if best.None? then Least(w, xs[1..], Some(xs[0]), t + 1)
    else if w.used(xs[0], t + 1) < w.used(best.value, t + 2) then Least(w, xs[1..], Some(xs[0]), t + 3)
    else Least(w, xs[1..], best, t + 3)
  }

  datatype Taken = Taken(conn: Option<Conn>, rest: seq<Conn>, drops: seq<Drop>, now: Time)

  /** `AcquireImmediate`: drop, skip or take from the front. */
  function Take(w: World, xs: seq<Conn>, t: Time): Taken {
    if xs == [] then Taken(None, [], [], t)
    else
      var c := xs[0];
      if w.expired(c, t) then
        var r := Take(w, xs[1..], t + 2);
        if w.used(c, t + 1) == 0 then r.(drops := [Drop(c, Expired, t + 1)] + r.drops)
        else r.(rest := [c] + r.rest)
      else if w.broken(c, t + 1) then
        var r := Take(w, xs[1..], t + 2);
        r.(drops := [Drop(c, Broken, t + 1)] + r.drops)
      else
        Taken(Some(c), xs[1..], [], t + 2)
  }

  function Conns(ds: seq<Drop>): multiset<Conn> {
    if ds == [] then multiset{} else Conns(ds[..|ds| - 1]) + multiset{ds[|ds| - 1].conn}
  }

  function CountCause(ds: seq<Drop>, cause: Cause): nat {
    if ds == [] then 0
    else CountCause(ds[..|ds| - 1], cause) + if ds[|ds| - 1].cause == cause then 1 else 0
  }

  lemma ConnsNone()
    ensures Conns([]) == multiset{} && CountCause([], IdleDrop) == 0
  {
  }

  lemma ConnsSnoc(ds: seq<Drop>, d: Drop)
    ensures Conns(ds + [d]) == Conns(ds) + multiset{d.conn}
    ensures CountCause(ds + [d], IdleDrop) == CountCause(ds, IdleDrop) + if d.cause == IdleDrop then 1 else 0
  {
    assert (ds + [d])[..|ds + [d]| - 1] == ds;
  }

  lemma {:induction false} ConnsConcat(a: seq<Drop>, b: seq<Drop>)
    ensures Conns(a + b) == Conns(a) + Conns(b)
    ensures CountCause(a + b, IdleDrop) == CountCause(a, IdleDrop) + CountCause(b, IdleDrop)
    decreases |b|
  {
    hide Conns, CountCause;
    ConnsNone();
    if b == [] {
      assert a + b == a;
    } else {
      var n := |b| - 1;
      ConnsConcat(a, b[..n]);
      assert b == b[..n] + [b[n]] && a + b == a + b[..n] + [b[n]];
      ConnsSnoc(b[..n], b[n]);
      ConnsSnoc(a + b[..n], b[n]);
    }
  }

  // ----- what a pass keeps -----

  /** The connections of `xs` are those of `kept` and those deleted in `ds`, each once; and each
      deletion had a reason. */
  ghost predicate Accounts(w: World, xs: seq<Conn>, kept: multiset<Conn>, ds: seq<Drop>) {
    && multiset(xs) == kept + Conns(ds) && |xs| == |kept| + |ds|
    && AllJustified(w, ds) && CountCause(ds, IdleDrop) == 0
  }

  function One(c: Option<Conn>): multiset<Conn> { if c.Some? then multiset{c.value} else multiset{} }

  lemma KeepOne(w: World, xs: seq<Conn>, kept: multiset<Conn>, ds: seq<Drop>)
    requires xs != [] && Accounts(w, xs[1..], kept, ds)
    ensures Accounts(w, xs, kept + multiset{xs[0]}, ds)
  {
    assert xs == [xs[0]] + xs[1..];
    hide Conns, CountCause, AllJustified;
  }

  lemma DropOne(w: World, xs: seq<Conn>, kept: multiset<Conn>, d: Drop, ds: seq<Drop>)
    requires xs != [] && Accounts(w, xs[1..], kept, ds)
    requires Justified(w, d) && d.conn == xs[0] && d.cause != IdleDrop
    ensures Accounts(w, xs, kept, [d] + ds)
  {
    hide Conns, CountCause, Justified;
    assert xs == [xs[0]] + xs[1..];
    OneDrop(d);
    ConnsConcat([d], ds);
  }

  lemma OneDrop(d: Drop)
    ensures Conns([d]) == multiset{d.conn} && CountCause([d], IdleDrop) == if d.cause == IdleDrop then 1 else 0
  {
    assert [d][..0] == [];
  }

  /** Every connection of the vector is kept or deleted by the purge, once. */
  lemma {:induction false} PurgeConserves(w: World, xs: seq<Conn>, t: Time)
    ensures var p := Purge(w, xs, t); t <= p.now && Accounts(w, xs, multiset(p.kept), p.drops)
    decreases |xs|
  {
    if xs != [] {
      hide Accounts;
      var (d, u) := PurgeCheck(w, xs[0], t);
      PurgeConserves(w, xs[1..], u);
      var rest := Purge(w, xs[1..], u);
      if d.Some? {
        DropOne(w, xs, multiset(rest.kept), d.value, rest.drops);
      } else {
        KeepOne(w, xs, multiset(rest.kept), rest.drops);
        assert multiset([xs[0]] + rest.kept) == multiset(rest.kept) + multiset{xs[0]};
      }
    } else {
      assert Accounts(w, xs, multiset{}, []);
    }
  }

  /** The purge decides each deletion in its own time. */
  lemma {:induction false} PurgeTime(w: World, xs: seq<Conn>, t: Time)
    ensures var p := Purge(w, xs, t); t <= p.now && forall d :: d in p.drops ==> t <= d.at < p.now
    decreases |xs|
  {
    if xs != [] {
      PurgeTime(w, xs[1..], PurgeCheck(w, xs[0], t).1);
    }
  }

  /** `AcquireImmediate` keeps, deletes or hands out every connection, once. */
  lemma {:induction false} TakeConserves(w: World, xs: seq<Conn>, t: Time)
    ensures var r := Take(w, xs, t); t <= r.now && Accounts(w, xs, multiset(r.rest) + One(r.conn), r.drops)
    decreases |xs|
  {
    TakeTime(w, xs, t);
    if xs == [] {
      assert Accounts(w, xs, multiset{}, []);
    } else if w.expired(xs[0], t) || w.broken(xs[0], t + 1) {
      hide Take, Accounts, One;
      TakeConserves(w, xs[1..], t + 2);
      TakeOneConserves(w, xs, t);
    } else {
      assert xs == [xs[0]] + xs[1..];
    }
  }

  lemma TakeOneConserves(w: World, xs: seq<Conn>, t: Time)
    requires xs != [] && (w.expired(xs[0], t) || w.broken(xs[0], t + 1))
    requires var r := Take(w, xs[1..], t + 2); Accounts(w, xs[1..], multiset(r.rest) + One(r.conn), r.drops)
    ensures var r := Take(w, xs, t); Accounts(w, xs, multiset(r.rest) + One(r.conn), r.drops)
  {
    hide Accounts, One;
    var rest := Take(w, xs[1..], t + 2);
    var kept := multiset(rest.rest) + One(rest.conn);
    if !w.expired(xs[0], t) {
      DropOne(w, xs, kept, Drop(xs[0], Broken, t + 1), rest.drops);
    } else if w.used(xs[0], t + 1) == 0 {
      DropOne(w, xs, kept, Drop(xs[0], Expired, t + 1), rest.drops);
    } else {
      KeepOne(w, xs, kept, rest.drops);
      Regroup(xs[0], rest.rest, One(rest.conn));
    }
  }

  lemma Regroup(c: Conn, rest: seq<Conn>, one: multiset<Conn>)
    ensures multiset([c] + rest) + one == multiset(rest) + one + multiset{c}
  {
  }

  lemma {:induction false} TakeTime(w: World, xs: seq<Conn>, t: Time)
    ensures var r := Take(w, xs, t); t <= r.now && forall d :: d in r.drops ==> t <= d.at < r.now
    decreases |xs|
  {
    if xs != [] && (w.expired(xs[0], t) || w.broken(xs[0], t + 1)) {
      TakeTime(w, xs[1..], t + 2);
    }
  }

  /** Nothing sound at the end of a pass is lost from the front `f` connections. */
  lemma {:induction false} PurgeFront(w: World, xs: seq<Conn>, f: nat, t: Time) returns (g: nat)
    requires w.Monotone() && f <= |xs|
    ensures var p := Purge(w, xs, t);
            && t <= p.now && g <= f && g <= |p.kept|
            && forall c :: c in xs[..f] && w.Sound(c, p.now) ==> c in p.kept[..g]
    decreases |xs|
  {
    if xs == [] {
      g := 0;
    } else {
      var (d, u) := PurgeCheck(w, xs[0], t);
      var f1 := if f == 0 then 0 else f - 1;
      g := PurgeFront(w, xs[1..], f1, u);
      var rest := Purge(w, xs[1..], u);
      assert d.Some? ==> !w.Sound(xs[0], rest.now);
      if f > 0 {
        assert xs[..f] == [xs[0]] + xs[1..][..f1];
        if d.None? {
          g := g + 1;
          assert ([xs[0]] + rest.kept)[..g] == [xs[0]] + rest.kept[..g - 1];
        }
      }
    }
  }

  /** If some connection of the first `f` is sound throughout, the one taken is among them, so the
      front shrinks; nothing sound is lost from it. */
  lemma {:induction false} TakeFront(w: World, xs: seq<Conn>, f: nat, t: Time) returns (g: nat)
    requires w.Monotone() && f <= |xs|
    ensures var r := Take(w, xs, t);
            && t <= r.now && g <= f && g <= |r.rest|
            && (forall c :: c in xs[..f] && w.Sound(c, r.now) ==> r.conn == Some(c) || c in r.rest[..g])
            && ((exists c :: c in xs[..f] && w.Sound(c, r.now)) ==> g < f)
            && (r.conn.None? ==> forall c :: c in xs ==> !w.Sound(c, r.now))
    decreases |xs|
  {
    if xs == [] {
      g := 0;
    } else if w.expired(xs[0], t) || w.broken(xs[0], t + 1) {
      var f1 := if f == 0 then 0 else f - 1;
      g := TakeFront(w, xs[1..], f1, t + 2);
      var rest := Take(w, xs[1..], t + 2);
      assert !w.Sound(xs[0], rest.now);
      assert xs == [xs[0]] + xs[1..];
      if f > 0 {
        assert xs[..f] == [xs[0]] + xs[1..][..f1];
        if w.expired(xs[0], t) && w.used(xs[0], t + 1) != 0 {
          g := g + 1;
          assert ([xs[0]] + rest.rest)[..g] == [xs[0]] + rest.rest[..g - 1];
        }
      }
    } else {
      g := if f == 0 then 0 else f - 1;
      assert f > 0 ==> xs[..f] == [xs[0]] + xs[1..][..f - 1];
    }
  }

  // ----- what a pass lets through -----

  /** At `t` the connection was not broken; and if it had expired by then, it was seen busy by `u`. */
  ghost predicate MayStay(w: World, c: Conn, t: Time, u: Time) {
    !w.broken(c, t) && (w.expired(c, t) ==> SeenBusy(w, c, t, u))
  }

  lemma MayStayWider(w: World, c: Conn, t: Time, v: Time, u: Time, z: Time)
    requires w.Monotone() && t <= v <= u <= z && MayStay(w, c, v, u)
    ensures MayStay(w, c, t, z)
  {
    if w.expired(c, t) {
      var b: Time :| v <= b < u && w.used(c, b) > 0;
    }
  }

  /** After a purge nothing is listed that was broken when it started, and nothing that had expired by then
      and was not seen busy. */
  lemma {:induction false} PurgeClears(w: World, xs: seq<Conn>, t: Time)
    requires w.Monotone()
    ensures var p := Purge(w, xs, t); t <= p.now && forall c :: c in p.kept ==> MayStay(w, c, t, p.now)
    decreases |xs|
  {
    if xs != [] {
      var (d, u) := PurgeCheck(w, xs[0], t);
      PurgeClears(w, xs[1..], u);
      var rest := Purge(w, xs[1..], u);
      CheckClears(w, xs[0], t);
      forall c | c in rest.kept ensures MayStay(w, c, t, rest.now) {
        MayStayWider(w, c, t, u, rest.now, rest.now);
      }
      if d.None? {
        MayStayWider(w, xs[0], t, t, u, rest.now);
      }
      hide MayStay, World.Monotone, PurgeCheck;
    }
  }

  /** One look of the purge, and of `Push`: only a connection that may stay is let through. */
  lemma CheckClears(w: World, c: Conn, t: Time)
    requires w.Monotone()
    ensures var (d, u) := PurgeCheck(w, c, t); t < u && (d.None? ==> MayStay(w, c, t, u))
    ensures var (d, u) := PushCheck(w, c, t); t < u && (d.None? ==> MayStay(w, c, t, u))
    ensures var (d, u) := PushCheck(w, c, t); w.Sound(c, u) ==> d.None?
  {
  }

  /** What `AcquireImmediate` hands out was neither broken nor expired when it started, and everything in
      front of it is no longer sound: it was deleted, or had expired and was seen busy and stays. The rest
      of the vector is untouched. */
  lemma {:induction false} TakeFirst(w: World, xs: seq<Conn>, t: Time) returns (j: nat, k: nat)
    requires w.Monotone()
    ensures var r := Take(w, xs, t);
            && t <= r.now && j <= |xs| && k <= |r.rest|
            && (forall c :: c in xs[..j] ==> !w.Sound(c, r.now))
            && (forall c :: c in r.rest[..k] ==> w.expired(c, r.now) && SeenBusy(w, c, t, r.now))
            && (r.conn.None? ==> j == |xs| && k == |r.rest|)
            && (r.conn.Some? ==> j < |xs| && r.conn.value == xs[j] && w.Sound(xs[j], t) && r.rest[k..] == xs[j + 1..])
    decreases |xs|
  {
    if xs == [] {
      j, k := 0, 0;
    } else if w.expired(xs[0], t) || w.broken(xs[0], t + 1) {
      j, k := TakeFirst(w, xs[1..], t + 2);
      var rest := Take(w, xs[1..], t + 2);
      assert !w.Sound(xs[0], rest.now);
      assert xs[..j + 1] == [xs[0]] + xs[1..][..j];
      forall c | c in rest.rest[..k] ensures SeenBusy(w, c, t, rest.now) {
        BusyLater(w, c, t, t + 2, rest.now);
      }
      j := j + 1;
      if w.expired(xs[0], t) && w.used(xs[0], t + 1) != 0 {
        assert SeenBusy(w, xs[0], t, rest.now);
        assert ([xs[0]] + rest.rest)[..k + 1] == [xs[0]] + rest.rest[..k];
        assert ([xs[0]] + rest.rest)[k + 1..] == rest.rest[k..];
        k := k + 1;
      }
    } else {
      j, k := 0, 0;
    }
  }

  // ----- the choice of `Acquire` -----

  /** Streams in use and expiry of the listed connections do not change from `t` to `u`. */
  ghost predicate Quiet(w: World, xs: seq<Conn>, t: Time, u: Time) {
    forall c, v :: c in xs && t <= v <= u ==> w.used(c, v) == w.used(c, t) && w.expired(c, v) == w.expired(c, t)
  }

  /** No eligible connection of `xs` has fewer streams in use than `c`, and none before `c` as few. */
  ghost predicate FirstLeast(w: World, xs: seq<Conn>, t: Time, c: Conn) {
    exists k :: 0 <= k < |xs| && LeastAt(w, xs, t, k) && xs[k] == c
  }

  ghost predicate LeastAt(w: World, xs: seq<Conn>, t: Time, k: nat)
    requires k < |xs|
  {
    && !w.expired(xs[k], t)
    && (forall j :: 0 <= j < |xs| && !w.expired(xs[j], t) ==>
          if j < k then w.used(xs[k], t) < w.used(xs[j], t) else w.used(xs[k], t) <= w.used(xs[j], t))
  }

  /** Without interference `Acquire` picks the first least-loaded connection that has not expired, and
      none only when every connection has expired. */
  lemma LeastIsFirstLeast(w: World, xs: seq<Conn>, t: Time)
    requires Quiet(w, xs, t, Least(w, xs, None, t).1)
    ensures var c := Least(w, xs, None, t).0;
            && (c.None? <==> forall x :: x in xs ==> w.expired(x, t))
            && (c.Some? ==> c.value in xs && FirstLeast(w, xs, t, c.value))
  {
    var k := LeastScan(w, xs, 0, -1, t, t);
    if k >= 0 {
      assert LeastAt(w, xs, t, k);
    } else {
      assert forall j :: 0 <= j < |xs| ==> w.expired(xs[j], t);
    }
  }

  /** `b` is the position of the best so far among the first `i`, or -1. */
  ghost predicate BestOf(w: World, xs: seq<Conn>, i: nat, b: int, t: Time) {
    && i <= |xs| && -1 <= b < i
    && (b == -1 ==> forall j :: 0 <= j < i ==> w.expired(xs[j], t))
    && (b >= 0 ==> !w.expired(xs[b], t) && forall j :: 0 <= j < i && !w.expired(xs[j], t) ==>
          if j < b then w.used(xs[b], t) < w.used(xs[j], t) else w.used(xs[b], t) <= w.used(xs[j], t))
  }

  function At(xs: seq<Conn>, b: int): Option<Conn>
    requires b < |xs|
  {
    if b < 0 then None else Some(xs[b])
  }

  lemma {:induction false} LeastScan(w: World, xs: seq<Conn>, i: nat, b: int, t: Time, v: Time) returns (k: int)
    requires BestOf(w, xs, i, b, t) && t <= v && Quiet(w, xs, t, Least(w, xs[i..], At(xs, b), v).1)
    ensures BestOf(w, xs, |xs|, k, t) && Least(w, xs[i..], At(xs, b), v).0 == At(xs, k)
    decreases |xs| - i
  {
    assert -1 <= b < i <= |xs|;
    hide BestOf, Quiet, Least;
    if i == |xs| {
      LeastEnds(w, At(xs, b), v);
      assert xs[i..] == [];
      k := b;
    } else {
      LeastSteps(w, xs, i, b, v);
      BestGoesOn(w, xs, i, b, t, v);
      var (b', v') := BestAfter(w, xs, i, b, v);
      k := LeastScan(w, xs, i + 1, b', t, v');
    }
  }

  lemma LeastEnds(w: World, best: Option<Conn>, v: Time)
    ensures Least(w, [], best, v) == (best, v)
  {
  }

  /** The position of the best after a look at position `i`, and the time then. */
  function BestAfter(w: World, xs: seq<Conn>, i: nat, b: int, v: Time): (int, Time)
    requires i < |xs| && b < i
  {
    if w.expired(xs[i], v) then (b, v + 1)
    else if b < 0 then (i, v + 1)
    else if w.used(xs[i], v + 1) < w.used(xs[b], v + 2) then (i, v + 3)
    else (b, v + 3)
  }

  lemma LeastSteps(w: World, xs: seq<Conn>, i: nat, b: int, v: Time)
    requires i < |xs| && b < i
    ensures var (b', v') := BestAfter(w, xs, i, b, v);
            && b' <= i && v < v' && Least(w, xs[i..], At(xs, b), v) == Least(w, xs[i + 1..], At(xs, b'), v')
            && v' <= Least(w, xs[i..], At(xs, b), v).1
  {
    assert xs[i..][1..] == xs[i + 1..] && xs[i..][0] == xs[i];
    var (b', v') := BestAfter(w, xs, i, b, v);
    LeastTime(w, xs[i + 1..], At(xs, b'), v');
  }

  lemma BestGoesOn(w: World, xs: seq<Conn>, i: nat, b: int, t: Time, v: Time)
    requires i < |xs| && BestOf(w, xs, i, b, t) && t <= v
    requires Quiet(w, xs, t, Least(w, xs[i..], At(xs, b), v).1)
    ensures b < i && BestOf(w, xs, i + 1, BestAfter(w, xs, i, b, v).0, t)
  {
    LeastSteps(w, xs, i, b, v);
    hide Least;
    var u := Least(w, xs[i..], At(xs, b), v).1;
    assert xs[i] in xs;
    QuietAt(w, xs, t, u, xs[i], v);
    if !w.expired(xs[i], v) && b >= 0 {
      assert xs[b] in xs;
      QuietAt(w, xs, t, u, xs[i], v + 1);
      QuietAt(w, xs, t, u, xs[b], v + 2);
    }
    hide Quiet;
  }

  lemma QuietAt(w: World, xs: seq<Conn>, t: Time, u: Time, c: Conn, v: Time)
    requires Quiet(w, xs, t, u) && c in xs && t <= v <= u
    ensures w.used(c, v) == w.used(c, t) && w.expired(c, v) == w.expired(c, t)
  {
  }

  lemma {:induction false} LeastTime(w: World, xs: seq<Conn>, best: Option<Conn>, t: Time)
    ensures t <= Least(w, xs, best, t).1
    decreases |xs|
  {
    if xs != [] {
      if w.expired(xs[0], t) {
        LeastTime(w, xs[1..], best, t + 1);
      } else if best.None? {
        LeastTime(w, xs[1..], Some(xs[0]), t + 1);
      } else {
        LeastTime(w, xs[1..], Some(xs[0]), t + 3);
        LeastTime(w, xs[1..], best, t + 3);
      }
    }
  }

  /** Whatever happens meanwhile, what `Acquire` hands out is listed and had not expired before the scan. */
  lemma {:induction false} LeastIsListed(w: World, xs: seq<Conn>, best: Option<Conn>, t: Time)
    requires w.Monotone()
    ensures var c := Least(w, xs, best, t).0;
            c == best || (c.Some? && c.value in xs && !w.expired(c.value, t))
    decreases |xs|
  {
    if xs != [] {
      if w.expired(xs[0], t) {
        LeastIsListed(w, xs[1..], best, t + 1);
      } else if best.None? {
        LeastIsListed(w, xs[1..], Some(xs[0]), t + 1);
      } else {
        LeastIsListed(w, xs[1..], Some(xs[0]), t + 3);
        LeastIsListed(w, xs[1..], best, t + 3);
      }
    }
  }

  // ----- who owns a connection -----

  /** Each of the connections 0 to `next - 1` is listed, checked out or gone, once. */
  ghost predicate Owns(listed: multiset<Conn>, out: set<Conn>, gone: multiset<Conn>, next: Conn) {
    && (forall c: Conn :: listed[c] + multiset(out)[c] + gone[c] == if c < next then 1 else 0)
    && |listed| + |out| + |gone| == next
  }

  lemma {:induction false} ConnsSize(ds: seq<Drop>)
    ensures |Conns(ds)| == |ds|
  {
    if ds != [] {
      ConnsSize(ds[..|ds| - 1]);
    }
  }

  /** The pool's invariant over its fields. */
  ghost predicate Sane(w: World, xs: seq<Conn>, out: set<Conn>, ds: seq<Drop>, next: Conn) {
    Owns(multiset(xs), out, Conns(ds), next) && AllJustified(w, ds)
  }

  lemma OwnsBack(xs: seq<Conn>, c: Conn, out: set<Conn>, gone: multiset<Conn>, next: Conn)
    requires Owns(multiset(xs), out, gone, next) && c in out
    ensures Owns(multiset(xs + [c]), out - {c}, gone, next)
    ensures Owns(multiset(xs), out - {c}, gone + multiset{c}, next)
  {
    var less: set<Conn> := out - {c};
    assert out == less + {c} && |less| == |out| - 1;
    assert multiset(xs + [c]) == multiset(xs) + multiset{c};
    assert multiset(out) == multiset(less) + multiset{c};
    forall x: Conn
      ensures multiset(xs + [c])[x] + multiset(less)[x] + gone[x] == multiset(xs)[x] + multiset(out)[x] + gone[x]
    {
    }
  }

  /** A checked-out connection comes back to the vector or is deleted. */
  lemma BackSane(w: World, xs: seq<Conn>, c: Conn, d: Option<Drop>, out: set<Conn>, ds: seq<Drop>, next: Conn)
    requires Sane(w, xs, out, ds, next) && c in out
    requires d.Some? ==> d.value.conn == c && Justified(w, d.value)
    ensures d.None? ==> Sane(w, xs + [c], out - {c}, ds, next)
    ensures d.Some? ==> Sane(w, xs, out - {c}, ds + [d.value], next)
    ensures d.Some? ==> CountCause(ds + [d.value], IdleDrop) == CountCause(ds, IdleDrop) + if d.value.cause == IdleDrop then 1 else 0
  {
    hide Conns, CountCause, Owns, Justified;
    OwnsBack(xs, c, out, Conns(ds), next);
    if d.Some? {
      ConnsSnoc(ds, d.value);
    }
  }

  lemma NewSane(w: World, xs: seq<Conn>, out: set<Conn>, ds: seq<Drop>, next: Conn)
    requires Sane(w, xs, out, ds, next)
    ensures Sane(w, xs, out + {next}, ds, next + 1) && next !in out
  {
    assert multiset(out)[next] == 0;
    hide Conns;
  }

  /** A pass over the vector moves connections from listed to gone and perhaps one out. */
  lemma PassSane(w: World, xs: seq<Conn>, kept: seq<Conn>, taken: Option<Conn>, ds: seq<Drop>,
                 out: set<Conn>, before: seq<Drop>, next: Conn)
    requires Sane(w, xs, out, before, next) && Accounts(w, xs, multiset(kept) + One(taken), ds)
    ensures taken.Some? ==> taken.value !in out
    ensures Sane(w, kept, out + (if taken.Some? then {taken.value} else {}), before + ds, next)
    ensures CountCause(before + ds, IdleDrop) == CountCause(before, IdleDrop)
  {
    ConnsConcat(before, ds);
    hide Conns, CountCause, Owns;
    PassOwns(multiset(xs), multiset(kept), taken, out, Conns(before), Conns(ds), next);
  }

  lemma PassOwns(listed: multiset<Conn>, kept: multiset<Conn>, taken: Option<Conn>, out: set<Conn>,
                 gone: multiset<Conn>, more: multiset<Conn>, next: Conn)
    requires Owns(listed, out, gone, next) && listed == kept + One(taken) + more
    ensures taken.Some? ==> taken.value !in out
    ensures Owns(kept, out + (if taken.Some? then {taken.value} else {}), gone + more, next)
  {
    if taken.Some? {
      assert taken.value in listed;
      assert multiset(out)[taken.value] == 0;
      assert multiset(out + {taken.value}) == multiset(out) + multiset{taken.value};
    }
  }

  lemma AcquireClears(w: World, xs: seq<Conn>, t: Time)
    requires w.Monotone()
    ensures var p := Purge(w, xs, t);
            var (c, u) := Least(w, p.kept, None, p.now);
            && (forall x :: x in p.kept ==> MayStay(w, x, t, u))
            && (c.Some? ==> c.value in p.kept && w.Sound(c.value, t))
  {
    var p := Purge(w, xs, t);
    PurgeClears(w, xs, t);
    LeastTime(w, p.kept, None, p.now);
    LeastIsListed(w, p.kept, None, p.now);
    hide Purge, Least;
    forall x | x in p.kept ensures MayStay(w, x, t, Least(w, p.kept, None, p.now).1) {
      MayStayWider(w, x, t, t, p.now, Least(w, p.kept, None, p.now).1);
    }
  }

  /** The deletions of `Acquire` and `AcquireImmediate` are decided while they run. */
  lemma AcquireSince(w: World, xs: seq<Conn>, ds: seq<Drop>, t: Time)
    ensures var p := Purge(w, xs, t); t <= p.now <= Least(w, p.kept, None, p.now).1 && Since(ds, ds + p.drops, t, Least(w, p.kept, None, p.now).1)
  {
    var p := Purge(w, xs, t);
    PurgeTime(w, xs, t);
    LeastTime(w, p.kept, None, p.now);
    hide Purge, Least;
    SincePass(ds, p.drops, t, Least(w, p.kept, None, p.now).1);
  }

  lemma TakeSince(w: World, xs: seq<Conn>, ds: seq<Drop>, t: Time)
    ensures var r := Take(w, xs, t); Since(ds, ds + r.drops, t, r.now)
  {
    TakeTime(w, xs, t);
    hide Take;
    SincePass(ds, Take(w, xs, t).drops, t, Take(w, xs, t).now);
  }

  // ----- what a maintenance run still has to visit -----

  function Size(c: Option<Conn>): nat { if c.Some? then 1 else 0 }

  /** Nothing that is sound at `t` is missing from the new list. */
  ghost predicate Keeps(w: World, xs: seq<Conn>, ys: seq<Conn>, t: Time) {
    forall c :: c in xs && w.Sound(c, t) ==> c in ys
  }

  /** The same for the first `f` connections, of which `g` are left, and for the whole vector. */
  ghost predicate KeepsFront(w: World, xs: seq<Conn>, f: nat, ys: seq<Conn>, g: nat, t: Time)
    requires f <= |xs|
  {
    g <= f && g <= |ys| && Keeps(w, xs[..f], ys[..g], t) && Keeps(w, xs, ys, t)
  }

  /** What was listed at the start and is sound was visited or is still in the front. */
  ghost predicate Covered(w: World, start: seq<Conn>, front: seq<Conn>, pinged: seq<Conn>, closed: Option<Conn>, t: Time) {
    forall c :: c in start && w.Sound(c, t) ==> c in pinged || closed == Some(c) || c in front
  }

  /** Part-way through a run over `start`: the connections not visited yet are among the first `f`,
      `turns` more turns are enough, and nothing but the one closed has been lost. */
  ghost predicate Progress(w: World, start: seq<Conn>, xs: seq<Conn>, f: nat, turns: int,
                           pinged: seq<Conn>, closed: Option<Conn>, t: Time)
  {
    && f <= |xs|
    && Covered(w, start, xs[..f], pinged, closed, t)
    && (f <= turns || Covered(w, start, [], pinged, closed, t))
    && Covered(w, start, xs, [], closed, t)
  }

  lemma ProgressLater(w: World, start: seq<Conn>, xs: seq<Conn>, f: nat, ys: seq<Conn>, g: nat, turns: int,
                      pinged: seq<Conn>, closed: Option<Conn>, t: Time, u: Time)
    requires w.Monotone() && t <= u && Progress(w, start, xs, f, turns, pinged, closed, t)
    requires KeepsFront(w, xs, f, ys, g, u)
    ensures Progress(w, start, ys, g, turns, pinged, closed, u)
  {
  }

  lemma ProgressStays(w: World, start: seq<Conn>, xs: seq<Conn>, f: nat, turns: int,
                      pinged: seq<Conn>, closed: Option<Conn>, t: Time, u: Time)
    requires w.Monotone() && t <= u && Progress(w, start, xs, f, turns, pinged, closed, t)
    ensures Progress(w, start, xs, f, turns, pinged, closed, u)
  {
    ProgressLater(w, start, xs, f, xs, f, turns, pinged, closed, t, u);
  }

  /** `AcquireImmediate` uses up one turn and either shortens the front or finds nothing sound in it. */
  lemma ProgressTake(w: World, start: seq<Conn>, xs: seq<Conn>, f: nat, turns: int,
                     pinged: seq<Conn>, closed: Option<Conn>, t: Time) returns (g: nat)
    requires w.Monotone() && Progress(w, start, xs, f, turns, pinged, closed, t)
    ensures var r := Take(w, xs, t);
            && g <= |r.rest| && t <= r.now
            && (r.conn.None? ==> Covered(w, start, [], pinged, closed, r.now) && Covered(w, start, r.rest, [], closed, r.now))
            && (r.conn.Some? ==> Pinging(w, start, r.rest, g, turns - 1, pinged, closed, r.conn.value, r.now))
            && (r.conn.Some? && closed.None? ==> Progress(w, start, r.rest, g, turns - 1, pinged, r.conn, r.now))
  {
    var all := TakeFront(w, xs, |xs|, t);
    g := TakeFront(w, xs, f, t);
    assert xs[..|xs|] == xs;
    hide Take;
    assert forall c :: c in xs[..f] ==> c in xs;
  }

  /** As `Progress`, while the connection last taken is being pinged. */
  ghost predicate Pinging(w: World, start: seq<Conn>, xs: seq<Conn>, f: nat, turns: int,
                          pinged: seq<Conn>, closed: Option<Conn>, c: Conn, t: Time)
  {
    && f <= |xs|
    && Covered(w, start, xs[..f], pinged + [c], closed, t)
    && (f <= turns || Covered(w, start, [], pinged + [c], closed, t))
    && Covered(w, start, xs + [c], [], closed, t)
  }

  lemma PingingLater(w: World, start: seq<Conn>, xs: seq<Conn>, f: nat, ys: seq<Conn>, g: nat, turns: int,
                     pinged: seq<Conn>, closed: Option<Conn>, c: Conn, t: Time, u: Time)
    requires w.Monotone() && t <= u && Pinging(w, start, xs, f, turns, pinged, closed, c, t)
    requires f <= |xs| && KeepsFront(w, xs + [c], f, ys, g, u)
    ensures Progress(w, start, ys, g, turns, pinged + [c], closed, u)
  {
    assert (xs + [c])[..f] == xs[..f];
  }

  /** The pings of a run from `t` to `u`, one at each of `times`: the run ends early exactly when its last
      ping ends with an exception that `Maintain` does not catch. */
  ghost predicate Pinged(w: World, pinged: seq<Conn>, times: seq<Time>, t: Time, u: Time, escaped: bool) {
    && |times| == |pinged| && (escaped ==> pinged != [])
    && forall i :: 0 <= i < |pinged| ==>
         t <= times[i] < u && (w.ping(pinged[i], times[i]) == Escaped <==> escaped && i == |pinged| - 1)
  }

  /** The deletions grew from `older` to `ds`, and the idle drop among the new ones, if any, is of `closed`. */
  ghost predicate Grown(older: seq<Drop>, ds: seq<Drop>, closed: Option<Conn>) {
    && older <= ds
    && (forall i :: |older| <= i < |ds| && ds[i].cause == IdleDrop ==> closed == Some(ds[i].conn))
    && (closed.Some? ==> exists i :: |older| <= i < |ds| && ds[i].cause == IdleDrop && ds[i].conn == closed.value)
  }

  lemma GrownThen(a: seq<Drop>, b: seq<Drop>, c: seq<Drop>, first: Option<Conn>, second: Option<Conn>)
    requires Grown(a, b, first) && Grown(b, c, second) && (first.None? || second.None?)
    ensures Grown(a, c, if first.Some? then first else second)
  {
    if first.Some? {
      var i :| |a| <= i < |b| && b[i].cause == IdleDrop && b[i].conn == first.value;
      assert c[i] == b[i];
    }
    if second.Some? {
      var i :| |b| <= i < |c| && c[i].cause == IdleDrop && c[i].conn == second.value;
      assert |a| <= i;
    }
    forall i | |a| <= i < |c| && c[i].cause == IdleDrop
      ensures (if first.Some? then first else second) == Some(c[i].conn)
    {
      assert i < |b| ==> b[i] == c[i];
    }
  }

  lemma GrownBy(older: seq<Drop>, more: seq<Drop>)
    requires forall d :: d in more ==> d.cause != IdleDrop
    ensures Grown(older, older + more, None)
  {
  }

  /** The first `n` connections pinged were each seen with streams in use. */
  ghost predicate AllBusy(w: World, pinged: seq<Conn>, n: int, t: Time, u: Time) {
    forall i :: 0 <= i < |pinged| && i < n ==> SeenBusy(w, pinged[i], t, u)
  }

  ghost predicate SeenBusy(w: World, c: Conn, t: Time, u: Time) {
    exists v :: t <= v < u && w.used(c, v) > 0
  }

  lemma BusyLater(w: World, c: Conn, t: Time, v: Time, u: Time)
    requires t <= v
    ensures SeenBusy(w, c, v, u) ==> SeenBusy(w, c, t, u)
  {
  }

  lemma OneMoreBusy(w: World, pinged: seq<Conn>, n: int, c: Conn, t: Time, v: Time, u: Time)
    requires t <= v <= u && AllBusy(w, pinged, n, t, v)
    requires |pinged| < n ==> SeenBusy(w, c, v, u)
    ensures AllBusy(w, pinged + [c], n, t, u)
  {
  }

  /** What was listed or made meanwhile is now listed or deleted, connection by connection and in number. */
  ghost predicate Conserved(xs: seq<Conn>, ds: seq<Drop>, next: Conn, ys: seq<Conn>, es: seq<Drop>, m: Conn) {
    && (forall c: Conn :: multiset(ys)[c] + Conns(es)[c]
          == multiset(xs)[c] + Conns(ds)[c] + (if next <= c < m then 1 else 0))
    && |ys| + |es| == |xs| + |ds| + (m - next)
  }

  /** Two states with the same connections checked out differ by what was made and deleted between. */
  lemma SaneConserves(w: World, xs: seq<Conn>, ds: seq<Drop>, next: Conn, out: set<Conn>)
    requires Sane(w, xs, out, ds, next)
    ensures forall ys: seq<Conn>, es, m :: Sane(w, ys, out, es, m) && next <= m ==> Conserved(xs, ds, next, ys, es, m)
  {
    ConnsSize(ds);
    forall ys: seq<Conn>, es, m | Sane(w, ys, out, es, m) && next <= m ensures Conserved(xs, ds, next, ys, es, m) {
      ConnsSize(es);
      hide Conns, AllJustified;
    }
  }

  /** What the pool shows at one instant. */
  datatype Moment = Moment(connections: seq<Conn>, drops: seq<Drop>, next: Conn, now: Time)

  // ----- the same operations over moments -----

  /** `Push` of a connection that is not listed. */
  function PushOn(w: World, m: Moment, c: Conn): Moment {
    var (d, u) := PushCheck(w, c, m.now);
    m.(connections := m.connections + (if d.None? then [c] else []),
       drops := m.drops + (if d.Some? then [d.value] else []), now := u)
  }

  function ReleaseOn(w: World, m: Moment, c: Conn): Moment {
    var (d, u) := PushCheck(w, c, m.now);
    if d.Some? then m.(drops := m.drops + [d.value], now := u) else PushOn(w, m.(now := u), c)
  }

  function OtherOn(w: World, m: Moment, step: Other): Moment {
    match step
    case Connected => PushOn(w, m.(next := m.next + 1), m.next)
    case Requested =>
      var p := Purge(w, m.connections, m.now);
      m.(connections := p.kept, drops := m.drops + p.drops, now := Least(w, p.kept, None, p.now).1)
  }

  function OthersFrom(w: World, m: Moment, steps: seq<Other>): Moment
    decreases |steps|
  {
    if steps == [] then m else OthersFrom(w, OtherOn(w, m, steps[0]), steps[1..])
  }

  function OthersOn(w: World, m: Moment): Moment { OthersFrom(w, m, w.others(m.now)) }

  /** `m` after a ping of `c`, which is not listed, and giving it back. */
  function PingOn(w: World, m: Moment, c: Conn): Moment { ReleaseOn(w, OthersOn(w, m.(now := m.now + 1)), c) }

  /** The turns of `Maintain`: what they leave, and what they did. */
  datatype Round = Round(after: Moment, pinged: seq<Conn>, times: seq<Time>, closed: Option<Conn>, escaped: bool)

  function Rounds(w: World, minSize: nat, m: Moment, left: nat, mayDrop: bool): Round
    decreases left, 1
  {
    if left == 0 then Round(m, [], [], None, false)
    else
      var o := OthersOn(w, m);
      var r := Take(w, o.connections, o.now);
      var taken := o.(connections := r.rest, drops := o.drops + r.drops, now := r.now);
      match r.conn
      case None => Round(taken, [], [], None, false)
      case Some(c) => Turn(w, minSize, taken, c, left, mayDrop)
  }

  /** A turn that has taken `c`, and the turns after it. */
  function Turn(w: World, minSize: nat, m: Moment, c: Conn, left: nat, mayDrop: bool): Round
    requires left > 0
    decreases left, 0
  {
    var asks := left > minSize && mayDrop;
    if asks && w.used(c, m.now) == 0 then
      Rounds(w, minSize, ClosedOn(m, c), left - 1, false).(closed := Some(c))
    else
      var at := if asks then m.now + 1 else m.now;
      var next := PingOn(w, m.(now := at), c);
      if w.ping(c, at) == Escaped then Round(next, [c], [at], None, true)
      else
        var rest := Rounds(w, minSize, next, left - 1, mayDrop);
        rest.(pinged := [c] + rest.pinged, times := [at] + rest.times)
  }

  function ClosedOn(m: Moment, c: Conn): Moment {
    m.(drops := m.drops + [Drop(c, IdleDrop, m.now)], now := m.now + 1)
  }

  /** What the rest of a run comes to, with `left` turns to go. */
  ghost function RoundsLeft(w: World, minSize: nat, m: Moment, left: nat, pinged: seq<Conn>, times: seq<Time>, closed: Option<Conn>): Round {
    var rest := Rounds(w, minSize, m, left, closed.None?);
    Round(rest.after, pinged + rest.pinged, times + rest.times, if closed.Some? then closed else rest.closed, rest.escaped)
  }

  lemma RoundsStart(w: World, minSize: nat, m: Moment, left: nat)
    ensures RoundsLeft(w, minSize, m, left, [], [], None) == Rounds(w, minSize, m, left, true)
  {
    var r := Rounds(w, minSize, m, left, true);
    assert [] + r.pinged == r.pinged && [] + r.times == r.times;
    hide Rounds;
  }

  lemma RoundsEnd(w: World, minSize: nat, m: Moment, pinged: seq<Conn>, times: seq<Time>, closed: Option<Conn>)
    ensures RoundsLeft(w, minSize, m, 0, pinged, times, closed) == Round(m, pinged, times, closed, false)
  {
  }

  lemma TurnNext(w: World, minSize: nat, m: Moment, c: Conn, left: nat, pinged: seq<Conn>, times: seq<Time>, closed: Option<Conn>)
    requires left > 0
    ensures var t := Turn(w, minSize, m, c, left, closed.None?);
            Round(t.after, pinged + t.pinged, times + t.times, if closed.Some? then closed else t.closed, t.escaped) ==
              TurnLeft(w, minSize, m, c, left, pinged, times, closed)
  {
    hide PingOn, Rounds;
    var asks := left > minSize && closed.None?;
    var at := if asks then m.now + 1 else m.now;
    var rest := Rounds(w, minSize, PingOn(w, m.(now := at), c), left - 1, closed.None?);
    assert pinged + ([c] + rest.pinged) == pinged + [c] + rest.pinged;
    assert times + ([at] + rest.times) == times + [at] + rest.times;
  }

  /** What a run comes to after `c` has been taken. */
  ghost function TurnLeft(w: World, minSize: nat, m: Moment, c: Conn, left: nat, pinged: seq<Conn>, times: seq<Time>, closed: Option<Conn>): Round
    requires left > 0
  {
    var asks := left > minSize && closed.None?;
    var at := if asks then m.now + 1 else m.now;
    if asks && w.used(c, m.now) == 0 then
      RoundsLeft(w, minSize, ClosedOn(m, c), left - 1, pinged, times, Some(c))
    else if w.ping(c, at) == Escaped then
      Round(PingOn(w, m.(now := at), c), pinged + [c], times + [at], closed, true)
    else
      RoundsLeft(w, minSize, PingOn(w, m.(now := at), c), left - 1, pinged + [c], times + [at], closed)
  }

  /** One turn. */
  lemma RoundsNext(w: World, minSize: nat, m: Moment, left: nat, pinged: seq<Conn>, times: seq<Time>, closed: Option<Conn>)
    requires left > 0
    ensures var o := OthersOn(w, m);
            var r := Take(w, o.connections, o.now);
            var taken := o.(connections := r.rest, drops := o.drops + r.drops, now := r.now);
            RoundsLeft(w, minSize, m, left, pinged, times, closed) ==
              if r.conn.None? then Round(taken, pinged, times, closed, false)
              else TurnLeft(w, minSize, taken, r.conn.value, left, pinged, times, closed)
  {
    hide OthersOn, Take, PingOn, TurnLeft;
    var o := OthersOn(w, m);
    var r := Take(w, o.connections, o.now);
    if r.conn.Some? {
      var taken := o.(connections := r.rest, drops := o.drops + r.drops, now := r.now);
      assert Rounds(w, minSize, m, left, closed.None?) == Turn(w, minSize, taken, r.conn.value, left, closed.None?);
      TurnNext(w, minSize, taken, r.conn.value, left, pinged, times, closed);
      hide Rounds, Turn;
    } else {
      assert pinged + [] == pinged && times + [] == times;
    }
  }

  lemma NothingPinged(w: World, t: Time)
    ensures Pinged(w, [], [], t, t, false)
  {
  }

  // ----- what they delete -----

  lemma {:induction false} PurgeNoIdle(w: World, xs: seq<Conn>, t: Time)
    ensures forall d :: d in Purge(w, xs, t).drops ==> d.cause != IdleDrop
    decreases |xs|
  {
    if xs != [] {
      PurgeNoIdle(w, xs[1..], PurgeCheck(w, xs[0], t).1);
    }
  }

  lemma {:induction false} TakeNoIdle(w: World, xs: seq<Conn>, t: Time)
    ensures forall d :: d in Take(w, xs, t).drops ==> d.cause != IdleDrop
    decreases |xs|
  {
    if xs != [] && (w.expired(xs[0], t) || w.broken(xs[0], t + 1)) {
      TakeNoIdle(w, xs[1..], t + 2);
    }
  }

  lemma OtherGrows(w: World, m: Moment, step: Other)
    ensures var n := OtherOn(w, m, step); Grown(m.drops, n.drops, None) && m.now <= n.now
  {
    var n := OtherOn(w, m, step);
    if step.Requested? {
      var p := Purge(w, m.connections, m.now);
      PurgeNoIdle(w, m.connections, m.now);
      PurgeTime(w, m.connections, m.now);
      LeastTime(w, p.kept, None, p.now);
      GrownBy(m.drops, p.drops);
    }
  }

  lemma {:induction false} OthersGrow(w: World, m: Moment, steps: seq<Other>)
    ensures var n := OthersFrom(w, m, steps); Grown(m.drops, n.drops, None) && m.now <= n.now
    decreases |steps|
  {
    hide Grown, OtherOn;
    if steps != [] {
      OtherGrows(w, m, steps[0]);
      OthersGrow(w, OtherOn(w, m, steps[0]), steps[1..]);
      GrownThen(m.drops, OtherOn(w, m, steps[0]).drops, OthersFrom(w, m, steps).drops, None, None);
    } else {
      NothingGrown(m.drops);
    }
  }

  lemma NothingGrown(ds: seq<Drop>)
    ensures Grown(ds, ds, None)
  {
  }

  lemma PingGrows(w: World, m: Moment, c: Conn)
    ensures var n := PingOn(w, m, c); Grown(m.drops, n.drops, None) && m.now < n.now
  {
    var asked := m.(now := m.now + 1);
    OthersGrow(w, asked, w.others(asked.now));
    var o := OthersOn(w, asked);
    ReleaseGrows(w, o, c);
    hide Grown, ReleaseOn;
    GrownThen(m.drops, o.drops, ReleaseOn(w, o, c).drops, None, None);
  }

  lemma ReleaseGrows(w: World, m: Moment, c: Conn)
    ensures var n := ReleaseOn(w, m, c); Grown(m.drops, n.drops, None) && m.now <= n.now
  {
  }

  /** What the turns ping and close, in every world. */
  lemma {:induction false} RoundsReport(w: World, minSize: nat, m: Moment, left: nat, mayDrop: bool)
    ensures var r := Rounds(w, minSize, m, left, mayDrop);
            && m.now <= r.after.now && Grown(m.drops, r.after.drops, r.closed) && (r.closed.Some? ==> mayDrop)
            && Pinged(w, r.pinged, r.times, m.now, r.after.now, r.escaped)
    decreases left, 1
  {
    NothingGrown(m.drops);
    if left > 0 {
      var o := OthersOn(w, m);
      OthersGrow(w, m, w.others(m.now));
      var r := Take(w, o.connections, o.now);
      TakeNoIdle(w, o.connections, o.now);
      TakeTime(w, o.connections, o.now);
      GrownBy(o.drops, r.drops);
      hide Grown, Take, OthersOn, Turn, Pinged;
      GrownThen(m.drops, o.drops, o.drops + r.drops, None, None);
      if r.conn.Some? {
        var taken := o.(connections := r.rest, drops := o.drops + r.drops, now := r.now);
        TurnReport(w, minSize, taken, r.conn.value, left, mayDrop);
        var t := Turn(w, minSize, taken, r.conn.value, left, mayDrop);
        GrownThen(m.drops, taken.drops, t.after.drops, None, t.closed);
        PingedEarlier(w, t.pinged, t.times, taken.now, m.now, t.after.now, t.escaped);
      }
    }
  }

  lemma {:induction false} TurnReport(w: World, minSize: nat, m: Moment, c: Conn, left: nat, mayDrop: bool)
    requires left > 0
    ensures var r := Turn(w, minSize, m, c, left, mayDrop);
            && m.now <= r.after.now && Grown(m.drops, r.after.drops, r.closed) && (r.closed.Some? ==> mayDrop)
            && Pinged(w, r.pinged, r.times, m.now, r.after.now, r.escaped)
    decreases left, 0
  {
    hide Grown, Rounds, PingOn, Pinged;
    var asks := left > minSize && mayDrop;
    if asks && w.used(c, m.now) == 0 {
      var next := ClosedOn(m, c);
      IdleGrown(m.drops, Drop(c, IdleDrop, m.now));
      RoundsReport(w, minSize, next, left - 1, false);
      var rest := Rounds(w, minSize, next, left - 1, false);
      GrownThen(m.drops, next.drops, rest.after.drops, Some(c), None);
      PingedEarlier(w, rest.pinged, rest.times, next.now, m.now, rest.after.now, rest.escaped);
    } else {
      var at := if asks then m.now + 1 else m.now;
      PingGrows(w, m.(now := at), c);
      var next := PingOn(w, m.(now := at), c);
      if w.ping(c, at) != Escaped {
        RoundsReport(w, minSize, next, left - 1, mayDrop);
        var rest := Rounds(w, minSize, next, left - 1, mayDrop);
        GrownThen(m.drops, next.drops, rest.after.drops, None, rest.closed);
        PingedFirst(w, c, at, rest.pinged, rest.times, next.now, m.now, rest.after.now, rest.escaped);
      } else {
        PingedOnly(w, c, at, m.now, next.now);
      }
    }
  }

  lemma PingedEarlier(w: World, pinged: seq<Conn>, times: seq<Time>, t: Time, v: Time, u: Time, escaped: bool)
    requires Pinged(w, pinged, times, t, u, escaped) && v <= t
    ensures Pinged(w, pinged, times, v, u, escaped)
  {
  }

  lemma PingedFirst(w: World, c: Conn, at: Time, pinged: seq<Conn>, times: seq<Time>, t: Time, v: Time, u: Time, escaped: bool)
    requires Pinged(w, pinged, times, t, u, escaped) && v <= at < t <= u && w.ping(c, at) != Escaped
    ensures Pinged(w, [c] + pinged, [at] + times, v, u, escaped)
  {
  }

  lemma PingedOnly(w: World, c: Conn, at: Time, t: Time, u: Time)
    requires t <= at < u && w.ping(c, at) == Escaped
    ensures Pinged(w, [c], [at], t, u, true)
  {
  }

  lemma IdleGrown(ds: seq<Drop>, d: Drop)
    requires d.cause == IdleDrop
    ensures Grown(ds, ds + [d], Some(d.conn))
  {
    assert (ds + [d])[|ds|] == d;
  }

  /** What a maintenance run does, whatever other tasks do meanwhile. */
  ghost predicate Maintenance(w: World, minSize: nat, waiters: nat, a: Moment, b: Moment,
                              pinged: seq<Conn>, times: seq<Time>, closed: Option<Conn>, escaped: bool)
  {
    && Since(a.drops, b.drops, a.now, b.now) && a.next <= b.next
    // at most as many turns as there were connections, none while someone waits
    && |pinged| + Size(closed) <= (if waiters > 0 then 0 else |a.connections|)
    // the run ends early exactly when a ping of its own escapes, and that is its last
    && Pinged(w, pinged, times, a.now, b.now, escaped)
    // every connection that stays sound is visited
    && (waiters == 0 && !escaped ==>
          forall c :: c in a.connections && w.Sound(c, b.now) ==> c in pinged || closed == Some(c))
    // idle drops
    && CountCause(b.drops, IdleDrop) == CountCause(a.drops, IdleDrop) + Size(closed)
    && (closed.Some? ==> |a.connections| > minSize)
    && Grown(a.drops, b.drops, closed)
    // above the minimum size a connection is pinged instead of closed only if it was busy or one was closed
    && (closed.None? ==> AllBusy(w, pinged, |a.connections| - minSize, a.now, b.now))
    // nothing sound is lost but the connection closed
    && (forall c :: c in a.connections && w.Sound(c, b.now) && closed != Some(c) ==> c in b.connections)
    // conservation
    && Conserved(a.connections, a.drops, a.next, b.connections, b.drops, b.next)
    // the pool shrinks below its minimum size only by broken and expired connections
    && (var unfit := |b.drops| - |a.drops| - Size(closed);
        |b.connections| + unfit >= (if |a.connections| < minSize then |a.connections| else minSize) + (b.next - a.next))
  }

  // ----- a maintenance run part-way -----

  /** After some turns of a run from `a`, with `turns` to go: the connections not visited yet are among the
      first `f`. */
  ghost predicate Stage(w: World, minSize: nat, a: Moment, m: Moment, f: nat, turns: int, pinged: seq<Conn>, closed: Option<Conn>) {
    && Since(a.drops, m.drops, a.now, m.now) && a.next <= m.next
    && |pinged| + Size(closed) + turns == |a.connections|
    && Progress(w, a.connections, m.connections, f, turns, pinged, closed, m.now)
    && CountCause(m.drops, IdleDrop) == CountCause(a.drops, IdleDrop) + Size(closed)
    && (closed.Some? ==> |a.connections| > minSize)
    && (closed.None? ==> AllBusy(w, pinged, |a.connections| - minSize, a.now, m.now))
  }

  /** The same while `c` is taken. */
  ghost predicate Holding(w: World, minSize: nat, a: Moment, m: Moment, f: nat, turns: int, pinged: seq<Conn>, closed: Option<Conn>, c: Conn) {
    && Since(a.drops, m.drops, a.now, m.now) && a.next <= m.next && f <= |m.connections|
    && |pinged| + Size(closed) + turns == |a.connections|
    && Pinging(w, a.connections, m.connections, f, turns - 1, pinged, closed, c, m.now)
    && (closed.None? ==> Progress(w, a.connections, m.connections, f, turns - 1, pinged, Some(c), m.now))
    && CountCause(m.drops, IdleDrop) == CountCause(a.drops, IdleDrop) + Size(closed)
    && (closed.Some? ==> |a.connections| > minSize)
    && (closed.None? ==> AllBusy(w, pinged, |a.connections| - minSize, a.now, m.now))
  }

  /** At the end. */
  ghost predicate Finished(w: World, minSize: nat, a: Moment, m: Moment, pinged: seq<Conn>, closed: Option<Conn>, escaped: bool) {
    && Since(a.drops, m.drops, a.now, m.now) && a.next <= m.next
    && |pinged| + Size(closed) <= |a.connections|
    && (escaped || Covered(w, a.connections, [], pinged, closed, m.now))
    && Covered(w, a.connections, m.connections, [], closed, m.now)
    && CountCause(m.drops, IdleDrop) == CountCause(a.drops, IdleDrop) + Size(closed)
    && (closed.Some? ==> |a.connections| > minSize)
    && (closed.None? ==> AllBusy(w, pinged, |a.connections| - minSize, a.now, m.now))
  }

  lemma BusyUntil(w: World, pinged: seq<Conn>, n: int, t: Time, v: Time, u: Time)
    requires AllBusy(w, pinged, n, t, v) && v <= u
    ensures AllBusy(w, pinged, n, t, u)
  {
  }

  lemma StageStarts(w: World, minSize: nat, a: Moment)
    ensures Stage(w, minSize, a, a, |a.connections|, |a.connections|, [], None)
  {
    assert a.connections[..|a.connections|] == a.connections;
  }

  lemma StageOthers(w: World, minSize: nat, a: Moment, m: Moment, f: nat, n: Moment, g: nat, turns: int,
                    pinged: seq<Conn>, closed: Option<Conn>)
    requires w.Monotone() && Stage(w, minSize, a, m, f, turns, pinged, closed) && f <= |m.connections|
    requires Since(m.drops, n.drops, m.now, n.now) && m.next <= n.next
    requires CountCause(n.drops, IdleDrop) == CountCause(m.drops, IdleDrop)
    requires KeepsFront(w, m.connections, f, n.connections, g, n.now)
    ensures Stage(w, minSize, a, n, g, turns, pinged, closed)
  {
    SinceThen(a.drops, m.drops, n.drops, a.now, m.now, n.now);
    ProgressLater(w, a.connections, m.connections, f, n.connections, g, turns, pinged, closed, m.now, n.now);
    if closed.None? {
      BusyUntil(w, pinged, |a.connections| - minSize, a.now, m.now, n.now);
    }
    hide AllBusy, Progress, KeepsFront, CountCause;
  }

  lemma StageTake(w: World, minSize: nat, a: Moment, m: Moment, f: nat, turns: int, pinged: seq<Conn>, closed: Option<Conn>)
    returns (g: nat)
    requires w.Monotone() && Stage(w, minSize, a, m, f, turns, pinged, closed) && turns > 0
    ensures var r := Take(w, m.connections, m.now);
            var n := m.(connections := r.rest, drops := m.drops + r.drops, now := r.now);
            && g <= |r.rest|
            && (r.conn.None? ==> Finished(w, minSize, a, n, pinged, closed, false))
            && (r.conn.Some? ==> Holding(w, minSize, a, n, g, turns, pinged, closed, r.conn.value))
  {
    hide AllBusy, Progress, Pinging, Covered, CountCause, Take;
    var r := Take(w, m.connections, m.now);
    g := ProgressTake(w, a.connections, m.connections, f, turns, pinged, closed, m.now);
    TakeSince(w, m.connections, m.drops, m.now);
    SinceThen(a.drops, m.drops, m.drops + r.drops, a.now, m.now, r.now);
    TakeConserves(w, m.connections, m.now);
    ConnsConcat(m.drops, r.drops);
    if closed.None? {
      BusyUntil(w, pinged, |a.connections| - minSize, a.now, m.now, r.now);
    }
  }

  lemma StageClosed(w: World, minSize: nat, a: Moment, m: Moment, f: nat, turns: int, pinged: seq<Conn>, c: Conn)
    requires w.Monotone() && Holding(w, minSize, a, m, f, turns, pinged, None, c) && turns > minSize
    ensures Stage(w, minSize, a, ClosedOn(m, c), f, turns - 1, pinged, Some(c))
  {
    hide Progress, Pinging, CountCause, AllBusy, Since;
    var d := Drop(c, IdleDrop, m.now);
    ConnsSnoc(m.drops, d);
    SincePass(m.drops, [d], m.now, m.now + 1);
    SinceThen(a.drops, m.drops, m.drops + [d], a.now, m.now, m.now + 1);
    ProgressStays(w, a.connections, m.connections, f, turns - 1, pinged, Some(c), m.now, m.now + 1);
  }

  lemma StagePinged(w: World, minSize: nat, a: Moment, m: Moment, f: nat, n: Moment, g: nat, turns: int,
                    pinged: seq<Conn>, closed: Option<Conn>, c: Conn)
    requires w.Monotone() && Holding(w, minSize, a, m, f, turns, pinged, closed, c)
    requires Since(m.drops, n.drops, m.now, n.now) && m.next <= n.next
    requires CountCause(n.drops, IdleDrop) == CountCause(m.drops, IdleDrop)
    requires KeepsFront(w, m.connections + [c], f, n.connections, g, n.now)
    requires closed.None? && turns > minSize ==> SeenBusy(w, c, m.now, n.now)
    ensures Stage(w, minSize, a, n, g, turns - 1, pinged + [c], closed)
  {
    SinceThen(a.drops, m.drops, n.drops, a.now, m.now, n.now);
    PingingLater(w, a.connections, m.connections, f, n.connections, g, turns - 1, pinged, closed, c, m.now, n.now);
    if closed.None? {
      OneMoreBusy(w, pinged, |a.connections| - minSize, c, a.now, m.now, n.now);
    }
    hide Progress, Pinging, KeepsFront, CountCause, AllBusy, SeenBusy;
  }

  lemma StageFinishes(w: World, minSize: nat, a: Moment, m: Moment, f: nat, turns: int, pinged: seq<Conn>, closed: Option<Conn>, escaped: bool)
    requires Stage(w, minSize, a, m, f, turns, pinged, closed) && turns >= 0 && (turns == 0 || escaped)
    ensures Finished(w, minSize, a, m, pinged, closed, escaped)
  {
    hide AllBusy, CountCause, Since;
    assert turns == 0 ==> m.connections[..f] == [] || Covered(w, a.connections, [], pinged, closed, m.now);
  }

  lemma NothingHappened(w: World, m: Moment, f: nat)
    requires f <= |m.connections|
    ensures Since(m.drops, m.drops, m.now, m.now) && KeepsFront(w, m.connections, f, m.connections, f, m.now)
  {
  }

  lemma KeepsThen(w: World, xs: seq<Conn>, f: nat, ys: seq<Conn>, e: nat, t: Time, zs: seq<Conn>, g: nat, u: Time)
    requires w.Monotone() && t <= u && f <= |xs| && e <= |ys|
    requires KeepsFront(w, xs, f, ys, e, t) && KeepsFront(w, ys, e, zs, g, u)
    ensures KeepsFront(w, xs, f, zs, g, u)
  {
  }

  lemma ConnectedOn(w: World, m: Moment)
    ensures OtherOn(w, m, Connected) == PushOn(w, m.(next := m.next + 1), m.next)
  {
  }

  lemma RequestedOn(w: World, m: Moment)
    ensures var p := Purge(w, m.connections, m.now);
            OtherOn(w, m, Requested) == m.(connections := p.kept, drops := m.drops + p.drops, now := Least(w, p.kept, None, p.now).1)
  {
  }

  /** Whatever another task does, no sound connection leaves the vector or its front. */
  lemma OtherKeeps(w: World, m: Moment, step: Other, f: nat) returns (g: nat)
    requires w.Monotone() && f <= |m.connections|
    ensures var n := OtherOn(w, m, step);
            && g <= |n.connections| && m.now <= n.now && Since(m.drops, n.drops, m.now, n.now)
            && KeepsFront(w, m.connections, f, n.connections, g, n.now)
  {
    var n := OtherOn(w, m, step);
    match step {
      case Connected =>
        g := f;
        PushKeeps(w, m, f);
      case Requested =>
        AcquireSince(w, m.connections, m.drops, m.now);
        g := RequestKeeps(w, m, f);
    }
    hide OtherOn;
  }

  lemma PushKeeps(w: World, m: Moment, f: nat)
    requires f <= |m.connections|
    ensures var n := PushOn(w, m.(next := m.next + 1), m.next);
            && m.now <= n.now && Since(m.drops, n.drops, m.now, n.now) && f <= |n.connections|
            && KeepsFront(w, m.connections, f, n.connections, f, n.now)
  {
    var n := PushOn(w, m.(next := m.next + 1), m.next);
    assert n.connections[..f] == m.connections[..f];
  }

  lemma RequestKeeps(w: World, m: Moment, f: nat) returns (g: nat)
    requires w.Monotone() && f <= |m.connections|
    ensures var p := Purge(w, m.connections, m.now);
            g <= |p.kept| && KeepsFront(w, m.connections, f, p.kept, g, Least(w, p.kept, None, p.now).1)
  {
    var p := Purge(w, m.connections, m.now);
    var all := PurgeFront(w, m.connections, |m.connections|, m.now);
    assert m.connections[..|m.connections|] == m.connections;
    g := PurgeFront(w, m.connections, f, m.now);
    LeastTime(w, p.kept, None, p.now);
    hide Purge, Least;
  }

  // ----- the pool -----

  class ConnectionPool {
    const w: World
    const minSize: nat
    var connections: seq<Conn>
    var drops: seq<Drop>          // every deletion so far but those of `Clear`
    var cleared: seq<Conn>        // what `Clear` deleted
    var next: Conn                // the connections made so far are 0 to next - 1
    ghost var out: set<Conn>      // taken from the vector or not yet in it
    var pings: seq<Conn>          // every ping of `Maintain` so far
    var now: Time

    /** Every connection made is listed once, or checked out, or deleted once; and nothing was deleted
        without reason. */
    ghost predicate Valid()
      reads this
    {
      Sane(w, connections, out, drops, next)
    }

    ghost function Shown(): Moment
      reads this
    {
      Moment(connections, drops, next, now)
    }

    ghost function IdleDrops(): nat
      reads this
    {
      CountCause(drops, IdleDrop)
    }

    constructor (w: World, minSize: nat, start: Time)
      ensures Valid() && this.w == w && this.minSize == minSize && now == start
      ensures connections == [] && drops == [] && cleared == [] && next == 0 && out == {} && pings == []
    {
      this.w, this.minSize, now := w, minSize, start;
      connections, drops, cleared, next, out, pings := [], [], [], 0, {}, [];
    }

    method IsBroken(c: Conn) returns (r: bool)
      modifies this`now
      ensures r == w.broken(c, old(now)) && now == old(now) + 1
    {
      r := w.broken(c, now);
      now := now + 1;
    }

    method IsExpired(c: Conn) returns (r: bool)
      modifies this`now
      ensures r == w.expired(c, old(now)) && now == old(now) + 1
    {
      r := w.expired(c, now);
      now := now + 1;
    }

    method GetUsedStreams(c: Conn) returns (n: nat)
      modifies this`now
      ensures n == w.used(c, old(now)) && now == old(now) + 1
    {
      n := w.used(c, now);
      now := now + 1;
    }

    method IsIdle(c: Conn) returns (r: bool)
      modifies this`now
      ensures r == (w.used(c, old(now)) == 0) && now == old(now) + 1
    {
      var n := GetUsedStreams(c);
      r := n == 0;
    }

    /** `DeleteConnection` right after the read that decided it. */
    method Delete(c: Conn, cause: Cause)
      requires now > 0
      modifies this`drops
      ensures drops == old(drops) + [Drop(c, cause, now - 1)]
    {
      drops := drops + [Drop(c, cause, now - 1)];
    }

    /** Purges the vector in place, then picks the least-loaded connection that may take requests. */
    method Acquire(deadlineReached: bool) returns (conn: Option<Conn>)
      requires Valid()
      modifies this`connections, this`drops, this`now
      ensures Valid() && IdleDrops() == old(IdleDrops())
      ensures deadlineReached ==> conn == None && connections == old(connections) && drops == old(drops) && now == old(now)
      ensures !deadlineReached ==>
                var p := Purge(w, old(connections), old(now));
                && connections == p.kept && drops == old(drops) + p.drops
                && (conn, now) == Least(w, connections, None, p.now)
      ensures !deadlineReached && w.Monotone() ==>
                && (forall c :: c in connections ==> MayStay(w, c, old(now), now))
                && (conn.Some? ==> conn.value in connections && w.Sound(conn.value, old(now)))
    {
      if deadlineReached {
        return None;
      }
      hide Sane, CountCause, Purge, Least, MayStay;
      if w.Monotone() {
        AcquireClears(w, connections, now);
      }
      PurgeAll();
      conn := LeastLoop();
    }

    method PurgeAll()
      requires Valid()
      modifies this`connections, this`drops, this`now
      ensures Valid() && IdleDrops() == old(IdleDrops())
      ensures var p := Purge(w, old(connections), old(now));
              connections == p.kept && drops == old(drops) + p.drops && now == p.now
    {
      hide Sane, CountCause, Accounts, Purge;
      ghost var p := Purge(w, connections, now);
      assert out + {} == out;
      assert multiset(p.kept) + One(None) == multiset(p.kept);
      PurgeConserves(w, connections, now);
      PassSane(w, connections, p.kept, None, p.drops, out, drops, next);
      PurgeLoop();
    }

    method PurgeLoop()
      modifies this`connections, this`drops, this`now
      ensures var p := Purge(w, old(connections), old(now));
              connections == p.kept && drops == old(drops) + p.drops && now == p.now
    {
      hide Purge;
      ghost var goal := Purge(w, connections, now).(drops := drops + Purge(w, connections, now).drops);
      var i := 0;
      assert connections[0..] == connections;
      while i < |connections|
        invariant 0 <= i <= |connections| && PurgeLeft(w, connections, i, drops, now) == goal
        decreases |connections| - i
      {
        var c := connections[i];
        PurgeStep(w, connections, i, drops, now);
        var broken := IsBroken(c);
        var drop := broken;
        if !broken {
          var expired := IsExpired(c);
          if expired {
            drop := IsIdle(c);
          }
        }
        if drop {
          Delete(c, if broken then Broken else Expired);
          connections := connections[..i] + connections[i + 1..];
        } else {
          i := i + 1;
        }
      }
      PurgeNothing(w, connections, drops, now);
    }

    method LeastLoop() returns (conn: Option<Conn>)
      modifies this`now
      ensures (conn, now) == Least(w, connections, None, old(now))
    {
      conn := None;
      assert connections[0..] == connections;
      for i := 0 to |connections|
        invariant Least(w, connections[i..], conn, now) == Least(w, connections, None, old(now))
      {
        var c := connections[i];
        assert connections[i..][1..] == connections[i + 1..];
        var expired := IsExpired(c);
        if expired {
          continue;
        }
        if conn == None {
          conn := Some(c);
        } else {
          var a := GetUsedStreams(c);
          var b := GetUsedStreams(conn.value);
          if a < b {
            conn := Some(c);
          }
        }
      }
    }

    /** Takes the first connection that is neither expired nor broken, dropping what it may on the way. */
    method AcquireImmediate() returns (conn: Option<Conn>)
      requires Valid()
      modifies this`connections, this`drops, this`now, this`out
      ensures Valid() && IdleDrops() == old(IdleDrops())
      ensures var r := Take(w, old(connections), old(now));
              && conn == r.conn && connections == r.rest && drops == old(drops) + r.drops && now == r.now
              && out == old(out) + (if conn.Some? then {conn.value} else {})
              && (conn.Some? ==> conn.value !in old(out))
      ensures conn.Some? && w.Monotone() ==> w.Sound(conn.value, old(now))
    {
      hide Sane, CountCause, Accounts, Take;
      if w.Monotone() {
        var j, k := TakeFirst(w, connections, now);
      }
      TakeConserves(w, connections, now);
      ghost var r := Take(w, connections, now);
      PassSane(w, connections, r.rest, r.conn, r.drops, out, drops, next);
      conn := TakeLoop();
      if conn.Some? {
        out := out + {conn.value};
      } else {
        assert out + {} == out;
      }
    }

    method TakeLoop() returns (conn: Option<Conn>)
      modifies this`connections, this`drops, this`now
      ensures var r := Take(w, old(connections), old(now));
              conn == r.conn && connections == r.rest && drops == old(drops) + r.drops && now == r.now
    {
      hide Take;
      ghost var goal := Take(w, connections, now).(drops := drops + Take(w, connections, now).drops);
      var i := 0;
      assert connections[0..] == connections;
      while i < |connections|
        invariant 0 <= i <= |connections| && TakeLeft(w, connections, i, drops, now) == goal
        decreases |connections| - i
      {
        var c := connections[i];
        TakeStep(w, connections, i, drops, now);
        var expired := IsExpired(c);
        if expired {
          var idle := IsIdle(c);
          if idle {
            Delete(c, Expired);
            connections := connections[..i] + connections[i + 1..];
          } else {
            i := i + 1;
          }
          continue;
        }
        var broken := IsBroken(c);
        connections := connections[..i] + connections[i + 1..];
        if broken {
          Delete(c, Broken);
          continue;
        }
        return Some(c);
      }
      TakeNothing(w, connections, drops, now);
      conn := None;
    }

    /** Puts a checked-out connection at the end of the vector, unless it may not be kept. */
    method Push(c: Conn)
      requires Valid() && c in out
      modifies this`connections, this`drops, this`now, this`out
      ensures Valid() && IdleDrops() == old(IdleDrops()) && out == old(out) - {c}
      ensures var (d, u) := PushCheck(w, c, old(now));
              && now == u
              && connections == old(connections) + (if d.None? then [c] else [])
              && drops == old(drops) + (if d.Some? then [d.value] else [])
      ensures w.Monotone() && connections != old(connections) ==> MayStay(w, c, old(now), now)
      ensures w.Monotone() && w.Sound(c, now) ==> connections == old(connections) + [c]
    {
      hide Sane, CountCause;
      if w.Monotone() {
        CheckClears(w, c, now);
      }
      BackSane(w, connections, c, PushCheck(w, c, now).0, out, drops, next);
      out := out - {c};
      var cause := MayNotKeep(c);
      if cause.Some? {
        Delete(c, cause.value);
      } else {
        connections := connections + [c];
      }
    }

    /** The checks that `Push` and `Release` both make. */
    method MayNotKeep(c: Conn) returns (cause: Option<Cause>)
      modifies this`now
      ensures var (d, u) := PushCheck(w, c, old(now));
              && now == u && (cause.None? <==> d.None?)
              && (cause.Some? ==> d == Some(Drop(c, cause.value, now - 1)))
    {
      cause := None;
      var busy := IsExpired(c);
      if busy {
        var idle := IsIdle(c);
        if idle {
          return Some(Expired);
        }
      }
      var broken := IsBroken(c);
      if broken {
        cause := Some(Broken);
      }
    }

    /** `Maintain`'s way of giving a connection back: the same checks, and then `Push` with its own. */
    method Release(c: Conn)
      requires Valid() && c in out
      modifies this`connections, this`drops, this`now, this`out
      ensures Valid() && IdleDrops() == old(IdleDrops()) && out == old(out) - {c}
      ensures Since(old(drops), drops, old(now), now) && Shown() == ReleaseOn(w, old(Shown()), c)
      ensures connections == old(connections) || connections == old(connections) + [c]
      ensures w.Monotone() && w.Sound(c, now) ==> connections == old(connections) + [c]
      ensures w.Monotone() && connections != old(connections) ==> MayStay(w, c, old(now), now)
    {
      hide Sane, CountCause;
      BackSane(w, connections, c, PushCheck(w, c, now).0, out, drops, next);
      if w.Monotone() {
        CheckClears(w, c, now);
      }
      ghost var start := now;
      var cause := MayNotKeep(c);
      if cause.Some? {
        out := out - {c};
        Delete(c, cause.value);
      } else {
        ghost var t := now;
        Push(c);
        if w.Monotone() {
          MayStayWider(w, c, start, start, t, now);
        }
      }
    }

    /** A connect task succeeded: the new connection goes to `Push`. */
    method Connect()
      requires Valid()
      modifies this`connections, this`drops, this`now, this`out, this`next
      ensures Valid() && IdleDrops() == old(IdleDrops()) && out == old(out) && next == old(next) + 1
      ensures var (d, u) := PushCheck(w, old(next), old(now));
              && now == u && old(now) <= u
              && connections == old(connections) + (if d.None? then [old(next)] else [])
              && drops == old(drops) + (if d.Some? then [d.value] else [])
      ensures Since(old(drops), drops, old(now), now)
      ensures w.Monotone() && connections != old(connections) ==> MayStay(w, old(next), old(now), now)
      ensures w.Monotone() && w.Sound(old(next), now) ==> connections == old(connections) + [old(next)]
    {
      hide Sane, CountCause;
      NewSane(w, connections, out, drops, next);
      out := out + {next};
      next := next + 1;
      Push(next - 1);
    }

    /** Other tasks push new connections and purge; `f` counts the connections at the front of the
        vector, and `g` how many of these are left: none that is still sound has gone. */
    method Others(ghost f: nat) returns (ghost g: nat)
      requires Valid() && w.Monotone() && f <= |connections|
      modifies this`connections, this`drops, this`now, this`out, this`next
      ensures Valid() && IdleDrops() == old(IdleDrops()) && out == old(out)
      ensures Since(old(drops), drops, old(now), now) && old(next) <= next && Shown() == OthersOn(w, old(Shown()))
      ensures g <= |connections|
      ensures KeepsFront(w, old(connections), f, connections, g, now)
    {
      hide Sane, CountCause, KeepsFront, Since, OtherOn;
      var steps := w.others(now);
      assert steps[0..] == steps;
      g := f;
      NothingHappened(w, Shown(), f);
      for i := 0 to |steps|
        invariant Valid() && IdleDrops() == old(IdleDrops()) && out == old(out)
        invariant Since(old(drops), drops, old(now), now) && old(next) <= next
        invariant 0 <= g <= |connections| && KeepsFront(w, old(connections), f, connections, g, now)
        invariant OthersFrom(w, Shown(), steps[i..]) == OthersOn(w, old(Shown()))
      {
        assert steps[i..][1..] == steps[i + 1..];
        ghost var m, e := Shown(), g;
        g := OtherKeeps(w, m, steps[i], e);
        match steps[i] {
          case Connected =>
            ConnectedOn(w, m);
            Connect();
          case Requested =>
            RequestedOn(w, m);
            var conn := Acquire(false);
        }
        assert Shown() == OtherOn(w, m, steps[i]);
        SinceThen(old(drops), m.drops, drops, old(now), m.now, now);
        KeepsThen(w, old(connections), f, m.connections, e, m.now, connections, g, now);
      }
    }

    /** The idle connection is closed and its handle deletes it. */
    method CloseIdle(c: Conn)
      requires Valid() && c in out && now > 0 && w.used(c, now - 1) == 0
      modifies this`drops, this`out
      ensures Valid() && IdleDrops() == old(IdleDrops()) + 1 && out == old(out) - {c}
      ensures drops == old(drops) + [Drop(c, IdleDrop, now - 1)]
    {
      hide Sane, CountCause;
      BackSane(w, connections, c, Some(Drop(c, IdleDrop, now - 1)), out, drops, next);
      Delete(c, IdleDrop);
      out := out - {c};
    }

    /** The ping takes its time; however it ends, the connection is given back. */
    method PingAndRelease(c: Conn, ghost f: nat) returns (outcome: Ping, ghost g: nat)
      requires Valid() && w.Monotone() && c in out && f <= |connections|
      modifies this`connections, this`drops, this`now, this`out, this`next, this`pings
      ensures Valid() && IdleDrops() == old(IdleDrops()) && out == old(out) - {c}
      ensures Since(old(drops), drops, old(now), now) && old(next) <= next
      ensures pings == old(pings) + [c] && outcome == w.ping(c, old(now)) && Shown() == PingOn(w, old(Shown()), c)
      ensures g <= |connections|
      ensures KeepsFront(w, old(connections) + [c], f, connections, g, now)
    {
      hide Sane, CountCause, OthersOn, ReleaseOn;
      pings := pings + [c];
      outcome := w.ping(c, now);
      now := now + 1;
      g := Others(f);
      ghost var front, before, t := connections[..g], drops, now;
      Release(c);
      SinceThen(old(drops), before, drops, old(now) + 1, t, now);
      assert connections[..g] == front;
      assert old(connections + [c])[..f] == old(connections)[..f];
    }

    /** What a turn does with the connection it took. */
    method Visit(c: Conn, mayClose: bool, ghost f: nat) returns (closes: bool, at: Time, outcome: Ping, ghost g: nat)
      requires Valid() && w.Monotone() && c in out && f <= |connections|
      modifies this`connections, this`drops, this`now, this`out, this`next, this`pings
      ensures Valid() && out == old(out) - {c} && IdleDrops() == old(IdleDrops()) + if closes then 1 else 0
      ensures Since(old(drops), drops, old(now), now) && old(next) <= next && g <= |connections|
      ensures closes <==> mayClose && w.used(c, old(now)) == 0
      ensures closes ==> connections == old(connections) && pings == old(pings) && g == f
      ensures closes ==> Shown() == ClosedOn(old(Shown()), c)
      ensures !closes ==> at == (if mayClose then old(now) + 1 else old(now)) && outcome == w.ping(c, at)
      ensures !closes ==> pings == old(pings) + [c] && Shown() == PingOn(w, old(Shown()).(now := at), c)
      ensures !closes ==> KeepsFront(w, old(connections) + [c], f, connections, g, now)
      ensures !closes && mayClose ==> SeenBusy(w, c, old(now), now)
    {
      hide Sane, CountCause, KeepsFront, PingOn;
      closes, outcome, g := false, Answered, f;
      if mayClose {
        closes := IsIdle(c);
      }
      at := now;
      if closes {
        CloseIdle(c);
      } else {
        outcome, g := PingAndRelease(c, f);
      }
    }

    /** One maintenance run: at most one idle connection is closed, and only above the minimum size;
        every other connection it meets is pinged and given back. */
    method Maintain(waiters: nat) returns (pinged: seq<Conn>, times: seq<Time>, closed: Option<Conn>, escaped: bool)
      requires Valid() && w.Monotone()
      modifies this`connections, this`drops, this`now, this`out, this`next, this`pings
      ensures Valid() && out == old(out) && pings == old(pings) + pinged
      ensures Round(Shown(), pinged, times, closed, escaped) ==
              if waiters > 0 then Round(old(Shown()), [], [], None, false)
              else Rounds(w, minSize, old(Shown()), |old(connections)|, true)
      ensures Maintenance(w, minSize, waiters, old(Shown()), Shown(), pinged, times, closed, escaped)
    {
      pinged, times, closed, escaped := [], [], None, false;
      SaneConserves(w, connections, drops, next, out);
      NothingGrown(drops);
      hide Sane, CountCause, Rounds, Grown, Pinged, AllBusy;
      if waiters == 0 {
        RoundsReport(w, minSize, Shown(), |connections|, true);
        pinged, times, closed, escaped := MaintainLoop();
      } else {
        NothingPinged(w, now);
      }
    }

    method MaintainLoop() returns (pinged: seq<Conn>, times: seq<Time>, closed: Option<Conn>, escaped: bool)
      requires Valid() && w.Monotone()
      modifies this`connections, this`drops, this`now, this`out, this`next, this`pings
      ensures Valid() && out == old(out) && pings == old(pings) + pinged
      ensures Finished(w, minSize, old(Shown()), Shown(), pinged, closed, escaped)
      ensures Round(Shown(), pinged, times, closed, escaped) == Rounds(w, minSize, old(Shown()), |old(connections)|, true)
    {
      hide Sane, CountCause, Stage, Finished, Rounds, RoundsLeft;
      pinged, times, closed, escaped := [], [], None, false;
      var poolSize := |connections|;
      ghost var f := |connections|;
      ghost var a, goal := Shown(), Rounds(w, minSize, Shown(), poolSize, true);
      StageStarts(w, minSize, a);
      RoundsStart(w, minSize, a, poolSize);
      while poolSize > 0
        invariant Valid() && out == old(out) && 0 <= poolSize && pings == old(pings) + pinged
        invariant 0 <= f <= |connections| && Stage(w, minSize, a, Shown(), f, poolSize, pinged, closed)
        invariant RoundsLeft(w, minSize, Shown(), poolSize, pinged, times, closed) == goal
      {
        var stop;
        stop, pinged, times, closed, escaped, f := TakeTurn(poolSize, pinged, times, closed, a, f);
        if stop {
          return;
        }
        poolSize := poolSize - 1;
      }
      StageFinishes(w, minSize, a, Shown(), f, 0, pinged, closed, false);
      RoundsEnd(w, minSize, Shown(), pinged, times, closed);
      escaped := false;
    }

    /** One turn of the loop: another idle drop is allowed while none has been closed. */
    method TakeTurn(poolSize: nat, pinged: seq<Conn>, times: seq<Time>, closed: Option<Conn>, ghost a: Moment, ghost f: nat)
      returns (stop: bool, pinged': seq<Conn>, times': seq<Time>, closed': Option<Conn>, escaped: bool, ghost g: nat)
      requires Valid() && w.Monotone() && poolSize > 0
      requires f <= |connections| && Stage(w, minSize, a, Shown(), f, poolSize, pinged, closed)
      modifies this`connections, this`drops, this`now, this`out, this`next, this`pings
      ensures Valid() && out == old(out) && g <= |connections|
      ensures pinged <= pinged' && pings == old(pings) + pinged'[|pinged|..]
      ensures !stop ==>
                && Stage(w, minSize, a, Shown(), g, poolSize - 1, pinged', closed')
                && RoundsLeft(w, minSize, old(Shown()), poolSize, pinged, times, closed)
                   == RoundsLeft(w, minSize, Shown(), poolSize - 1, pinged', times', closed')
      ensures stop ==>
                && Finished(w, minSize, a, Shown(), pinged', closed', escaped)
                && RoundsLeft(w, minSize, old(Shown()), poolSize, pinged, times, closed)
                   == Round(Shown(), pinged', times', closed', escaped)
    {
      hide Sane, CountCause, Since, Stage, Holding, Finished, RoundsLeft, KeepsFront, SeenBusy, Take, OthersOn, PingOn;
      pinged', times', closed', escaped, stop := pinged, times, closed, false, false;
      RoundsNext(w, minSize, Shown(), poolSize, pinged, times, closed);
      ghost var m := Shown();
      g := Others(f);
      StageOthers(w, minSize, a, m, f, Shown(), g, poolSize, pinged, closed);
      g := StageTake(w, minSize, a, Shown(), g, poolSize, pinged, closed);
      var conn := AcquireImmediate();
      if conn.None? {
        stop := true;
        return;
      }
      m := Shown();
      ghost var e := g;
      var closes, at, outcome;
      closes, at, outcome, g := Visit(conn.value, poolSize > minSize && closed.None?, g);
      if closes {
        closed' := conn;
        StageClosed(w, minSize, a, m, e, poolSize, pinged, conn.value);
      } else {
        pinged', times' := pinged + [conn.value], times + [at];
        StagePinged(w, minSize, a, m, e, Shown(), g, poolSize, pinged, closed, conn.value);
        if outcome == Escaped {
          stop, escaped := true, true;
          StageFinishes(w, minSize, a, Shown(), g, poolSize - 1, pinged', closed', true);
        }
      }
    }

    /** `Clear`: everything listed is deleted. */
    method Clear()
      modifies this`connections, this`cleared
      ensures connections == [] && cleared == old(cleared) + old(connections)
    {
      var i := 0;
      while i < |connections|
        invariant 0 <= i <= |connections| && connections == old(connections)
        invariant cleared == old(cleared) + connections[..i]
      {
        assert connections[..i + 1] == connections[..i] + [connections[i]];
        cleared := cleared + [connections[i]];
        i := i + 1;
      }
      assert connections[..i] == connections;
      connections := [];
    }

    /** The destructor, once `Maintain` has stopped and no connect task is left: every connection ever
        made has then been deleted, once; here only what was still listed. */
    method Destroy()
      requires Valid() && out == {} && cleared == []
      modifies this`connections, this`cleared
      ensures connections == [] && cleared == old(connections)
      ensures forall c: Conn :: c < next ==> Conns(drops)[c] + multiset(cleared)[c] == 1
      ensures |drops| + |cleared| == next && AllJustified(w, drops)
    {
      AllGone(w, connections, drops, next);
      Clear();
      assert [] + old(connections) == old(connections);
    }
  }

  lemma AllGone(w: World, xs: seq<Conn>, ds: seq<Drop>, next: Conn)
    requires Sane(w, xs, {}, ds, next)
    ensures forall c: Conn :: c < next ==> Conns(ds)[c] + multiset(xs)[c] == 1
    ensures |ds| + |xs| == next && AllJustified(w, ds)
  {
    ConnsSize(ds);
    forall c: Conn | c < next ensures Conns(ds)[c] + multiset(xs)[c] == 1 {
      assert multiset(xs)[c] + multiset({})[c] + Conns(ds)[c] == 1;
    }
    hide Conns;
  }

  /** What the purge comes to from position `i` on, with `ds` deleted so far. */
  ghost function PurgeLeft(w: World, xs: seq<Conn>, i: nat, ds: seq<Drop>, t: Time): Pass
    requires i <= |xs|
  {
    var p := Purge(w, xs[i..], t);
    p.(kept := xs[..i] + p.kept, drops := ds + p.drops)
  }

  lemma PurgeNothing(w: World, xs: seq<Conn>, ds: seq<Drop>, t: Time)
    ensures PurgeLeft(w, xs, |xs|, ds, t) == Pass(xs, ds, t)
  {
    assert xs[|xs|..] == [] && xs[..|xs|] == xs;
  }

  lemma PurgeStep(w: World, xs: seq<Conn>, i: nat, ds: seq<Drop>, t: Time)
    requires i < |xs|
    ensures var (d, u) := PurgeCheck(w, xs[i], t);
            PurgeLeft(w, xs, i, ds, t) ==
              if d.Some? then PurgeLeft(w, xs[..i] + xs[i + 1..], i, ds + [d.value], u)
              else PurgeLeft(w, xs, i + 1, ds, u)
  {
    var (d, u) := PurgeCheck(w, xs[i], t);
    assert xs[i..][1..] == xs[i + 1..];
    Erase(xs, i);
    var rest := Purge(w, xs[i + 1..], u);
    assert d.Some? ==> ds + ([d.value] + rest.drops) == ds + [d.value] + rest.drops;
    assert xs[..i + 1] + rest.kept == xs[..i] + ([xs[i]] + rest.kept);
  }

  /** What `AcquireImmediate` comes to from position `i` on, with `ds` deleted so far. */
  ghost function TakeLeft(w: World, xs: seq<Conn>, i: nat, ds: seq<Drop>, t: Time): Taken
    requires i <= |xs|
  {
    var r := Take(w, xs[i..], t);
    r.(rest := xs[..i] + r.rest, drops := ds + r.drops)
  }

  lemma TakeNothing(w: World, xs: seq<Conn>, ds: seq<Drop>, t: Time)
    ensures TakeLeft(w, xs, |xs|, ds, t) == Taken(None, xs, ds, t)
  {
    assert xs[|xs|..] == [] && xs[..|xs|] == xs;
  }

  lemma TakeStep(w: World, xs: seq<Conn>, i: nat, ds: seq<Drop>, t: Time)
    requires i < |xs|
    ensures var c, erased := xs[i], xs[..i] + xs[i + 1..];
            TakeLeft(w, xs, i, ds, t) ==
              if w.expired(c, t) then
                if w.used(c, t + 1) == 0 then TakeLeft(w, erased, i, ds + [Drop(c, Expired, t + 1)], t + 2)
                else TakeLeft(w, xs, i + 1, ds, t + 2)
              else if w.broken(c, t + 1) then TakeLeft(w, erased, i, ds + [Drop(c, Broken, t + 1)], t + 2)
              else Taken(Some(c), erased, ds, t + 2)
  {
    assert xs[i..][1..] == xs[i + 1..];
    Erase(xs, i);
    var rest := Take(w, xs[i + 1..], t + 2);
    assert ds + ([Drop(xs[i], Expired, t + 1)] + rest.drops) == ds + [Drop(xs[i], Expired, t + 1)] + rest.drops;
    assert ds + ([Drop(xs[i], Broken, t + 1)] + rest.drops) == ds + [Drop(xs[i], Broken, t + 1)] + rest.drops;
    assert xs[..i + 1] + rest.rest == xs[..i] + ([xs[i]] + rest.rest);
    assert ds + [] == ds;
  }

  lemma Erase(xs: seq<Conn>, i: nat)
    requires i < |xs|
    ensures (xs[..i] + xs[i + 1..])[..i] == xs[..i] && (xs[..i] + xs[i + 1..])[i..] == xs[i + 1..]
  {
  }
}
