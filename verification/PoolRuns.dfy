/** Whole lives of a connection pool, and how it spreads requests over its connections. */
module PoolRuns {
  import opened Bytes
  import opened Pool

  /** What can happen to a pool from the outside. */
  datatype Operation = Connected | Requested(deadlineReached: bool) | Maintained(waiters: nat)

  /** What an operation reports: the connection handed out, and what a maintenance run did. */
  datatype Report = Report(conn: Option<Conn>, pinged: seq<Conn>, times: seq<Time>, closed: Option<Conn>, escaped: bool)

  /** One operation takes the pool from `a` to `b`. */
  ghost predicate Happened(w: World, minSize: nat, op: Operation, a: Moment, b: Moment, r: Report) {
    match op
    case Connected =>
      var (d, u) := PushCheck(w, a.next, a.now);
      b == Moment(a.connections + (if d.None? then [a.next] else []), a.drops + (if d.Some? then [d.value] else []), a.next + 1, u)
    case Requested(reached) =>
      if reached then b == a && r.conn == None
      else
        var p := Purge(w, a.connections, a.now);
        var (c, u) := Least(w, p.kept, None, p.now);
        b == Moment(p.kept, a.drops + p.drops, a.next, u) && r.conn == c
    case Maintained(waiters) =>
      && Maintenance(w, minSize, waiters, a, b, r.pinged, r.times, r.closed, r.escaped)
      && Round(b, r.pinged, r.times, r.closed, r.escaped) ==
           if waiters > 0 then Round(a, [], [], None, false) else Rounds(w, minSize, a, |a.connections|, true)
  }

  /** The operations one after the other. */
  ghost predicate History(w: World, minSize: nat, ops: seq<Operation>, moments: seq<Moment>, reports: seq<Report>) {
    && |moments| == |ops| + 1 && |reports| == |ops| && moments[0] == Moment([], [], 0, 1)
    && forall i :: 0 <= i < |ops| ==> Happened(w, minSize, ops[i], moments[i], moments[i + 1], reports[i])
  }

  lemma HistoryGrows(w: World, minSize: nat, ops: seq<Operation>, moments: seq<Moment>, reports: seq<Report>,
                     op: Operation, b: Moment, r: Report)
    requires History(w, minSize, ops, moments, reports) && Happened(w, minSize, op, moments[|ops|], b, r)
    ensures History(w, minSize, ops + [op], moments + [b], reports + [r])
  {
    hide Happened;
  }

  /** After a request from `a` to `b` nothing listed was broken at its start, or had expired by then without
      being seen busy since; and what it was given is listed and was sound at its start. */
  ghost predicate Cleared(w: World, a: Moment, b: Moment, conn: Option<Conn>) {
    && (forall c :: c in b.connections ==> MayStay(w, c, a.now, b.now))
    && (conn.Some? ==> conn.value in b.connections && w.Sound(conn.value, a.now))
  }

  lemma RequestClears(w: World, minSize: nat, a: Moment, b: Moment, r: Report)
    requires w.Monotone() && Happened(w, minSize, Operation.Requested(false), a, b, r)
    ensures Cleared(w, a, b, r.conn)
  {
    AcquireClears(w, a.connections, a.now);
    hide Purge, Least, MayStay;
  }

  /** In every run of connects, requests and maintenance, ended by the destructor: `drops` are the
      deletions before the end, each of a connection seen broken, seen expired and then without a
      stream in use, or closed without a stream in use; `cleared` is what the destructor found listed;
      and each of the connections ever made is in one of the two, once. */
  method Live(w: World, minSize: nat, ops: seq<Operation>)
    returns (made: nat, drops: seq<Drop>, cleared: seq<Conn>, reports: seq<Report>, ghost moments: seq<Moment>)
    requires w.Monotone()
    ensures History(w, minSize, ops, moments, reports)
    ensures var last := moments[|ops|]; drops == last.drops && cleared == last.connections && made == last.next
    ensures AllJustified(w, drops)
    ensures |drops| + |cleared| == made && forall c: Conn :: c < made ==> Conns(drops)[c] + multiset(cleared)[c] == 1
    ensures forall i :: 0 <= i < |ops| && ops[i] == Operation.Requested(false) ==> Cleared(w, moments[i], moments[i + 1], reports[i].conn)
  {
    hide Sane, CountCause, Happened, Conns, AllJustified;
    var pool := new ConnectionPool(w, minSize, 1);
    reports, moments := [], [pool.Shown()];
    assert ops[..0] == [];
    for i := 0 to |ops|
      invariant pool.Valid() && pool.out == {} && pool.cleared == [] && fresh(pool)
      invariant pool.w == w && pool.minSize == minSize
      invariant History(w, minSize, ops[..i], moments, reports) && moments[i] == pool.Shown()
    {
      ghost var a := pool.Shown();
      var report := Step(pool, ops[i]);
      HistoryGrows(w, minSize, ops[..i], moments, reports, ops[i], pool.Shown(), report);
      assert ops[..i + 1] == ops[..i] + [ops[i]];
      moments := moments + [pool.Shown()];
      reports := reports + [report];
    }
    assert ops[..|ops|] == ops;
    forall i | 0 <= i < |ops| && ops[i] == Operation.Requested(false)
      ensures Cleared(w, moments[i], moments[i + 1], reports[i].conn)
    {
      RequestClears(w, minSize, moments[i], moments[i + 1], reports[i]);
    }
    pool.Destroy();
    made, drops, cleared := pool.next, pool.drops, pool.cleared;
  }

  method Step(pool: ConnectionPool, op: Operation) returns (report: Report)
    requires pool.Valid() && pool.w.Monotone()
    modifies pool`connections, pool`drops, pool`now, pool`out, pool`next, pool`pings
    ensures pool.Valid() && pool.out == old(pool.out)
    ensures Happened(pool.w, pool.minSize, op, old(pool.Shown()), pool.Shown(), report)
  {
    hide Sane, CountCause, Conns, Maintenance, Rounds, Purge, Least, PushCheck;
    report := Report(None, [], [], None, false);
    match op {
      case Connected => pool.Connect();
      case Requested(reached) =>
        var conn := pool.Acquire(reached);
        report := report.(conn := conn);
      case Maintained(waiters) =>
        var pinged, times, closed, escaped := pool.Maintain(waiters);
        report := Report(None, pinged, times, closed, escaped);
    }
  }
}

module Dispatch {
  import opened Bytes
  import opened Pool
  import Multiplexer

  const MAX_STREAMS := Multiplexer.MAX_STREAMS

  /** Streams in use on each listed connection at one instant. */
  function Loads(w: World, xs: seq<Conn>, t: Time): (r: seq<nat>)
    ensures |r| == |xs| && forall i :: 0 <= i < |xs| ==> r[i] == w.used(xs[i], t)
  {
    seq(|xs|, i requires 0 <= i < |xs| => w.used(xs[i], t))
  }

  function Sum(us: seq<nat>): nat { if us == [] then 0 else us[0] + Sum(us[1..]) }

  /** No two loads differ by more than one. */
  ghost predicate Level(us: seq<nat>) {
    forall i, j :: 0 <= i < |us| && 0 <= j < |us| ==> us[i] <= us[j] + 1
  }

  predicate Distinct(xs: seq<Conn>) { forall i, j :: 0 <= i < j < |xs| ==> xs[i] != xs[j] }

  /** The connections are sound from `t` to `u`. */
  ghost predicate SoundThrough(w: World, xs: seq<Conn>, t: Time, u: Time) {
    forall c, v :: c in xs && t <= v <= u ==> w.Sound(c, v)
  }

  /** What `Acquire` picks when it starts at `t`, and when it is done. */
  function Picked(w: World, xs: seq<Conn>, t: Time): (Option<Conn>, Time) {
    var p := Purge(w, xs, t);
    Least(w, p.kept, None, p.now)
  }

  /** One request: `Acquire` runs undisturbed from `t` and by `u` the request has taken a stream of the
      connection picked, unless that has all its streams in use. */
  ghost predicate Dispatched(w: World, xs: seq<Conn>, t: Time, u: Time) {
    var (c, v) := Picked(w, xs, t);
    && t <= v <= u && Quiet(w, xs, t, v)
    && forall x :: x in xs ==>
         w.used(x, u) == w.used(x, t) + if c == Some(x) && w.used(x, t) < MAX_STREAMS then 1 else 0
  }

  lemma {:induction false} SoundKept(w: World, xs: seq<Conn>, t: Time, u: Time)
    requires SoundThrough(w, xs, t, u) && Purge(w, xs, t).now <= u
    ensures Purge(w, xs, t).kept == xs && t <= Purge(w, xs, t).now
    decreases |xs|
  {
    PurgeTime(w, xs, t);
    if xs != [] {
      var (d, v) := PurgeCheck(w, xs[0], t);
      PurgeTime(w, xs[1..], v);
      assert xs[0] in xs && w.Sound(xs[0], t) && w.Sound(xs[0], t + 1);
      SoundKept(w, xs[1..], v, u);
      assert xs == [xs[0]] + xs[1..];
    }
  }

  /** The position of the least-loaded connection. */
  lemma PickedIsLeast(w: World, xs: seq<Conn>, t: Time, u: Time) returns (k: nat)
    requires xs != [] && Dispatched(w, xs, t, u) && SoundThrough(w, xs, t, u)
    ensures k < |xs| && Picked(w, xs, t).0 == Some(xs[k])
    ensures forall j :: 0 <= j < |xs| ==> w.used(xs[k], t) <= w.used(xs[j], t)
  {
    var p := Purge(w, xs, t);
    LeastTime(w, p.kept, None, p.now);
    SoundKept(w, xs, t, u);
    forall c, v | c in xs && p.now <= v <= Picked(w, xs, t).1
      ensures w.used(c, v) == w.used(c, p.now) && w.expired(c, v) == w.expired(c, p.now)
    {
      assert w.used(c, v) == w.used(c, t) && w.used(c, p.now) == w.used(c, t);
    }
    LeastIsFirstLeast(w, xs, p.now);
    assert xs[0] in xs && !w.expired(xs[0], p.now) by { assert w.Sound(xs[0], p.now); }
    k :| 0 <= k < |xs| && LeastAt(w, xs, p.now, k) && xs[k] == Picked(w, xs, t).0.value;
    forall j | 0 <= j < |xs| ensures w.used(xs[k], t) <= w.used(xs[j], t) {
      assert xs[j] in xs && w.Sound(xs[j], p.now);
    }
  }

  /** The connections `Acquire` may choose from: those the purge keeps and that have not expired. */
  predicate Eligible(w: World, xs: seq<Conn>, t: Time, x: Conn) {
    x in Purge(w, xs, t).kept && !w.expired(x, t)
  }

  lemma {:induction false} PurgeKeepsListed(w: World, xs: seq<Conn>, t: Time)
    ensures forall x :: x in Purge(w, xs, t).kept ==> x in xs
    decreases |xs|
  {
    if xs != [] {
      PurgeKeepsListed(w, xs[1..], PurgeCheck(w, xs[0], t).1);
    }
  }

  /** For every vector, with broken, expired and busy connections in it: undisturbed, a request is given
      a connection exactly when one is eligible, and finds no free stream on it exactly when every
      eligible connection has all its streams in use. */
  lemma FullOnlyWhenAllFull(w: World, xs: seq<Conn>, t: Time)
    requires Quiet(w, xs, t, Picked(w, xs, t).1)
    ensures var c := Picked(w, xs, t).0;
            && (c.Some? <==> exists x :: Eligible(w, xs, t, x))
            && (c.Some? ==> Eligible(w, xs, t, c.value))
            && (c.Some? ==> (w.used(c.value, t) >= MAX_STREAMS <==>
                               forall x :: Eligible(w, xs, t, x) ==> w.used(x, t) >= MAX_STREAMS))
  {
    var p := Purge(w, xs, t);
    var (c, v) := Picked(w, xs, t);
    PurgeTime(w, xs, t);
    PurgeKeepsListed(w, xs, t);
    LeastTime(w, p.kept, None, p.now);
    forall x, u | x in p.kept && p.now <= u <= v
      ensures w.used(x, u) == w.used(x, p.now) && w.expired(x, u) == w.expired(x, p.now)
    {
      assert w.used(x, u) == w.used(x, t) && w.used(x, p.now) == w.used(x, t);
    }
    forall x | x in p.kept ensures w.used(x, p.now) == w.used(x, t) && w.expired(x, p.now) == w.expired(x, t) {
      assert x in xs;
    }
    LeastIsFirstLeast(w, p.kept, p.now);
    hide Purge, Least, Quiet;
    if c.Some? {
      var k :| 0 <= k < |p.kept| && LeastAt(w, p.kept, p.now, k) && p.kept[k] == c.value;
      assert Eligible(w, xs, t, c.value);
    }
  }

  // ----- levelling -----

  lemma {:induction false} SumBounds(us: seq<nat>, m: int)
    requires forall i :: 0 <= i < |us| ==> us[i] <= m
    ensures Sum(us) <= |us| * m
  {
    if us != [] {
      SumBounds(us[1..], m);
    }
  }

  lemma {:induction false} SumAtLeast(us: seq<nat>, m: int)
    requires forall i :: 0 <= i < |us| ==> m <= us[i]
    ensures |us| * m <= Sum(us)
  {
    if us != [] {
      SumAtLeast(us[1..], m);
    }
  }

  lemma {:induction false} SumBump(us: seq<nat>, k: nat)
    requires k < |us|
    ensures Sum(us[k := us[k] + 1]) == Sum(us) + 1
  {
    if k > 0 {
      SumBump(us[1..], k - 1);
      assert us[k := us[k] + 1][1..] == us[1..][k - 1 := us[1..][k - 1] + 1];
    } else {
      assert us[k := us[k] + 1][1..] == us[1..];
    }
  }

  /** Level loads lie strictly within one of their average. */
  lemma {:induction false} LevelIsAverage(us: seq<nat>, k: nat)
    requires Level(us) && k < |us|
    ensures var a: int := us[k]; |us| * (a - 1) < Sum(us) < |us| * (a + 1)
  {
    var n, a: int := |us|, us[k];
    SumSplit(us, k);
    SumBounds(us[..k], a + 1);
    SumBounds(us[k + 1..], a + 1);
    SumAtLeast(us[..k], a - 1);
    SumAtLeast(us[k + 1..], a - 1);
    Spread(k, n - k - 1, a + 1);
    Spread(k, n - k - 1, a - 1);
  }

  lemma Spread(a: nat, b: nat, m: int)
    ensures a * m + b * m + m == (a + b + 1) * m
  {
  }

  lemma {:induction false} SumSplit(us: seq<nat>, k: nat)
    requires k < |us|
    ensures Sum(us) == Sum(us[..k]) + us[k] + Sum(us[k + 1..])
  {
    if k > 0 {
      SumSplit(us[1..], k - 1);
      assert us[..k] == [us[0]] + us[1..][..k - 1];
      assert us[1..][k - 1 + 1..] == us[k + 1..];
    }
  }

  /** One request keeps the loads level and adds one stream, until all are in use. */
  lemma LevelKept(w: World, xs: seq<Conn>, t: Time, u: Time)
    requires xs != [] && Distinct(xs) && Dispatched(w, xs, t, u) && SoundThrough(w, xs, t, u)
    requires Level(Loads(w, xs, t)) && Sum(Loads(w, xs, t)) <= |xs| * MAX_STREAMS
    requires forall x :: x in xs ==> w.used(x, t) <= MAX_STREAMS
    ensures Level(Loads(w, xs, u))
    ensures forall x :: x in xs ==> w.used(x, u) <= MAX_STREAMS
    ensures Sum(Loads(w, xs, u)) == if Sum(Loads(w, xs, t)) < |xs| * MAX_STREAMS then Sum(Loads(w, xs, t)) + 1 else Sum(Loads(w, xs, t))
  {
    var k := PickedIsLeast(w, xs, t, u);
    var us := Loads(w, xs, t);
    hide Dispatched, SoundThrough, Level, Sum, Distinct;
    OneMore(w, xs, t, u, k);
    assert forall i :: 0 <= i < |xs| ==> us[i] <= MAX_STREAMS by {
      forall i | 0 <= i < |xs| ensures us[i] <= MAX_STREAMS { assert xs[i] in xs; }
    }
    LeastBumped(us, k, MAX_STREAMS);
    forall x | x in xs ensures w.used(x, u) <= MAX_STREAMS {
      var i :| 0 <= i < |xs| && xs[i] == x;
      assert w.used(x, u) == Loads(w, xs, u)[i];
    }
  }

  /** The request takes a stream of connection `k`, if it has one left, and of no other. */
  lemma OneMore(w: World, xs: seq<Conn>, t: Time, u: Time, k: nat)
    requires Distinct(xs) && Dispatched(w, xs, t, u) && k < |xs| && Picked(w, xs, t).0 == Some(xs[k])
    ensures Loads(w, xs, u) == Bumped(Loads(w, xs, t), k, MAX_STREAMS)
  {
    hide Picked, Quiet;
    forall i | 0 <= i < |xs| ensures Loads(w, xs, u)[i] == Bumped(Loads(w, xs, t), k, MAX_STREAMS)[i] {
      assert xs[i] in xs;
    }
  }

  function Bumped(us: seq<nat>, k: nat, m: nat): (r: seq<nat>)
    requires k < |us|
  {
    if us[k] < m then us[k := us[k] + 1] else us
  }

  /** Adding one to a least load, up to a limit `m`, keeps the loads level. */
  lemma LeastBumped(us: seq<nat>, k: nat, m: nat)
    requires Level(us) && k < |us| && forall i :: 0 <= i < |us| ==> us[k] <= us[i] <= m
    ensures var r := Bumped(us, k, m);
            && Level(r) && (forall i :: 0 <= i < |us| ==> r[i] <= m)
            && Sum(r) == if Sum(us) < |us| * m then Sum(us) + 1 else Sum(us)
  {
    hide Sum;
    if us[k] < m {
      SumBump(us, k);
      SumShort(us, k, m);
    } else {
      SumAtLeast(us, m);
    }
  }

  lemma SumShort(us: seq<nat>, k: nat, m: nat)
    requires k < |us| && us[k] < m && forall i :: 0 <= i < |us| ==> us[i] <= m
    ensures Sum(us) < |us| * m
  {
    SumSplit(us, k);
    SumBounds(us[..k], m);
    SumBounds(us[k + 1..], m);
    Spread(k, |us| - k - 1, m);
  }

  /** Requests one after another, the i-th between `ts[i]` and `ts[i + 1]`. */
  ghost predicate Dispatches(w: World, xs: seq<Conn>, ts: seq<Time>) {
    && ts != [] && (forall x :: x in xs ==> w.used(x, ts[0]) == 0)
    && forall i :: 0 <= i < |ts| - 1 ==> Dispatched(w, xs, ts[i], ts[i + 1]) && SoundThrough(w, xs, ts[i], ts[i + 1])
  }

  function Served(k: nat, n: nat): nat { if k < n * MAX_STREAMS then k else n * MAX_STREAMS }

  lemma {:induction false} LoadsAfter(w: World, xs: seq<Conn>, ts: seq<Time>)
    requires xs != [] && Distinct(xs) && Dispatches(w, xs, ts)
    ensures var us := Loads(w, xs, ts[|ts| - 1]);
            && Level(us) && Sum(us) == Served(|ts| - 1, |xs|)
            && forall x :: x in xs ==> w.used(x, ts[|ts| - 1]) <= MAX_STREAMS
    decreases |ts|
  {
    var k := |ts| - 1;
    assert forall i :: 0 <= i < |xs| ==> xs[i] in xs;
    hide Dispatched, SoundThrough;
    if k == 0 {
      SumBounds(Loads(w, xs, ts[0]), 0);
    } else {
      var before := ts[..k];
      assert Dispatches(w, xs, before) by {
        forall i | 0 <= i < k - 1 ensures Dispatched(w, xs, before[i], before[i + 1]) && SoundThrough(w, xs, before[i], before[i + 1]) {
          assert before[i] == ts[i] && before[i + 1] == ts[i + 1];
        }
      }
      LoadsAfter(w, xs, before);
      assert ts[k - 1] == before[k - 1];
      LevelKept(w, xs, ts[k - 1], ts[k - 1 + 1]);
    }
  }

  /** After `k` requests to idle healthy connections, none of them finished, each of the `n` connections
      has floor(m / n) or ceil(m / n) streams in use, where m is `k`, or all streams if there are fewer. */
  lemma EvenlySpread(w: World, xs: seq<Conn>, ts: seq<Time>, x: Conn)
    requires xs != [] && Distinct(xs) && Dispatches(w, xs, ts) && x in xs
    ensures var n, m, load := |xs|, Served(|ts| - 1, |xs|), w.used(x, ts[|ts| - 1]);
            load == m / n || load == (m + n - 1) / n
  {
    LoadsAfter(w, xs, ts);
    var i :| 0 <= i < |xs| && xs[i] == x;
    var us := Loads(w, xs, ts[|ts| - 1]);
    LevelIsAverage(us, i);
    FloorOrCeil(us[i], Sum(us), |xs|);
  }

  lemma FloorOrCeil(a: nat, m: nat, n: nat)
    requires n > 0 && n * (a - 1) < m < n * (a + 1)
    ensures a == m / n || a == (m + n - 1) / n
  {
    if n * a <= m {
      Quotient(m, n, a);
    } else {
      Quotient(m + n - 1, n, a);
    }
  }

  lemma Quotient(m: nat, n: nat, q: nat)
    requires n > 0 && n * q <= m < n * q + n
    ensures m / n == q
  {
    assert m == n * (m / n) + m % n;
    Mono(n, m / n + 1, q);
    Mono(n, q + 1, m / n);
  }

  lemma Mono(n: nat, a: int, b: int)
    ensures a <= b ==> n * a <= n * b
  {
  }
}
