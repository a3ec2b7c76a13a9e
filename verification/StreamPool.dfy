/** The pool of stream ids (src/detail/stream_pool.hpp:18-62, src/detail/stream_pool.cpp:7-21) and its
    place in the multiplexer. */
module StreamIds {
  import opened Bytes
  import opened Multiplexer

  class StreamPool {
    var queue: seq<int>      // a bounded queue that promises no order

    ghost predicate Valid() reads this { |queue| <= MAX_STREAMS }

    constructor ()
      ensures Valid() && multiset(queue) == Start().free
      ensures |queue| == 1024 && forall k :: 0 <= k < 1024 ==> queue[k] == k
    {
      queue := [];
      new;
      var i := 0;
      while i < MAX_STREAMS
        invariant 0 <= i <= MAX_STREAMS && |queue| == i
        invariant forall k :: 0 <= k < i ==> queue[k] == k
      {
        Release(i);
        i := i + 1;
      }
      CountsUp(queue);
    }

    /** Gives out any one id; `None` is the exception thrown when none comes free before the deadline. */
    method Acquire() returns (id: Option<int>)
      requires Valid()
      modifies this
      ensures Valid()
      ensures id.None? <==> old(queue) == []
      ensures id.Some? ==> old(multiset(queue)) == multiset(queue) + multiset{id.value}
      ensures id.None? ==> queue == old(queue)
    {
      if queue == [] {
        return None;
      }
      var k :| 0 <= k < |queue|;
      assert queue == queue[..k] + [queue[k]] + queue[k + 1..];
      id := Some(queue[k]);
      queue := queue[..k] + queue[k + 1..];
    }

    /** A full queue drops the id. */
    method Release(id: int)
      requires Valid()
      modifies this
      ensures Valid()
      ensures queue == if old(|queue|) < MAX_STREAMS then old(queue) + [id] else old(queue)
    {
      if |queue| < MAX_STREAMS {
        queue := queue + [id];
      }
    }

    function GetRemainingStreams(): nat
      reads this
    {
      |queue|
    }

    function GetUsedStreams(): int
      reads this
    {
      MAX_STREAMS - GetRemainingStreams()
    }

    /** Whenever the pool holds the machine's free ids, acquiring is the machine's `Acquire` of some
        free id, and it fails exactly when 1024 calls are in progress. */
    method AcquireStep(ghost steps: seq<Step>, r: nat) returns (id: Option<int>)
      requires Valid() && multiset(queue) == Run(Start(), steps).free && r !in Run(Start(), steps).calls
      modifies this
      ensures Valid()
      ensures id.Some? ==> Enabled(Run(Start(), steps), Step.Acquire(r, id.value))
      ensures id.Some? ==> multiset(queue) == Run(Start(), steps + [Step.Acquire(r, id.value)]).free
      ensures id.None? <==> |ActiveCalls(Run(Start(), steps))| == 1024
    {
      UsedStreamsAreCalls(steps);
      assert old(|multiset(queue)|) == |queue|;
      id := Acquire();
      if id.Some? {
        RunSnoc(steps, Step.Acquire(r, id.value));
        TakesId(Run(Start(), steps), r, id.value);
      }
    }

    /** Releasing the id of a call in progress never finds the queue full: no id is ever lost. */
    method ReleaseStep(ghost steps: seq<Step>, ghost r: nat, id: int)
      requires Valid() && multiset(queue) == Run(Start(), steps).free
      requires Enabled(Run(Start(), steps), Step.Release(r)) && Run(Start(), steps).calls[r].stream == id
      modifies this
      ensures Valid() && multiset(queue) == Run(Start(), steps + [Step.Release(r)]).free
      ensures queue == old(queue) + [id]
    {
      UsedStreamsAreCalls(steps);
      assert Active(Run(Start(), steps), r);
      assert |multiset(queue)| == |queue|;
      RunSnoc(steps, Step.Release(r));
      StepFree(Run(Start(), steps), Step.Release(r));
      Release(id);
    }
  }

  /** As long as the pool holds the machine's free ids, the streams it reports as used are the calls in
      progress, between 0 and 1024; an idle connection is one without a call. */
  lemma UsedAreCalls(pool: StreamPool, steps: seq<Step>)
    requires pool.Valid() && multiset(pool.queue) == Run(Start(), steps).free
    ensures pool.GetUsedStreams() == |ActiveCalls(Run(Start(), steps))| <= 1024
    ensures pool.GetUsedStreams() == 0 <==> forall r :: !Active(Run(Start(), steps), r)
  {
    UsedStreamsAreCalls(steps);
    assert |multiset(pool.queue)| == |pool.queue|;
    var st := Run(Start(), steps);
    hide Run, Start;
    assert forall r :: Active(st, r) <==> r in ActiveCalls(st);
    if pool.GetUsedStreams() != 0 {
      var r :| r in ActiveCalls(st);
    }
  }

  lemma CountsUp(q: seq<int>)
    requires |q| == MAX_STREAMS && forall k :: 0 <= k < MAX_STREAMS ==> q[k] == k
    ensures multiset(q) == Start().free
  {
    UpTo(q, |q|);
    assert q[..|q|] == q;
  }

  lemma {:induction false} UpTo(q: seq<int>, n: nat)
    requires n <= |q| <= MAX_STREAMS && forall k :: 0 <= k < |q| ==> q[k] == k
    ensures multiset(q[..n]) == multiset(IdsBelow(n))
  {
    if n > 0 {
      UpTo(q, n - 1);
      assert q[..n] == q[..n - 1] + [n - 1];
      assert IdsBelow(n) == IdsBelow(n - 1) + {n - 1};
    }
  }
}
