/** Concurrent senders sharing one socket under `_send_mutex` (`SendMessage`,
    src/detail/connection_impl.cpp:306-319): what the peer can recover from the byte stream. */
module SendMutex {
  import opened Bytes
  import opened Frames

  /** One `SendAll`: whose frame, and how many of its bytes are on the wire. */
  datatype Send = Send(sender: nat, frame: Frame, sent: nat)

  /** `pending[i]`: frames sender `i` has serialised and not begun to send. `holder`: the send inside the
      mutex. `ended`: the sends that are over, whole or cut short, in the order in which they ended. */
  datatype State = State(pending: seq<seq<Frame>>, holder: Option<Send>, wire: seq<byte>, ended: seq<Send>)

  datatype Step =
    | Lock(sender: nat)     // a waiting sender takes the mutex
    | Write(count: nat)     // the kernel accepts some more bytes of the current frame
    | Unlock                // the whole frame is out
    | Abort                 // deadline or socket error inside SendAll

  predicate Waiting(s: State, i: nat) { s.holder.None? && i < |s.pending| && s.pending[i] != [] }

  predicate FrameFits(f: Frame) { FitsFrame(f) }

  predicate SendFits(x: Send) { FitsFrame(x.frame) && x.sent <= |EncFrame(x.frame)| }

  predicate Sane(s: State) {
    && (forall i, j :: 0 <= i < |s.pending| && 0 <= j < |s.pending[i]| ==> FrameFits(s.pending[i][j]))
    && (forall x :: x in s.ended ==> SendFits(x))
    && (s.holder.Some? ==> SendFits(s.holder.value))
  }

  predicate Whole(x: Send)
    requires SendFits(x)
  {
    x.sent == |EncFrame(x.frame)|
  }

  /** What a send put on the wire. */
  function Written(x: Send): seq<byte>
    requires SendFits(x)
  {
    EncFrame(x.frame)[..x.sent]
  }

  /** A step that is not enabled leaves the state as it is. */
  function Apply(s: State, step: Step): (t: State)
    requires Sane(s)
    ensures Sane(t)
  {
    match step
    case Lock(i) =>
      if Waiting(s, i) then
        s.(holder := Some(Send(i, s.pending[i][0], 0)), pending := s.pending[i := s.pending[i][1..]])
      else s
    case Write(n) =>
      if s.holder.Some? && s.holder.value.sent + n <= |EncFrame(s.holder.value.frame)| then
        var h := s.holder.value;
        s.(holder := Some(h.(sent := h.sent + n)), wire := s.wire + EncFrame(h.frame)[h.sent..h.sent + n])
      else s
    case Unlock =>
      if s.holder.Some? && Whole(s.holder.value) then s.(holder := None, ended := s.ended + [s.holder.value]) else s
    case Abort =>
      if s.holder.Some? && !Whole(s.holder.value) then s.(holder := None, ended := s.ended + [s.holder.value]) else s
  }

  function Run(s: State, steps: seq<Step>): (t: State)
    requires Sane(s)
    ensures Sane(t)
    decreases |steps|
  {
    if steps == [] then s else Apply(Run(s, steps[..|steps| - 1]), steps[|steps| - 1])
  }

  predicate Initial(s: State) { Sane(s) && s.holder.None? && s.wire == [] && s.ended == [] }

  // ----- what has been sent -----

  predicate AllFit(xs: seq<Send>) { forall x :: x in xs ==> SendFits(x) }

  function AllWritten(xs: seq<Send>): seq<byte>
    requires AllFit(xs)
  {
    if xs == [] then [] else AllWritten(xs[..|xs| - 1]) + Written(xs[|xs| - 1])
  }

  /** The frames that got through. */
  function Completed(xs: seq<Send>): (fs: seq<Frame>)
    requires AllFit(xs)
    ensures forall f :: f in fs ==> FrameFits(f)
  {
    if xs == [] then []
    else
      var n := |xs| - 1;
      Completed(xs[..n]) + if Whole(xs[n]) then [xs[n].frame] else []
  }

  /** Some send stopped between its first and its last byte. */
  predicate Torn(xs: seq<Send>)
    requires AllFit(xs)
  {
    exists x :: x in xs && !Whole(x) && x.sent > 0
  }

  /** In every state the wire is what the sends put there, one after the other. */
  predicate WireInv(s: State)
    requires Sane(s)
  {
    s.wire == AllWritten(s.ended) + if s.holder.None? then [] else Written(s.holder.value)
  }

  lemma StepKeepsWire(s: State, step: Step)
    requires Sane(s) && WireInv(s)
    ensures WireInv(Apply(s, step))
  {
    var t := Apply(s, step);
    if t != s {
      match step {
        case Lock(i) => assert AllWritten(s.ended) + [] == AllWritten(s.ended);
        case Write(n) =>
          var h := s.holder.value;
          var more := EncFrame(h.frame)[h.sent..h.sent + n];
          assert Written(t.holder.value) == Written(h) + more;
          Assoc(AllWritten(s.ended), Written(h), more);
        case Unlock => EndsWritten(s, t);
        case Abort => EndsWritten(s, t);
      }
    }
  }

  lemma EndsWritten(s: State, t: State)
    requires Sane(s) && Sane(t) && s.holder.Some? && WireInv(s)
    requires t == s.(holder := None, ended := s.ended + [s.holder.value])
    ensures WireInv(t)
  {
    assert t.ended[..|t.ended| - 1] == s.ended;
    assert AllWritten(t.ended) + [] == AllWritten(t.ended);
  }

  lemma {:induction false} RunKeepsWire(s: State, steps: seq<Step>)
    requires Initial(s)
    ensures WireInv(Run(s, steps))
    decreases |steps|
  {
    if steps != [] {
      var n := |steps| - 1;
      RunKeepsWire(s, steps[..n]);
      StepKeepsWire(Run(s, steps[..n]), steps[n]);
    }
  }

  /** Only a torn send leaves bytes that belong to no completed frame. */
  lemma {:induction false} WrittenIsStream(xs: seq<Send>)
    requires AllFit(xs)
    ensures if Torn(xs) then |AllWritten(xs)| > |Stream(Completed(xs))| else AllWritten(xs) == Stream(Completed(xs))
    decreases |xs|
  {
    if xs != [] {
      var n := |xs| - 1;
      var x := xs[n];
      WrittenIsStream(xs[..n]);
      assert xs == xs[..n] + [x];
      assert Torn(xs) == (Torn(xs[..n]) || (!Whole(x) && x.sent > 0));
      if Whole(x) {
        assert Written(x) == EncFrame(x.frame);
        assert FrameFits(x.frame);
        StreamConcat(Completed(xs[..n]), [x.frame]);
        assert Stream([x.frame]) == EncFrame(x.frame) + Stream([]);
      } else {
        assert Completed(xs) == Completed(xs[..n]);
      }
    }
  }

  lemma WireDeframes(t: State)
    requires Sane(t) && WireInv(t) && t.holder.None?
    ensures Deframe(t.wire) == Some(Completed(t.ended)) <==> !Torn(t.ended)
  {
    var fs := Completed(t.ended);
    assert forall f :: f in fs ==> FrameFits(f);
    WrittenIsStream(t.ended);
    DeframeStream(fs);
    assert AllWritten(t.ended) + [] == AllWritten(t.ended);
    hide Stream, Deframe, Completed, AllWritten;
    if Deframe(t.wire) == Some(fs) {
      DeframeExact(t.wire);
    }
  }

  /** Whatever the interleaving, once no send is under way the bytes on the wire deframe into
      exactly the completed frames in completion order, if and only if no send was cut short. */
  lemma DeframesExactlyUnlessTorn(s: State, steps: seq<Step>)
    requires Initial(s) && Run(s, steps).holder.None?
    ensures var t := Run(s, steps); Deframe(t.wire) == Some(Completed(t.ended)) <==> !Torn(t.ended)
  {
    RunKeepsWire(s, steps);
    hide Run, Deframe, Completed, Torn;
    WireDeframes(Run(s, steps));
  }

  // ----- order -----

  /** The frames of one sender, in order. */
  function FramesOf(i: nat, xs: seq<Send>): seq<Frame> {
    if xs == [] then []
    else
      var n := |xs| - 1;
      FramesOf(i, xs[..n]) + if xs[n].sender == i then [xs[n].frame] else []
  }

  /** What sender `i` is done with, completed or cut short, the frame it holds the mutex for and what it
      still has waiting. */
  function Account(t: State, i: nat): seq<Frame>
    requires i < |t.pending|
  {
    FramesOf(i, t.ended)
      + (if t.holder.Some? && t.holder.value.sender == i then [t.holder.value.frame] else []) + t.pending[i]
  }

  lemma StepKeepsOrder(s: State, step: Step, i: nat)
    requires Sane(s) && i < |s.pending|
    ensures |Apply(s, step).pending| == |s.pending| && Account(Apply(s, step), i) == Account(s, i)
  {
    var t := Apply(s, step);
    if t != s {
      match step {
        case Lock(j) => assert s.pending[j] == [t.holder.value.frame] + t.pending[j];
        case Write(_) =>
        case Unlock => assert t.ended[..|s.ended|] == s.ended;
        case Abort => assert t.ended[..|s.ended|] == s.ended;
      }
    }
  }

  /** In every run, sends that fail included, each sender's sends happen in the order of its requests:
      those that are over, the one inside the mutex and those still waiting make up what it set out to
      send. */
  lemma {:induction false} SenderOrderKept(s: State, steps: seq<Step>, i: nat)
    requires Initial(s) && i < |s.pending|
    ensures |Run(s, steps).pending| == |s.pending| && Account(Run(s, steps), i) == s.pending[i]
    decreases |steps|
  {
    if steps != [] {
      var n := |steps| - 1;
      SenderOrderKept(s, steps[..n], i);
      StepKeepsOrder(Run(s, steps[..n]), steps[n], i);
    }
  }
}
