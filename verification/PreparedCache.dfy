/** Prepared execution through the pool's cache of statement ids (src/detail/connection_pool.cpp:29-42,
    301-377, 451-479; src/detail/connection_impl.cpp:461-528;
    src/io/protocol/response_message.hpp:252-259), against a server that hands out ids, may discard
    them, and runs what an id stands for. Other tasks use the same cache in between. */
module PreparedCache {
  import opened Bytes
  import opened Frames
  import opened Requests

  type Text = seq<byte>
  type Id = seq<byte>
  type Params = seq<seq<byte>>
  type Time = nat

  /** How a Prepare call ends: with a Prepared result, with a result of another kind (for which the
      code takes the empty id), or with an exception. */
  datatype PrepareReply = Prepared(id: Id) | OtherResult | Refused

  /** What other tasks did to the cache since this one last looked. */
  datatype Other = PreparedToo(text: Text) | Evicted(text: Text) | Emptied

  datatype World = World(
    prepare: (Text, Time) -> PrepareReply,
    owner: Id -> Option<Text>,            // the text an id was issued for
    known: (Id, Time) -> bool,            // prepared on the node and not discarded
    fails: Time -> bool,                  // an execution times out or is answered by an error
    evicts: (Text, Time) -> bool,         // what a Put pushes out
    others: Time -> seq<Other>)
  {
    /** An id is issued for one text only, and the empty id for none. */
    ghost predicate Faithful() {
      && (forall x, t :: prepare(x, t).Prepared? ==> owner(prepare(x, t).id) == Some(x))
      && owner([]).None?
    }
  }

  // ----- what the server does with what it receives -----

  datatype Outcome = Ran(work: seq<(Text, Params)>) | Unprepared | Failed

  /** The text a statement stands for. */
  function Denotes(w: World, s: BatchStatement): Option<(Text, Params)> {
    match s.query
    case Text(q) => Some((q, s.params))
    case Id(id) => (match w.owner(id) case None => None case Some(q) => Some((q, s.params)))
  }

  predicate Executable(w: World, s: BatchStatement, t: Time) {
    Denotes(w, s).Some? && (s.query.Id? ==> w.known(s.query.id, t))
  }

  function Meaning(w: World, ss: seq<BatchStatement>): (r: Option<seq<(Text, Params)>>)
    ensures r.Some? ==> |r.value| == |ss|
  {
    if ss == [] then Some([])
    else
      var x :- Denotes(w, ss[0]);
      var xs :- Meaning(w, ss[1..]);
      Some([x] + xs)
  }

  /** One request with these statements, run as a whole or not at all. */
  function Serve(w: World, ss: seq<BatchStatement>, t: Time): Outcome {
    if w.fails(t) then Failed
    else if forall s :: s in ss ==> Executable(w, s, t) then
      match Meaning(w, ss)
      case Some(work) => Ran(work)
      case None => Unprepared
    else Unprepared
  }

  /** The statements of the string mode. */
  function AsText(q: (Text, Params)): BatchStatement { BatchStatement(Text(q.0), q.1) }

  // ----- where an id comes from -----

  /** What goes to the server, and when. */
  datatype Sent = Prepare(text: Text, at: Time) | Run(statements: seq<BatchStatement>, at: Time)

  /** What the code makes of a reply to Prepare. */
  function IdOf(reply: PrepareReply): Option<Id> {
    match reply
    case Prepared(id) => Some(id)
    case OtherResult => Some([])
    case Refused => None
  }

  /** A Prepare for `x` at `u` was really sent: by this task, or by another one. */
  ghost predicate Asked(w: World, log: seq<Sent>, x: Text, u: Time) {
    Sent.Prepare(x, u) in log || exists v: Time :: v <= u && PreparedToo(x) in w.others(v)
  }

  /** Before `t` the server answered a Prepare for exactly the text `x` with `id`, the empty id being what
      the code makes of an answer of another kind. */
  ghost predicate StandsFor(w: World, log: seq<Sent>, id: Id, x: Text, t: Time) {
    exists u: Time :: u < t && Asked(w, log, x, u) && IdOf(w.prepare(x, u)) == Some(id)
  }

  /** Some Prepare for `x` before `t` was answered by a result of another kind. */
  ghost predicate Misanswered(w: World, log: seq<Sent>, x: Text, t: Time) {
    exists u: Time :: u < t && Asked(w, log, x, u) && w.prepare(x, u).OtherResult?
  }

  /** The empty id comes from such an answer only; any other id was issued for the text. */
  lemma StandsMeans(w: World, log: seq<Sent>, id: Id, x: Text, t: Time)
    requires w.Faithful() && StandsFor(w, log, id, x, t)
    ensures if id == [] then Misanswered(w, log, x, t) else w.owner(id) == Some(x)
  {
    var u: Time :| u < t && Asked(w, log, x, u) && IdOf(w.prepare(x, u)) == Some(id);
  }

  lemma StandsLater(w: World, log: seq<Sent>, more: seq<Sent>, id: Id, x: Text, t: Time, v: Time)
    requires StandsFor(w, log, id, x, t) && t <= v
    ensures StandsFor(w, log + more, id, x, v)
  {
    var u: Time :| u < t && Asked(w, log, x, u) && IdOf(w.prepare(x, u)) == Some(id);
    assert Asked(w, log + more, x, u);
  }

  /** `s` is the query `q` in prepared form. */
  ghost predicate Stands(w: World, log: seq<Sent>, s: BatchStatement, q: (Text, Params), t: Time) {
    s.query.Id? && StandsFor(w, log, s.query.id, q.0, t) && s.params == q.1
  }

  predicate Real(s: BatchStatement) { s.query.Id? && s.query.id != [] }

  /** The server can run the statement at `t`. */
  predicate RealAndKnown(w: World, s: BatchStatement, t: Time) { Real(s) && w.known(s.query.id, t) }

  /** The statements are the queries in prepared form, one by one and in order. */
  ghost predicate StandAll(w: World, log: seq<Sent>, ss: seq<BatchStatement>, qs: seq<(Text, Params)>, t: Time) {
    |ss| == |qs| && forall i :: 0 <= i < |ss| ==> Stands(w, log, ss[i], qs[i], t)
  }

  predicate AllReal(ss: seq<BatchStatement>) { forall s :: s in ss ==> Real(s) }

  lemma StandsDenotes(w: World, log: seq<Sent>, s: BatchStatement, q: (Text, Params), t: Time)
    requires w.Faithful() && Stands(w, log, s, q, t)
    ensures Denotes(w, s) == if Real(s) then Some(q) else None
    ensures !Real(s) ==> Misanswered(w, log, q.0, t)
  {
    StandsMeans(w, log, s.query.id, q.0, t);
  }

  /** A batch in prepared form means exactly the queries, in order, if and only if it contains no empty
      id. */
  lemma {:induction false} PreparedMeansSame(w: World, log: seq<Sent>, ss: seq<BatchStatement>, qs: seq<(Text, Params)>, t: Time)
    requires w.Faithful() && StandAll(w, log, ss, qs, t)
    ensures Meaning(w, ss) == if AllReal(ss) then Some(qs) else None
    decreases |ss|
  {
    if ss != [] {
      hide Denotes, Stands, Real, World.Faithful;
      StandsDenotes(w, log, ss[0], qs[0], t);
      PreparedMeansSame(w, log, ss[1..], qs[1..], t);
      assert ss == [ss[0]] + ss[1..] && qs == [qs[0]] + qs[1..];
      assert AllReal(ss) == (Real(ss[0]) && AllReal(ss[1..]));
    }
  }

  /** So unless the server answered a Prepare for one of the texts by another kind of result, the prepared
      batch means exactly what the string batch means. */
  lemma PreparedMeansSameUnlessMisanswered(w: World, log: seq<Sent>, ss: seq<BatchStatement>, qs: seq<(Text, Params)>, t: Time)
    requires w.Faithful() && StandAll(w, log, ss, qs, t)
    requires forall q :: q in qs ==> !Misanswered(w, log, q.0, t)
    ensures Meaning(w, ss) == Some(qs) == Meaning(w, AllText(qs))
  {
    hide Misanswered, Stands, World.Faithful, Meaning;
    forall s | s in ss ensures Real(s) {
      var i :| 0 <= i < |ss| && ss[i] == s;
      assert qs[i] in qs;
      StandsDenotes(w, log, ss[i], qs[i], t);
    }
    PreparedMeansSame(w, log, ss, qs, t);
    TextMeansSame(w, qs);
  }

  lemma {:induction false} TextMeansSame(w: World, qs: seq<(Text, Params)>)
    ensures Meaning(w, AllText(qs)) == Some(qs)
    decreases |qs|
  {
    if qs != [] {
      TextMeansSame(w, qs[1..]);
      assert Denotes(w, AsText(qs[0])) == Some(qs[0]);
      hide Denotes, AsText;
      assert AllText(qs)[1..] == AllText(qs[1..]);
      assert qs == [qs[0]] + qs[1..];
    }
  }

  function AllText(qs: seq<(Text, Params)>): (r: seq<BatchStatement>)
    ensures |r| == |qs| && forall i :: 0 <= i < |qs| ==> r[i] == AsText(qs[i])
  {
    if qs == [] then [] else [AsText(qs[0])] + AllText(qs[1..])
  }

  /** Prepared mode against string mode, for the same server at the same time: prepared execution runs
      exactly what string execution runs, or reports Unprepared; and it does so exactly when the
      server knows every id sent. */
  lemma PreparedAgreesWithText(w: World, log: seq<Sent>, ss: seq<BatchStatement>, qs: seq<(Text, Params)>, at: Time, t: Time)
    requires w.Faithful() && StandAll(w, log, ss, qs, at)
    ensures Serve(w, AllText(qs), t) == if w.fails(t) then Failed else Ran(qs)
    ensures Serve(w, ss, t) == if w.fails(t) then Failed
                               else if forall s :: s in ss ==> RealAndKnown(w, s, t) then Ran(qs)
                               else Unprepared
  {
    TextServed(w, qs, t);
    PreparedMeansSame(w, log, ss, qs, at);
    hide Stands, Meaning, World.Faithful;
    forall s | s in ss ensures Executable(w, s, t) <==> RealAndKnown(w, s, t) {
      var i :| 0 <= i < |ss| && ss[i] == s;
      assert Stands(w, log, ss[i], qs[i], at);
      StandsDenotes(w, log, ss[i], qs[i], at);
      StandsIsId(w, log, ss[i], qs[i], at);
    }
  }

  lemma StandsIsId(w: World, log: seq<Sent>, s: BatchStatement, q: (Text, Params), t: Time)
    requires Stands(w, log, s, q, t)
    ensures s.query.Id?
  {
  }

  lemma TextServed(w: World, qs: seq<(Text, Params)>, t: Time)
    ensures Serve(w, AllText(qs), t) == if w.fails(t) then Failed else Ran(qs)
  {
    TextMeansSame(w, qs);
    hide Meaning;
    forall s | s in AllText(qs) ensures Executable(w, s, t) {
    }
  }

  function NoWorld(): World {
    World((x, t) => OtherResult, id => None, (id, t) => true, t => false, (x, t) => false, t => [])
  }

  /** The condition is needed: where the server answers Prepare by another kind of result, the empty id is
      sent, and the batch that should run a query runs nothing, although the string mode runs it. */
  lemma MisansweredMeansNothing(x: Text, params: Params)
    ensures var w, log, s, q := NoWorld(), [Sent.Prepare(x, 0)], BatchStatement(Id([]), params), (x, params);
            && w.Faithful() && StandAll(w, log, [s], [q], 1) && Misanswered(w, log, x, 1)
            && Meaning(w, [s]) == None && Serve(w, [s], 1) == Unprepared && Serve(w, AllText([q]), 1) == Ran([q])
  {
    var w, log, s, q := NoWorld(), [Sent.Prepare(x, 0)], BatchStatement(Id([]), params), (x, params);
    assert Asked(w, log, x, 0) && IdOf(w.prepare(x, 0)) == Some([]);
    assert Stands(w, log, s, q, 1);
    assert s in [s];
    TextServed(w, [q], 1);
  }

  /** The statements of a request for `qs` at `t`: in prepared form or as text, one by one and in order. */
  ghost predicate Carries(w: World, prepared: bool, log: seq<Sent>, ss: seq<BatchStatement>, qs: seq<(Text, Params)>, t: Time) {
    if prepared then StandAll(w, log, ss, qs, t) else ss == AllText(qs)
  }

  /** A Prepare for one of the queries' texts that the server did not refuse. */
  predicate Asks(w: World, x: Sent, qs: seq<(Text, Params)>) {
    x.Prepare? && !w.prepare(x.text, x.at).Refused? && exists q :: q in qs && q.0 == x.text
  }

  predicate AsksOnly(w: World, talk: seq<Sent>, qs: seq<(Text, Params)>) { forall x :: x in talk ==> Asks(w, x, qs) }

  /** How a request for `qs` ends, `log` being all that was sent before: with one Run that carries `qs`,
      whose outcome is the server's; or with a Prepare for one of the texts that the server refuses. */
  ghost predicate Ends(w: World, prepared: bool, qs: seq<(Text, Params)>, log: seq<Sent>, x: Sent, outcome: Outcome) {
    match x
    case Run(ss, at) => Carries(w, prepared, log, ss, qs, at) && outcome == Serve(w, ss, at)
    case Prepare(text, at) =>
      prepared && w.prepare(text, at).Refused? && outcome == Failed && exists q :: q in qs && q.0 == text
  }

  /** All that is sent for `qs` after `past`, whatever comes of it: first Prepares for texts of `qs`, in
      prepared mode only, and then what it ends with. */
  ghost predicate Conversation(w: World, prepared: bool, qs: seq<(Text, Params)>, past: seq<Sent>, talk: seq<Sent>, outcome: Outcome) {
    && talk != [] && (!prepared ==> |talk| == 1)
    && AsksOnly(w, talk[..|talk| - 1], qs)
    && Ends(w, prepared, qs, past + talk[..|talk| - 1], talk[|talk| - 1], outcome)
  }

  lemma EndsWithRun(w: World, prepared: bool, qs: seq<(Text, Params)>, past: seq<Sent>, asked: seq<Sent>,
                    ss: seq<BatchStatement>, at: Time)
    requires AsksOnly(w, asked, qs) && (!prepared ==> asked == []) && Carries(w, prepared, past + asked, ss, qs, at)
    ensures Conversation(w, prepared, qs, past, asked + [Run(ss, at)], Serve(w, ss, at))
  {
    var talk := asked + [Run(ss, at)];
    assert talk[..|talk| - 1] == asked;
    hide AsksOnly, Carries, Serve;
  }

  lemma EndsRefused(w: World, qs: seq<(Text, Params)>, past: seq<Sent>, asked: seq<Sent>, q: (Text, Params), at: Time)
    requires AsksOnly(w, asked, qs) && q in qs && w.prepare(q.0, at).Refused?
    ensures Conversation(w, true, qs, past, asked + [Sent.Prepare(q.0, at)], Failed)
  {
    var talk := asked + [Sent.Prepare(q.0, at)];
    assert talk[..|talk| - 1] == asked;
    hide AsksOnly;
  }

  /** What is run for `qs` is `qs`; an error other than Unprepared means that a Prepare was refused or that
      the request was sent and timed out or failed; Unprepared means that the server did not know some id
      sent, which has to be so if one is empty; and text is never Unprepared. */
  lemma ConversationMeans(w: World, prepared: bool, qs: seq<(Text, Params)>, past: seq<Sent>, talk: seq<Sent>, outcome: Outcome)
    requires w.Faithful() && Conversation(w, prepared, qs, past, talk, outcome)
    ensures outcome.Ran? ==> outcome.work == qs
    ensures outcome == Failed <==>
              var x := talk[|talk| - 1];
              match x { case Run(_, at) => w.fails(at) case Prepare(text, at) => w.prepare(text, at).Refused? }
    ensures outcome == Unprepared <==>
              var x := talk[|talk| - 1];
              prepared && x.Run? && !w.fails(x.at) && exists s :: s in x.statements && !RealAndKnown(w, s, x.at)
    ensures var x := talk[|talk| - 1];
            x.Run? && (forall q :: q in qs ==> !Misanswered(w, past + talk[..|talk| - 1], q.0, x.at)) ==>
              Meaning(w, x.statements) == Some(qs)
  {
    hide Serve, StandAll, Meaning, Misanswered, World.Faithful;
    var asked := talk[..|talk| - 1];
    match talk[|talk| - 1] {
      case Run(ss, at) =>
        if prepared {
          PreparedAgreesWithText(w, past + asked, ss, qs, at, at);
          if forall q :: q in qs ==> !Misanswered(w, past + asked, q.0, at) {
            PreparedMeansSameUnlessMisanswered(w, past + asked, ss, qs, at);
          }
        } else {
          TextServed(w, qs, at);
          TextMeansSame(w, qs);
        }
      case Prepare(text, at) =>
    }
  }

  // ----- the cache -----

  /** The cache at an instant. */
  datatype Cell = Cell(cache: map<Text, Id>, now: Time)

  /** Every cached id is what the server answered to an earlier Prepare for exactly its text. */
  ghost predicate Sound(w: World, log: seq<Sent>, cell: Cell) {
    forall x :: x in cell.cache ==> StandsFor(w, log, cell.cache[x], x, cell.now)
  }

  lemma SoundLater(w: World, log: seq<Sent>, more: seq<Sent>, cell: Cell, later: Cell)
    requires Sound(w, log, cell) && cell.now <= later.now
    requires forall x :: x in later.cache ==> x in cell.cache && later.cache[x] == cell.cache[x]
    ensures Sound(w, log + more, later)
  {
    forall x | x in later.cache ensures StandsFor(w, log + more, later.cache[x], x, later.now) {
      StandsLater(w, log, more, cell.cache[x], x, cell.now, later.now);
      hide StandsFor;
    }
  }

  /** `Put`: a full way of the cache pushes out other entries. */
  function PutAt(w: World, cell: Cell, x: Text, id: Id): Cell {
    Cell((map y | y in cell.cache && !w.evicts(y, cell.now) :: cell.cache[y])[x := id], cell.now + 1)
  }

  lemma PutSound(w: World, log: seq<Sent>, cell: Cell, x: Text, id: Id)
    requires Sound(w, log, cell) && StandsFor(w, log, id, x, cell.now)
    ensures Sound(w, log, PutAt(w, cell, x, id))
  {
    var next := PutAt(w, cell, x, id);
    assert log + [] == log;
    forall y | y in next.cache ensures StandsFor(w, log, next.cache[y], y, next.now) {
      StandsLater(w, log, [], next.cache[y], y, cell.now, next.now);
      hide StandsFor;
    }
  }

  function OtherAt(w: World, cell: Cell, step: Other): Cell {
    match step
    case Evicted(x) => Cell(cell.cache - {x}, cell.now + 1)
    case Emptied => Cell(map[], cell.now + 1)
    case PreparedToo(x) =>
      var later := cell.(now := cell.now + 1);
      match IdOf(w.prepare(x, cell.now))
      case None => later
      case Some(id) => PutAt(w, later, x, id)
  }

  function OthersFrom(w: World, cell: Cell, steps: seq<Other>): Cell
    decreases |steps|
  {
    if steps == [] then cell else OthersFrom(w, OtherAt(w, cell, steps[0]), steps[1..])
  }

  /** What other tasks do to the cache from an instant on. */
  function OthersAt(w: World, cell: Cell): Cell { OthersFrom(w, cell, w.others(cell.now)) }

  lemma OtherSound(w: World, log: seq<Sent>, cell: Cell, step: Other, v: Time)
    requires Sound(w, log, cell) && v <= cell.now && step in w.others(v)
    ensures Sound(w, log, OtherAt(w, cell, step)) && cell.now <= OtherAt(w, cell, step).now
  {
    assert log + [] == log;
    match step {
      case PreparedToo(x) =>
        var later := cell.(now := cell.now + 1);
        SoundLater(w, log, [], cell, later);
        match IdOf(w.prepare(x, cell.now)) {
          case None =>
          case Some(id) =>
            assert Asked(w, log, x, cell.now);
            assert StandsFor(w, log, id, x, later.now);
            PutSound(w, log, later, x, id);
        }
      case _ => SoundLater(w, log, [], cell, OtherAt(w, cell, step));
    }
  }

  lemma {:induction false} OthersSound(w: World, log: seq<Sent>, cell: Cell, steps: seq<Other>, v: Time)
    requires Sound(w, log, cell) && v <= cell.now && forall x :: x in steps ==> x in w.others(v)
    ensures Sound(w, log, OthersFrom(w, cell, steps)) && cell.now <= OthersFrom(w, cell, steps).now
    decreases |steps|
  {
    if steps != [] {
      hide Sound, OtherAt;
      OtherSound(w, log, cell, steps[0], v);
      OthersSound(w, log, OtherAt(w, cell, steps[0]), steps[1..], v);
    }
  }

  // ----- getting an id -----

  /** The id for a text, the cache afterwards, and what was sent for it. */
  datatype Found = Found(id: Option<Id>, cell: Cell, talk: seq<Sent>)

  /** The cached id if there is one, else what the server answers to a Prepare now; other tasks go on
      before the new id is cached. */
  function Lookup(w: World, cell: Cell, x: Text): Found {
    if x in cell.cache then Found(Some(cell.cache[x]), cell, [])
    else
      var id := IdOf(w.prepare(x, cell.now));
      var later := OthersAt(w, cell.(now := cell.now + 1));
      Found(id, if id.None? then later else PutAt(w, later, x, id.value), [Sent.Prepare(x, cell.now)])
  }

  lemma LookupSound(w: World, log: seq<Sent>, cell: Cell, x: Text)
    requires Sound(w, log, cell)
    ensures var f := Lookup(w, cell, x);
            && Sound(w, log + f.talk, f.cell) && cell.now <= f.cell.now
            && (f.id.Some? ==> StandsFor(w, log + f.talk, f.id.value, x, f.cell.now))
  {
    if x in cell.cache {
      assert log + [] == log;
    } else {
      var talk := [Sent.Prepare(x, cell.now)];
      var asked := cell.(now := cell.now + 1);
      SoundLater(w, log, talk, cell, asked);
      OthersSound(w, log + talk, asked, w.others(asked.now), asked.now);
      var later := OthersAt(w, asked);
      match IdOf(w.prepare(x, cell.now)) {
        case None =>
        case Some(id) =>
          assert Asked(w, log + talk, x, cell.now);
          assert StandsFor(w, log + talk, id, x, asked.now);
          assert log + talk + [] == log + talk;
          StandsLater(w, log + talk, [], id, x, asked.now, later.now);
          PutSound(w, log + talk, later, x, id);
          StandsLater(w, log + talk, [], id, x, asked.now, later.now + 1);
      }
    }
  }

  /** The statements of a prepared batch, up to the first refused Prepare. */
  datatype Gathered = Gathered(statements: seq<BatchStatement>, cell: Cell, talk: seq<Sent>, refused: bool)

  /** One id after the other; other tasks go on in between. */
  function Gather(w: World, cell: Cell, qs: seq<(Text, Params)>): Gathered
    decreases |qs|
  {
    if qs == [] then Gathered([], cell, [], false)
    else
      var f := Lookup(w, cell, qs[0].0);
      match f.id
      case None => Gathered([], f.cell, f.talk, true)
      case Some(id) =>
        var rest := Gather(w, OthersAt(w, f.cell), qs[1..]);
        rest.(statements := [BatchStatement(Id(id), qs[0].1)] + rest.statements, talk := f.talk + rest.talk)
  }

  lemma AsksFewer(w: World, talk: seq<Sent>, qs: seq<(Text, Params)>)
    requires qs != [] && AsksOnly(w, talk, qs[1..])
    ensures AsksOnly(w, talk, qs)
  {
    forall x | x in talk ensures Asks(w, x, qs) {
      assert Asks(w, x, qs[1..]);
    }
  }

  lemma StandAllLater(w: World, log: seq<Sent>, more: seq<Sent>, ss: seq<BatchStatement>, qs: seq<(Text, Params)>, t: Time, v: Time)
    requires StandAll(w, log, ss, qs, t) && t <= v
    ensures StandAll(w, log + more, ss, qs, v)
  {
    forall i | 0 <= i < |ss| ensures Stands(w, log + more, ss[i], qs[i], v) {
      assert Stands(w, log, ss[i], qs[i], t);
      StandsLater(w, log, more, ss[i].query.id, qs[i].0, t, v);
      hide StandsFor;
    }
  }

  /** Every statement gathered stands for its query, on the strength of what was sent; a refused Prepare
      for one of the texts is the last thing sent. */
  ghost predicate GatheredFor(w: World, past: seq<Sent>, qs: seq<(Text, Params)>, g: Gathered) {
    if g.refused then
      && g.talk != [] && AsksOnly(w, g.talk[..|g.talk| - 1], qs)
      && (var x := g.talk[|g.talk| - 1];
          x.Prepare? && w.prepare(x.text, x.at).Refused? && exists q :: q in qs && q.0 == x.text)
    else
      AsksOnly(w, g.talk, qs) && StandAll(w, past + g.talk, g.statements, qs, g.cell.now)
  }

  lemma {:induction false} GatherSound(w: World, past: seq<Sent>, cell: Cell, qs: seq<(Text, Params)>)
    requires Sound(w, past, cell)
    ensures var g := Gather(w, cell, qs);
            Sound(w, past + g.talk, g.cell) && cell.now <= g.cell.now && GatheredFor(w, past, qs, g)
    decreases |qs|
  {
    hide Sound, Lookup, StandsFor, Asks;
    assert past + [] == past;
    if qs != [] {
      LookupSound(w, past, cell, qs[0].0);
      LookupAsks(w, cell, qs[0], qs);
      var f := Lookup(w, cell, qs[0].0);
      if f.id.Some? {
        OthersSound(w, past + f.talk, f.cell, w.others(f.cell.now), f.cell.now);
        var next := OthersAt(w, f.cell);
        GatherSound(w, past + f.talk, next, qs[1..]);
        var rest := Gather(w, next, qs[1..]);
        assert past + f.talk + rest.talk == past + (f.talk + rest.talk);
        GatherOneMore(w, past, cell, qs, f, rest);
      }
    }
  }

  lemma LookupAsks(w: World, cell: Cell, q: (Text, Params), qs: seq<(Text, Params)>)
    requires q in qs
    ensures var f := Lookup(w, cell, q.0);
            if f.id.Some? then AsksOnly(w, f.talk, qs)
            else f.talk == [Sent.Prepare(q.0, cell.now)] && w.prepare(q.0, cell.now).Refused?
  {
    hide OthersAt, PutAt;
  }

  lemma GatherOneMore(w: World, past: seq<Sent>, cell: Cell, qs: seq<(Text, Params)>, f: Found, rest: Gathered)
    requires qs != [] && f.id.Some? && AsksOnly(w, f.talk, qs) && f.cell.now <= rest.cell.now
    requires StandsFor(w, past + f.talk, f.id.value, qs[0].0, f.cell.now)
    requires GatheredFor(w, past + f.talk, qs[1..], rest)
    ensures GatheredFor(w, past, qs, rest.(statements := [BatchStatement(Id(f.id.value), qs[0].1)] + rest.statements,
                                           talk := f.talk + rest.talk))
  {
    hide StandsFor, Asks;
    var talk := f.talk + rest.talk;
    if rest.refused {
      var n := |rest.talk| - 1;
      AsksFewer(w, rest.talk[..n], qs);
      assert talk[..|talk| - 1] == f.talk + rest.talk[..n];
      var q :| q in qs[1..] && q.0 == rest.talk[n].text;
      assert q in qs;
    } else {
      AsksFewer(w, rest.talk, qs);
      assert past + f.talk + rest.talk == past + talk;
      StandsLater(w, past + f.talk, rest.talk, f.id.value, qs[0].0, f.cell.now, rest.cell.now);
      FirstStands(w, past + talk, f.id.value, qs, rest.statements, rest.cell.now);
    }
  }

  lemma FirstStands(w: World, log: seq<Sent>, id: Id, qs: seq<(Text, Params)>, ss: seq<BatchStatement>, t: Time)
    requires qs != [] && StandsFor(w, log, id, qs[0].0, t) && StandAll(w, log, ss, qs[1..], t)
    ensures StandAll(w, log, [BatchStatement(Id(id), qs[0].1)] + ss, qs, t)
  {
    hide StandsFor;
  }

  // ----- whole requests -----

  /** What is sent for a request, its outcome, and the cache afterwards. */
  datatype Done = Done(talk: seq<Sent>, outcome: Outcome, cell: Cell)

  function RunAt(w: World, asked: seq<Sent>, ss: seq<BatchStatement>, cell: Cell): Done {
    Done(asked + [Run(ss, cell.now)], Serve(w, ss, cell.now), cell.(now := cell.now + 1))
  }

  /** One query in prepared form. */
  function Alone(w: World, cell: Cell, q: (Text, Params)): Done {
    var f := Lookup(w, cell, q.0);
    match f.id
    case None => Done(f.talk, Failed, f.cell)
    case Some(id) => RunAt(w, f.talk, [BatchStatement(Id(id), q.1)], f.cell)
  }

  /** A batch in prepared form. */
  function Together(w: World, cell: Cell, qs: seq<(Text, Params)>): Done {
    var g := Gather(w, cell, qs);
    if g.refused then Done(g.talk, Failed, g.cell) else RunAt(w, g.talk, g.statements, g.cell)
  }

  /** One query or a batch as text. */
  function InText(w: World, cell: Cell, qs: seq<(Text, Params)>): Done { RunAt(w, [], AllText(qs), cell) }

  /** A request that keeps the cache sound and is a conversation for `qs`. */
  ghost predicate Proper(w: World, prepared: bool, qs: seq<(Text, Params)>, past: seq<Sent>, d: Done) {
    Conversation(w, prepared, qs, past, d.talk, d.outcome) && Sound(w, past + d.talk, d.cell)
  }

  lemma RunProper(w: World, prepared: bool, qs: seq<(Text, Params)>, past: seq<Sent>, asked: seq<Sent>,
                  ss: seq<BatchStatement>, cell: Cell)
    requires AsksOnly(w, asked, qs) && (!prepared ==> asked == [])
    requires Carries(w, prepared, past + asked, ss, qs, cell.now) && Sound(w, past + asked, cell)
    ensures Proper(w, prepared, qs, past, RunAt(w, asked, ss, cell))
  {
    EndsWithRun(w, prepared, qs, past, asked, ss, cell.now);
    SoundLater(w, past + asked, [Run(ss, cell.now)], cell, cell.(now := cell.now + 1));
    assert past + asked + [Run(ss, cell.now)] == past + (asked + [Run(ss, cell.now)]);
    hide Conversation, Sound, AsksOnly, Carries, Serve;
  }

  lemma AloneProper(w: World, past: seq<Sent>, cell: Cell, q: (Text, Params))
    requires Sound(w, past, cell)
    ensures Proper(w, true, [q], past, Alone(w, cell, q))
  {
    hide Sound, Lookup, StandsFor, Conversation, AsksOnly;
    LookupSound(w, past, cell, q.0);
    LookupAsks(w, cell, q, [q]);
    var f := Lookup(w, cell, q.0);
    match f.id {
      case None =>
        assert AsksOnly(w, [], [q]) by { NothingAsked(w, [q]); }
        EndsRefused(w, [q], past, [], q, cell.now);
        assert [] + f.talk == f.talk;
      case Some(id) =>
        assert Stands(w, past + f.talk, BatchStatement(Id(id), q.1), q, f.cell.now);
        RunProper(w, true, [q], past, f.talk, [BatchStatement(Id(id), q.1)], f.cell);
    }
  }

  lemma NothingAsked(w: World, qs: seq<(Text, Params)>)
    ensures AsksOnly(w, [], qs)
  {
  }

  lemma TogetherProper(w: World, past: seq<Sent>, cell: Cell, qs: seq<(Text, Params)>)
    requires Sound(w, past, cell)
    ensures Proper(w, true, qs, past, Together(w, cell, qs))
  {
    hide Sound, Gather, StandAll, AsksOnly;
    GatherSound(w, past, cell, qs);
    var g := Gather(w, cell, qs);
    if !g.refused {
      RunProper(w, true, qs, past, g.talk, g.statements, g.cell);
    }
  }

  lemma InTextProper(w: World, past: seq<Sent>, cell: Cell, qs: seq<(Text, Params)>)
    requires Sound(w, past, cell)
    ensures Proper(w, false, qs, past, InText(w, cell, qs))
  {
    hide Sound, AsksOnly;
    NothingAsked(w, qs);
    assert past + [] == past;
    RunProper(w, false, qs, past, [], AllText(qs), cell);
  }

  datatype Override = NoOverride | Enabled | Disabled

  /** A command's override decides if there is one, else the pool's setting. */
  function CanPrepareStatement(command: Option<Override>, cacheEnabled: bool): bool {
    if command.Some? && command.value != NoOverride then command.value == Enabled else cacheEnabled
  }

  // ----- the messages of a request, spelled out -----

  /** Whatever is run is run by id. */
  predicate ByIdOnly(talk: seq<Sent>) {
    forall x, s :: x in talk && x.Run? && s in x.statements ==> s.query.Id?
  }

  /** Nothing is prepared, and one request with the texts is sent. */
  predicate ByTextOnly(talk: seq<Sent>, qs: seq<(Text, Params)>) {
    && |talk| == 1 && talk[0].Run? && |talk[0].statements| == |qs|
    && forall i :: 0 <= i < |qs| ==> talk[0].statements[i] == BatchStatement(Text(qs[i].0), qs[i].1)
  }

  /** A command's override decides over the pool's setting, in either direction. */
  predicate AsConfigured(command: Option<Override>, cacheEnabled: bool, talk: seq<Sent>, qs: seq<(Text, Params)>) {
    && (command == Some(Enabled) ==> ByIdOnly(talk))
    && (command == Some(Disabled) ==> ByTextOnly(talk, qs))
    && (command == None || command == Some(NoOverride) ==> if cacheEnabled then ByIdOnly(talk) else ByTextOnly(talk, qs))
  }

  /** A single request by id: a cached id is used at once; otherwise one Prepare, and if that is not
      refused one request with the id it was answered with. */
  predicate OneById(w: World, before: Cell, q: (Text, Params), talk: seq<Sent>) {
    if q.0 in before.cache then
      talk == [Run([BatchStatement(Id(before.cache[q.0]), q.1)], before.now)]
    else
      && |talk| >= 1 && talk[0] == Sent.Prepare(q.0, before.now)
      && match w.prepare(q.0, before.now)
         case Refused => |talk| == 1
         case OtherResult => |talk| == 2 && talk[1].Run? && talk[1].statements == [BatchStatement(Id([]), q.1)]
         case Prepared(id) => |talk| == 2 && talk[1].Run? && talk[1].statements == [BatchStatement(Id(id), q.1)]
  }

  lemma AloneSpelled(w: World, cell: Cell, q: (Text, Params))
    ensures var d := Alone(w, cell, q);
            && OneById(w, cell, q, d.talk) && ByIdOnly(d.talk)
            && (q.0 !in cell.cache && !w.prepare(q.0, cell.now).Refused? ==> q.0 in d.cell.cache)
  {
    hide Serve, OthersAt;
  }

  lemma InTextSpelled(w: World, cell: Cell, qs: seq<(Text, Params)>)
    ensures ByTextOnly(InText(w, cell, qs).talk, qs)
  {
    hide Serve;
  }

  lemma {:induction false} GatherSpelled(w: World, cell: Cell, qs: seq<(Text, Params)>)
    ensures var g := Gather(w, cell, qs);
            && (forall x :: x in g.talk ==> x.Prepare?) && (forall s :: s in g.statements ==> s.query.Id?)
    decreases |qs|
  {
    hide OthersAt, PutAt;
    if qs != [] {
      var f := Lookup(w, cell, qs[0].0);
      GatherSpelled(w, OthersAt(w, f.cell), qs[1..]);
    }
  }

  /** Nobody else uses the cache, and it has room. */
  ghost predicate Undisturbed(w: World) {
    (forall t :: w.others(t) == []) && forall y, t :: !w.evicts(y, t)
  }

  /** Texts that are not cached are prepared, each once; and what is cached stays. */
  predicate PreparesMissing(before: Cell, after: Cell, talk: seq<Sent>) {
    && (forall x :: x in talk ==> x.Prepare? && x.text !in before.cache)
    && (forall i, j :: 0 <= i < j < |talk| ==> talk[i] != talk[j] && talk[i].text != talk[j].text)
    && (forall y :: y in before.cache ==> y in after.cache && after.cache[y] == before.cache[y])
  }

  /** Nothing else is cached now than before, but what was prepared. */
  predicate CachesPrepared(before: Cell, after: Cell, talk: seq<Sent>) {
    forall y :: y in after.cache && y !in before.cache ==> exists x :: x in talk && x.Prepare? && x.text == y
  }

  /** Every statement carries the id cached for its query's text. */
  predicate UsesCached(cell: Cell, qs: seq<(Text, Params)>, ss: seq<BatchStatement>) {
    && |ss| == |qs|
    && forall k :: 0 <= k < |qs| ==> qs[k].0 in cell.cache && ss[k] == BatchStatement(Id(cell.cache[qs[k].0]), qs[k].1)
  }

  /** Then a batch prepares each of its texts that is not cached, once, and no other, and every statement
      carries the id that is cached for its text in the end. */
  lemma {:induction false} PreparesOnce(w: World, cell: Cell, qs: seq<(Text, Params)>)
    requires Undisturbed(w)
    ensures var g := Gather(w, cell, qs);
            && PreparesMissing(cell, g.cell, g.talk)
            && (!g.refused ==> UsesCached(g.cell, qs, g.statements) && CachesPrepared(cell, g.cell, g.talk))
    decreases |qs|
  {
    if qs != [] {
      var f := Lookup(w, cell, qs[0].0);
      LookupUndisturbed(w, cell, qs[0].0);
      if f.id.Some? {
        PreparesOnce(w, f.cell, qs[1..]);
        var rest := Gather(w, f.cell, qs[1..]);
        OneMorePrepared(cell, f.cell, rest.cell, f.talk, rest.talk);
        var g := Gather(w, cell, qs);
        hide *;
        if !g.refused {
          OneMoreUsed(f.cell, rest.cell, qs, rest.statements, rest.talk);
        }
      }
    }
  }

  lemma OneMorePrepared(before: Cell, mid: Cell, after: Cell, first: seq<Sent>, rest: seq<Sent>)
    requires PreparesMissing(before, mid, first) && PreparesMissing(mid, after, rest)
    requires forall x :: x in first ==> x.text in mid.cache
    ensures PreparesMissing(before, after, first + rest)
    ensures CachesPrepared(before, mid, first) && CachesPrepared(mid, after, rest) ==> CachesPrepared(before, after, first + rest)
  {
  }

  lemma OneMoreUsed(mid: Cell, after: Cell, qs: seq<(Text, Params)>, ss: seq<BatchStatement>, talk: seq<Sent>)
    requires qs != [] && qs[0].0 in mid.cache && PreparesMissing(mid, after, talk) && UsesCached(after, qs[1..], ss)
    ensures UsesCached(after, qs, [BatchStatement(Id(mid.cache[qs[0].0]), qs[0].1)] + ss)
  {
  }

  lemma LookupUndisturbed(w: World, cell: Cell, x: Text)
    requires Undisturbed(w)
    ensures var f := Lookup(w, cell, x);
            && OthersAt(w, f.cell) == f.cell
            && (x in cell.cache ==> f == Found(Some(cell.cache[x]), cell, []))
            && (x !in cell.cache ==> f.talk == [Sent.Prepare(x, cell.now)])
            && (f.id.Some? ==> f.cell.cache == cell.cache[x := f.id.value])
            && (f.id.None? ==> f.cell.cache == cell.cache)
            && PreparesMissing(cell, f.cell, f.talk) && (f.id.Some? ==> CachesPrepared(cell, f.cell, f.talk))
  {
    assert w.others(cell.now + 1) == [] && w.others(Lookup(w, cell, x).cell.now) == [];
    if x !in cell.cache {
      var asked := cell.(now := cell.now + 1);
      assert OthersAt(w, asked) == asked;
      assert (map y | y in cell.cache && !w.evicts(y, asked.now) :: cell.cache[y]) == cell.cache;
    }
  }

  lemma TogetherSpelled(w: World, cell: Cell, qs: seq<(Text, Params)>)
    ensures ByIdOnly(Together(w, cell, qs).talk)
  {
    GatherSpelled(w, cell, qs);
    hide Gather, Serve;
  }

  class StatementCache {
    const w: World
    const cacheEnabled: bool
    var cache: map<Text, Id>
    var sent: seq<Sent>
    var now: Time

    ghost predicate Valid()
      reads this
    {
      w.Faithful() && Sound(w, sent, Here())
    }

    function Here(): Cell
      reads this
    {
      Cell(cache, now)
    }

    constructor (w: World, cacheEnabled: bool)
      requires w.Faithful()
      ensures Valid() && this.w == w && this.cacheEnabled == cacheEnabled && Here() == Cell(map[], 0) && sent == []
    {
      this.w, this.cacheEnabled := w, cacheEnabled;
      cache, sent, now := map[], [], 0;
    }

    method Get(x: Text) returns (id: Option<Id>)
      ensures id == if x in cache then Some(cache[x]) else None
    {
      if x in cache {
        id := Some(cache[x]);
      } else {
        id := None;
      }
    }

    /** A full way of the cache pushes out other entries. */
    method Put(x: Text, id: Id)
      modifies this`cache, this`now
      ensures Here() == PutAt(w, old(Here()), x, id)
    {
      cache := (map y | y in cache && !w.evicts(y, now) :: cache[y])[x := id];
      now := now + 1;
    }

    method Invalidate()
      modifies this`cache
      ensures cache == map[]
    {
      cache := map[];
    }

    /** Asks the server for an id. `None` is an exception; a reply of another kind gives the empty id. */
    method Prepare(x: Text) returns (id: Option<Id>)
      modifies this`now, this`sent
      ensures now == old(now) + 1 && sent == old(sent) + [Sent.Prepare(x, old(now))]
      ensures match w.prepare(x, old(now)) case Prepared(i) => id == Some(i) case OtherResult => id == Some([]) case Refused => id.None?
    {
      sent := sent + [Sent.Prepare(x, now)];
      id := IdOf(w.prepare(x, now));
      now := now + 1;
    }

    /** The request goes to the server, which answers later. */
    method Send(ss: seq<BatchStatement>) returns (outcome: Outcome)
      modifies this`now, this`sent
      ensures now == old(now) + 1 && sent == old(sent) + [Run(ss, old(now))] && outcome == Serve(w, ss, old(now))
    {
      sent := sent + [Run(ss, now)];
      outcome := Serve(w, ss, now);
      now := now + 1;
    }

    /** Other tasks prepare statements of their own, entries are evicted, the cache is emptied. */
    method Others()
      modifies this`cache, this`now
      ensures Here() == OthersAt(w, old(Here()))
    {
      var steps := w.others(now);
      assert steps[0..] == steps;
      for i := 0 to |steps|
        invariant OthersFrom(w, Here(), steps[i..]) == OthersAt(w, old(Here()))
      {
        assert steps[i..][1..] == steps[i + 1..];
        match steps[i] {
          case PreparedToo(x) =>
            var id := IdOf(w.prepare(x, now));
            now := now + 1;
            if id.Some? {
              Put(x, id.value);
            }
          case Evicted(x) =>
            cache, now := cache - {x}, now + 1;
          case Emptied =>
            Invalidate();
            now := now + 1;
        }
      }
    }

    /** The cached id if there is one, else a new one, which is then cached. */
    method IdFor(x: Text) returns (id: Option<Id>)
      modifies this
      ensures var f := Lookup(w, old(Here()), x);
              id == f.id && Here() == f.cell && sent == old(sent) + f.talk
      ensures x in old(cache) ==> id == Some(old(cache)[x]) && cache == old(cache) && sent == old(sent)
      ensures x !in old(cache) ==> id == IdOf(w.prepare(x, old(now))) && sent == old(sent) + [Sent.Prepare(x, old(now))]
      ensures id.Some? ==> x in cache && cache[x] == id.value
    {
      id := Get(x);
      if id.Some? {
        return;
      }
      id := Prepare(x);
      Others();
      if id.Some? {
        Put(x, id.value);
      }
    }

    /** `Execute`. Whatever the cache holds and other tasks do to it, what is sent stands for the query.
        An Unprepared error leaves the stale id in the cache. */
    method Execute(x: Text, params: Params, command: Option<Override>) returns (outcome: Outcome, ghost talk: seq<Sent>)
      requires Valid()
      modifies this
      ensures Valid() && sent == old(sent) + talk
      ensures Done(talk, outcome, Here()) ==
              if CanPrepareStatement(command, cacheEnabled) then Alone(w, old(Here()), (x, params))
              else InText(w, old(Here()), [(x, params)])
      ensures Conversation(w, CanPrepareStatement(command, cacheEnabled), [(x, params)], old(sent), talk, outcome)
      ensures AsConfigured(command, cacheEnabled, talk, [(x, params)])
      ensures ByIdOnly(talk) ==> OneById(w, old(Here()), (x, params), talk)
      ensures x in old(cache) || ByTextOnly(talk, [(x, params)]) ==> cache == old(cache)
      ensures x !in old(cache) && ByIdOnly(talk) && !w.prepare(x, old(now)).Refused? ==> x in cache
    {
      AloneSpelled(w, Here(), (x, params));
      InTextSpelled(w, Here(), [(x, params)]);
      LookupCached(w, Here(), x);
      hide Sound, World.Faithful, Serve, Lookup, Conversation, OneById;
      if CanPrepareStatement(command, cacheEnabled) {
        AloneProper(w, sent, Here(), (x, params));
        var id := IdFor(x);
        talk := Lookup(w, old(Here()), x).talk;
        if id.None? {
          return Failed, talk;
        }
        talk := talk + [Run([BatchStatement(Id(id.value), params)], now)];
        outcome := Send([BatchStatement(Id(id.value), params)]);
        assert sent == old(sent) + talk;
      } else {
        InTextProper(w, sent, Here(), [(x, params)]);
        assert AllText([(x, params)]) == [AsText((x, params))];
        talk := [] + [Run([AsText((x, params))], now)];
        outcome := Send([AsText((x, params))]);
        assert sent == old(sent) + talk;
      }
    }

    /** The prepared statements of a batch, one query after the other, up to a refused Prepare. */
    method PreparedStatements(queries: seq<(Text, Params)>) returns (batch: seq<BatchStatement>, refused: bool, ghost talk: seq<Sent>)
      modifies this
      ensures sent == old(sent) + talk && Gathered(batch, Here(), talk, refused) == Gather(w, old(Here()), queries)
    {
      hide Gather, Lookup;
      batch, talk := [], [];
      ghost var goal := Gather(w, Here(), queries);
      assert queries[0..] == queries && [] + goal.talk == goal.talk && [] + goal.statements == goal.statements;
      for i := 0 to |queries|
        invariant sent == old(sent) + talk
        invariant GatherLeft(w, batch, talk, Here(), queries[i..]) == goal
      {
        GatherNext(w, batch, talk, Here(), queries, i);
        ghost var f := Lookup(w, Here(), queries[i].0);
        var id := IdFor(queries[i].0);
        assert sent == old(sent) + (talk + f.talk);
        talk := talk + f.talk;
        if id.None? {
          return batch, true, talk;
        }
        batch := batch + [BatchStatement(Id(id.value), queries[i].1)];
        Others();
      }
      assert queries[|queries|..] == [];
      GatherEnds(w, batch, talk, Here());
      refused := false;
    }

    /** `BatchExecute`. Whatever comes of it, the statements sent stand for the queries, one by one and in
        order. */
    method BatchExecute(queries: seq<(Text, Params)>, command: Option<Override>)
      returns (outcome: Outcome, ghost talk: seq<Sent>)
      requires Valid()
      modifies this
      ensures Valid() && sent == old(sent) + talk
      ensures Done(talk, outcome, Here()) ==
              if CanPrepareStatement(command, cacheEnabled) then Together(w, old(Here()), queries)
              else InText(w, old(Here()), queries)
      ensures Conversation(w, CanPrepareStatement(command, cacheEnabled), queries, old(sent), talk, outcome)
      ensures AsConfigured(command, cacheEnabled, talk, queries)
    {
      TogetherSpelled(w, Here(), queries);
      InTextSpelled(w, Here(), queries);
      hide ByIdOnly, ByTextOnly;
      hide Sound, World.Faithful, Serve, Conversation, Gather;
      var batch: seq<BatchStatement> := [];
      talk := [];
      if CanPrepareStatement(command, cacheEnabled) {
        TogetherProper(w, sent, Here(), queries);
        var refused;
        batch, refused, talk := PreparedStatements(queries);
        if refused {
          return Failed, talk;
        }
      } else {
        InTextProper(w, sent, Here(), queries);
        for i := 0 to |queries|
          invariant |batch| == i && forall k :: 0 <= k < i ==> batch[k] == AsText(queries[k])
          invariant sent == old(sent) && Here() == old(Here())
        {
          batch := batch + [AsText(queries[i])];
        }
        assert batch == AllText(queries);
      }
      ghost var asked := talk;
      talk := asked + [Run(batch, now)];
      assert sent == old(sent) + asked;
      outcome := Send(batch);
      assert sent == old(sent) + talk;
    }

    /** The ping of `Maintain`: the only place that reacts to Unprepared, and only for a cached id. */
    method Ping(query: Text) returns (outcome: Outcome, ghost talk: seq<Sent>)
      requires Valid()
      modifies this
      ensures Valid() && sent == old(sent) + talk
      ensures Done(talk, outcome, Here()) == PingAt(w, old(Here()), query)
      ensures Conversation(w, true, [(query, [])], old(sent), talk, outcome)
      ensures OneById(w, old(Here()), (query, []), talk)
      ensures query in old(cache) ==> cache == if outcome == Unprepared then map[] else old(cache)
      ensures query !in old(cache) && !w.prepare(query, old(now)).Refused? ==> query in cache
    {
      AloneSpelled(w, Here(), (query, []));
      LookupCached(w, Here(), query);
      hide Sound, World.Faithful, Serve, Lookup, Conversation, OneById;
      AloneProper(w, sent, Here(), (query, []));
      var cached := Get(query);
      var id := IdFor(query);
      talk := Lookup(w, old(Here()), query).talk;
      if id.None? {
        assert cached.None? by { LookupCached(w, old(Here()), query); }
        return Failed, talk;
      }
      talk := talk + [Run([BatchStatement(Id(id.value), [])], now)];
      outcome := Send([BatchStatement(Id(id.value), [])]);
      assert sent == old(sent) + talk;
      if cached.Some? && outcome == Unprepared {
        EmptySound(w, sent, now);
        Invalidate();
      }
    }
  }

  lemma LookupCached(w: World, cell: Cell, x: Text)
    ensures x in cell.cache ==> Lookup(w, cell, x) == Found(Some(cell.cache[x]), cell, [])
  {
  }

  lemma EmptySound(w: World, log: seq<Sent>, t: Time)
    ensures Sound(w, log, Cell(map[], t))
  {
  }

  /** What gathering comes to, with `ss` gathered and `talk` sent so far and `qs` to come. */
  ghost function GatherLeft(w: World, ss: seq<BatchStatement>, talk: seq<Sent>, cell: Cell, qs: seq<(Text, Params)>): Gathered {
    var rest := Gather(w, cell, qs);
    rest.(statements := ss + rest.statements, talk := talk + rest.talk)
  }

  lemma GatherEnds(w: World, ss: seq<BatchStatement>, talk: seq<Sent>, cell: Cell)
    ensures GatherLeft(w, ss, talk, cell, []) == Gathered(ss, cell, talk, false)
  {
  }

  lemma GatherNext(w: World, ss: seq<BatchStatement>, talk: seq<Sent>, cell: Cell, qs: seq<(Text, Params)>, i: nat)
    requires i < |qs|
    ensures var f := Lookup(w, cell, qs[i].0);
            GatherLeft(w, ss, talk, cell, qs[i..]) ==
              if f.id.None? then Gathered(ss, f.cell, talk + f.talk, true)
              else GatherLeft(w, ss + [BatchStatement(Id(f.id.value), qs[i].1)], talk + f.talk, OthersAt(w, f.cell), qs[i + 1..])
  {
    hide Lookup, OthersAt;
    var f := Lookup(w, cell, qs[i].0);
    assert qs[i..][1..] == qs[i + 1..] && qs[i..][0] == qs[i];
    if f.id.Some? {
      var rest := Gather(w, OthersAt(w, f.cell), qs[i + 1..]);
      var s := BatchStatement(Id(f.id.value), qs[i].1);
      assert ss + ([s] + rest.statements) == ss + [s] + rest.statements;
      assert talk + (f.talk + rest.talk) == talk + f.talk + rest.talk;
    } else {
      assert ss + [] == ss;
    }
  }

  datatype Operation =
    | Single(text: Text, params: Params, command: Option<Override>)
    | Several(queries: seq<(Text, Params)>, command: Option<Override>)
    | Pinged(query: Text)

  /** What the caller asked for. */
  function Wanted(op: Operation): seq<(Text, Params)> {
    match op
    case Single(x, ps, _) => [(x, ps)]
    case Several(qs, _) => qs
    case Pinged(q) => [(q, [])]
  }

  function Mode(op: Operation, cacheEnabled: bool): bool {
    match op
    case Single(_, _, command) => CanPrepareStatement(command, cacheEnabled)
    case Several(_, command) => CanPrepareStatement(command, cacheEnabled)
    case Pinged(_) => true
  }

  /** The messages are those the command's override and the pool's setting ask for. */
  predicate Configured(op: Operation, cacheEnabled: bool, talk: seq<Sent>) {
    match op
    case Single(x, ps, command) => AsConfigured(command, cacheEnabled, talk, [(x, ps)])
    case Several(qs, command) => AsConfigured(command, cacheEnabled, talk, qs)
    case Pinged(_) => ByIdOnly(talk)
  }

  /** A ping with a cached id that the server no longer knows. */
  predicate Discovers(op: Operation, before: Cell, result: Outcome) {
    op.Pinged? && op.query in before.cache && result == Unprepared
  }

  /** Whatever is cached afterwards was prepared by another task after the operation started. */
  ghost predicate OnlyNew(w: World, before: Cell, after: Cell) {
    forall x :: x in after.cache ==> exists v: Time :: before.now < v <= after.now && PreparedToo(x) in w.others(v)
  }

  /** What the operation said, after all that was said before. */
  ghost predicate Conversed(w: World, cacheEnabled: bool, op: Operation, past: seq<Sent>, talk: seq<Sent>, result: Outcome) {
    Conversation(w, Mode(op, cacheEnabled), Wanted(op), past, talk, result)
  }

  function Joined(talks: seq<seq<Sent>>): seq<Sent> {
    if talks == [] then [] else Joined(talks[..|talks| - 1]) + talks[|talks| - 1]
  }

  lemma JoinedSnoc(talks: seq<seq<Sent>>, talk: seq<Sent>)
    ensures Joined(talks + [talk]) == Joined(talks) + talk
  {
    assert (talks + [talk])[..|talks + [talk]| - 1] == talks;
  }

  /** The ping of `Maintain`: a cached id that the server does not know empties the cache. */
  function PingAt(w: World, cell: Cell, query: Text): Done {
    var d := Alone(w, cell, (query, []));
    if query in cell.cache && d.outcome == Unprepared then d.(cell := d.cell.(cache := map[])) else d
  }

  /** What an operation comes to from a given cache. */
  function DoneFor(w: World, cacheEnabled: bool, op: Operation, cell: Cell): Done {
    match op
    case Single(x, ps, _) => if Mode(op, cacheEnabled) then Alone(w, cell, (x, ps)) else InText(w, cell, [(x, ps)])
    case Several(qs, _) => if Mode(op, cacheEnabled) then Together(w, cell, qs) else InText(w, cell, qs)
    case Pinged(q) => PingAt(w, cell, q)
  }

  /** An operation, and what other tasks do after it. */
  ghost predicate Happened(w: World, cacheEnabled: bool, op: Operation, before: Cell, talk: seq<Sent>, result: Outcome, after: Cell) {
    var d := DoneFor(w, cacheEnabled, op, before);
    talk == d.talk && result == d.outcome && after == OthersAt(w, d.cell)
  }

  /** The operations one after the other, other tasks going on in between; `cells` shows the cache before
      each. */
  ghost predicate History(w: World, cacheEnabled: bool, ops: seq<Operation>, cells: seq<Cell>,
                          talks: seq<seq<Sent>>, results: seq<Outcome>)
  {
    && |cells| == |ops| + 1 && |talks| == |results| == |ops| && cells[0] == Cell(map[], 0)
    && forall i :: 0 <= i < |ops| ==> Happened(w, cacheEnabled, ops[i], cells[i], talks[i], results[i], cells[i + 1])
  }

  lemma HistoryGrows(w: World, cacheEnabled: bool, ops: seq<Operation>, cells: seq<Cell>, talks: seq<seq<Sent>>,
                     results: seq<Outcome>, op: Operation, d: Done)
    requires History(w, cacheEnabled, ops, cells, talks, results) && d == DoneFor(w, cacheEnabled, op, cells[|ops|])
    ensures History(w, cacheEnabled, ops + [op], cells + [OthersAt(w, d.cell)], talks + [d.talk], results + [d.outcome])
  {
    assert Happened(w, cacheEnabled, op, cells[|ops|], d.talk, d.outcome, OthersAt(w, d.cell));
    hide Happened, OthersAt, DoneFor;
  }

  /** In every run of single queries, batches and pings, with other tasks and the server's discards in
      between: the operations are served one after the other from an empty cache; all that is sent is,
      operation by operation, a conversation for what that operation asks for; and its outcome is the
      operation's result. */
  method Session(w: World, cacheEnabled: bool, ops: seq<Operation>) returns (results: seq<Outcome>, log: seq<Sent>,
                                                                            ghost talks: seq<seq<Sent>>, ghost cells: seq<Cell>)
    requires w.Faithful()
    ensures History(w, cacheEnabled, ops, cells, talks, results) && log == Joined(talks)
    ensures forall i :: 0 <= i < |ops| ==> Conversed(w, cacheEnabled, ops[i], Joined(talks[..i]), talks[i], results[i])
    ensures forall i :: 0 <= i < |ops| && results[i].Ran? ==> results[i].work == Wanted(ops[i])
    ensures forall i :: 0 <= i < |ops| ==> Configured(ops[i], cacheEnabled, talks[i])
    ensures forall i :: 0 <= i < |ops| && Discovers(ops[i], cells[i], results[i]) ==> OnlyNew(w, cells[i], cells[i + 1])
  {
    hide Conversed, World.Faithful, Sound, History;
    var pool := new StatementCache(w, cacheEnabled);
    results, talks, cells := [], [], [Cell(map[], 0)];
    assert History(w, cacheEnabled, [], cells, [], []) by { NoHistory(w, cacheEnabled); }
    assert ops[..0] == [];
    for i := 0 to |ops|
      invariant pool.Valid() && pool.w == w && pool.cacheEnabled == cacheEnabled && fresh(pool)
      invariant |results| == i == |talks| && |cells| == i + 1 && cells[i] == pool.Here() && pool.sent == Joined(talks)
      invariant History(w, cacheEnabled, ops[..i], cells, talks, results)
      invariant forall k :: 0 <= k < i ==> Conversed(w, cacheEnabled, ops[k], Joined(talks[..k]), talks[k], results[k])
    {
      ghost var past, cell := pool.sent, pool.Here();
      var outcome;
      ghost var talk;
      outcome, talk := Serving(pool, ops[i]);
      HistoryGrows(w, cacheEnabled, ops[..i], cells, talks, results, ops[i], Done(talk, outcome, pool.Here()));
      assert ops[..i + 1] == ops[..i] + [ops[i]];
      OthersSound(w, pool.sent, pool.Here(), w.others(pool.now), pool.now);
      pool.Others();
      JoinedSnoc(talks, talk);
      assert forall k :: 0 <= k <= i ==> (talks + [talk])[..k] == talks[..k];
      assert talks[..i] == talks;
      results, talks, cells := results + [outcome], talks + [talk], cells + [pool.Here()];
    }
    assert ops[..|ops|] == ops;
    log := pool.sent;
    assert |results| == |ops|;
    forall i | 0 <= i < |ops| && results[i].Ran? ensures results[i].work == Wanted(ops[i]) {
      ConversedMeans(w, cacheEnabled, ops[i], Joined(talks[..i]), talks[i], results[i]);
    }
    HistorySpelled(w, cacheEnabled, ops, cells, talks, results);
  }

  /** Every operation of a run speaks as configured, and a ping that learns of discarded ids leaves none
      of them in the cache. */
  lemma HistorySpelled(w: World, cacheEnabled: bool, ops: seq<Operation>, cells: seq<Cell>, talks: seq<seq<Sent>>,
                       results: seq<Outcome>)
    requires History(w, cacheEnabled, ops, cells, talks, results)
    ensures forall i :: 0 <= i < |ops| ==> Configured(ops[i], cacheEnabled, talks[i])
    ensures forall i :: 0 <= i < |ops| && Discovers(ops[i], cells[i], results[i]) ==> OnlyNew(w, cells[i], cells[i + 1])
  {
    hide Configured, Discovers, OnlyNew, Happened;
    forall i | 0 <= i < |ops|
      ensures Configured(ops[i], cacheEnabled, talks[i])
      ensures Discovers(ops[i], cells[i], results[i]) ==> OnlyNew(w, cells[i], cells[i + 1])
    {
      HappenedSpelled(w, cacheEnabled, ops[i], cells[i], talks[i], results[i], cells[i + 1]);
    }
  }

  lemma HappenedSpelled(w: World, cacheEnabled: bool, op: Operation, before: Cell, talk: seq<Sent>, result: Outcome, after: Cell)
    requires Happened(w, cacheEnabled, op, before, talk, result, after)
    ensures Configured(op, cacheEnabled, talk)
    ensures Discovers(op, before, result) ==> OnlyNew(w, before, after)
  {
    hide Alone, Together, InText, OthersAt, ByIdOnly, ByTextOnly;
    match op {
      case Single(x, ps, _) =>
        AloneSpelled(w, before, (x, ps));
        InTextSpelled(w, before, [(x, ps)]);
      case Several(qs, _) =>
        TogetherSpelled(w, before, qs);
        InTextSpelled(w, before, qs);
      case Pinged(q) =>
        AloneSpelled(w, before, (q, []));
        if Discovers(op, before, result) {
          var d := PingAt(w, before, q);
          AloneLater(w, before, (q, []));
          OthersAdd(w, d.cell, w.others(d.cell.now), d.cell.now);
          assert after == OthersFrom(w, d.cell, w.others(d.cell.now)) by { EmptiedThen(w, d.cell); }
        }
    }
  }

  lemma EmptiedThen(w: World, cell: Cell)
    ensures OthersAt(w, cell) == OthersFrom(w, cell, w.others(cell.now))
  {
  }

  lemma AloneLater(w: World, cell: Cell, q: (Text, Params))
    ensures q.0 in cell.cache ==> Alone(w, cell, q).cell.now == cell.now + 1
  {
  }

  /** Other tasks add nothing but what they prepare. */
  lemma {:induction false} OthersAdd(w: World, cell: Cell, steps: seq<Other>, v: Time)
    requires forall x :: x in steps ==> x in w.others(v)
    ensures var later := OthersFrom(w, cell, steps);
            cell.now <= later.now && forall x :: x in later.cache ==> x in cell.cache || PreparedToo(x) in w.others(v)
    decreases |steps|
  {
    if steps != [] {
      OthersAdd(w, OtherAt(w, cell, steps[0]), steps[1..], v);
    }
  }

  lemma NoHistory(w: World, cacheEnabled: bool)
    ensures History(w, cacheEnabled, [], [Cell(map[], 0)], [], [])
  {
  }

  lemma ConversedMeans(w: World, cacheEnabled: bool, op: Operation, past: seq<Sent>, talk: seq<Sent>, result: Outcome)
    requires w.Faithful() && Conversed(w, cacheEnabled, op, past, talk, result)
    ensures result.Ran? ==> result.work == Wanted(op)
  {
    ConversationMeans(w, Mode(op, cacheEnabled), Wanted(op), past, talk, result);
    hide Conversation;
  }

  method Serving(pool: StatementCache, op: Operation) returns (outcome: Outcome, ghost talk: seq<Sent>)
    requires pool.Valid()
    modifies pool
    ensures pool.Valid() && pool.sent == old(pool.sent) + talk
    ensures Done(talk, outcome, pool.Here()) == DoneFor(pool.w, pool.cacheEnabled, op, old(pool.Here()))
    ensures Conversed(pool.w, pool.cacheEnabled, op, old(pool.sent), talk, outcome)
  {
    hide Conversation, World.Faithful, Sound, Alone, Together, InText;
    match op {
      case Single(x, ps, command) => outcome, talk := pool.Execute(x, ps, command);
      case Several(qs, command) => outcome, talk := pool.BatchExecute(qs, command);
      case Pinged(q) => outcome, talk := pool.Ping(q);
    }
  }

  /** Down to the bytes: a server that reads the frame of a prepared batch finds exactly the batch sent, and
      runs the queries it stands for if and only if it knows every id, and otherwise nothing. */
  lemma PreparedBatchOnTheWire(w: World, log: seq<Sent>, lz: Option<Lz4>, stream: int, ss: seq<BatchStatement>,
                               consistency: int, qs: seq<(Text, Params)>, at: Time, t: Time)
    requires w.Faithful() && StandAll(w, log, ss, qs, at)
    requires Usable(lz) && Sendable(lz, (stream, Batch(ss, consistency))) && Fits(Batch(ss, consistency))
    ensures Understand(lz, RequestFrame(lz, (stream, Batch(ss, consistency)))) == Some((stream, Batch(ss, consistency)))
    ensures Serve(w, ss, t) == if w.fails(t) then Failed
                               else if forall s :: s in ss ==> RealAndKnown(w, s, t) then Ran(qs)
                               else Unprepared
  {
    hide Understand, RequestFrame, Fits, Sendable, Usable, Serve, StandAll, World.Faithful;
    RequestUnderstood(lz, (stream, Batch(ss, consistency)));
    PreparedAgreesWithText(w, log, ss, qs, at, t);
  }
}
