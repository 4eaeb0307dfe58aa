/**
 PrivateState's reads (src/kit/mirror.cpp, PrivateState::Core): one read at a time, and a
 refresh asked for during a read is answered by a later read.

 Runs are interleavings of the critical sections and of the reads they start: between setting
 `reading`, clearing `again`, starting the read and its reply, any other handler may run.
 */
module KitPrivateState {
  import opened Options

  // A callback is known by the time it was handed to `refresh`.
  datatype Core<V> = Core(reading: bool, again: bool, waiters: seq<nat>, value: Option<V>)

  // A finished read either starts over or answers the callbacks that waited for it.
  datatype Outcome = ReadAgain | Answer(done: seq<nat>)

  function Refreshed<V>(c: Core<V>, done: Option<nat>): Core<V> {
    var waiting := if done.Some? then c.(waiters := c.waiters + [done.value]) else c;
    if c.reading then waiting.(again := true) else waiting.(reading := true)
  }

  function ReadEnded<V>(c: Core<V>, reply: Option<V>): (Core<V>, Outcome) {
    if c.again then (c, ReadAgain)
    else (Core(false, c.again, [], if reply.Some? then reply else c.value), Answer(c.waiters))
  }

  // `owed` handlers are about to enter readOnce, `armed` ones have cleared `again` and are about
  // to start their read, and `inFlight` holds the time each read in flight was started.
  datatype World<V> = World(
    core: Core<V>, owed: nat, armed: nat, inFlight: set<nat>, now: nat, answers: seq<Answered>)
  datatype Answered = Answered(asked: nat, readBegan: nat)

  datatype Event<V> =
    | Refresh(done: bool)
    | Arm
    | Begin
    | Reply(read: nat, reply: Option<V>)

  predicate Possible<V>(w: World<V>, ev: Event<V>) {
    match ev
    case Refresh(_) => true
    case Arm => w.owed > 0
    case Begin => w.armed > 0
    case Reply(read, _) => read in w.inFlight
  }

  function Next<V>(w: World<V>, ev: Event<V>): World<V>
    requires Possible(w, ev)
  {
    var t := w.(now := w.now + 1);
    match ev
    case Refresh(done) =>
      t.(core := Refreshed(w.core, if done then Some(w.now) else None),
         owed := if w.core.reading then w.owed else w.owed + 1)
    case Arm => t.(core := w.core.(again := false), owed := w.owed - 1, armed := w.armed + 1)
    case Begin => t.(armed := w.armed - 1, inFlight := w.inFlight + {w.now})
    case Reply(read, reply) =>
      var (core, outcome) := ReadEnded(w.core, reply);
      var left := t.(core := core, inFlight := w.inFlight - {read});
      if outcome.ReadAgain? then left.(owed := w.owed + 1)
      else left.(answers := w.answers + AllAnswered(outcome.done, read))
  }

  function AllAnswered(done: seq<nat>, readBegan: nat): (r: seq<Answered>)
    ensures |r| == |done| && forall i :: 0 <= i < |r| ==> r[i] == Answered(done[i], readBegan)
  {
    if done == [] then [] else [Answered(done[0], readBegan)] + AllAnswered(done[1..], readBegan)
  }

  // Nothing has been asked yet.
  predicate AtStart<V>(w: World<V>) {
    && !w.core.reading && !w.core.again && w.core.waiters == []
    && w.owed == 0 && w.armed == 0 && w.inFlight == {} && w.answers == []
  }

  predicate IsRun<V>(w: World<V>, evs: seq<Event<V>>)
    decreases |evs|
  {
    evs == [] || (Possible(w, evs[0]) && IsRun(Next(w, evs[0]), evs[1..]))
  }

  function After<V>(w: World<V>, evs: seq<Event<V>>): World<V>
    requires IsRun(w, evs)
    decreases |evs|
  {
    if evs == [] then w else After(Next(w, evs[0]), evs[1..])
  }

  ghost predicate Fresh(waiters: seq<nat>, answers: seq<Answered>) {
    && (forall i, j :: 0 <= i < j < |waiters| ==> waiters[i] < waiters[j])
    && (forall i, j :: 0 <= i < |waiters| && 0 <= j < |answers| ==> answers[j].asked < waiters[i])
    && (forall i, j :: 0 <= i < j < |answers| ==> answers[i].asked < answers[j].asked)
  }

  ghost predicate Inv<V>(w: World<V>) {
    && w.owed + w.armed + |w.inFlight| == (if w.core.reading then 1 else 0)
    && (w.core.waiters != [] ==> w.core.reading)
    && (w.core.again ==> w.core.reading)
    && (forall i :: 0 <= i < |w.core.waiters| ==> w.core.waiters[i] < w.now)
    && (forall i :: 0 <= i < |w.answers| ==> w.answers[i].asked < w.answers[i].readBegan < w.now)
    && Fresh(w.core.waiters, w.answers)
    && (forall r :: r in w.inFlight ==> r < w.now)
    // A read in flight that is not to be repeated began after everything waiting asked.
    && (!w.core.again ==> forall i, r :: 0 <= i < |w.core.waiters| && r in w.inFlight ==> w.core.waiters[i] < r)
  }

  lemma RefreshKeepsInv<V>(w: World<V>, done: bool)
    requires Inv(w)
    ensures Inv(Next(w, Refresh(done)))
  {
    var w' := Next(w, Refresh(done));
    assert done ==> w'.core.waiters == w.core.waiters + [w.now];
    assert !done ==> w'.core.waiters == w.core.waiters;
    assert Fresh(w'.core.waiters, w'.answers);
  }

  lemma ReplyKeepsInv<V>(w: World<V>, read: nat, reply: Option<V>)
    requires Inv(w) && read in w.inFlight
    ensures Inv(Next(w, Reply(read, reply)))
  {
    assert |w.inFlight| == 1 && |w.inFlight - {read}| == 0;
    if !w.core.again { AnswersStayFresh(w.core.waiters, w.answers, read); }
  }

  lemma AnswersStayFresh(waiters: seq<nat>, answers: seq<Answered>, read: nat)
    requires Fresh(waiters, answers)
    ensures Fresh([], answers + AllAnswered(waiters, read))
  {
    var n, all := |answers|, answers + AllAnswered(waiters, read);
    assert forall k :: 0 <= k < n ==> all[k] == answers[k];
    assert forall k :: n <= k < |all| ==> all[k] == Answered(waiters[k - n], read);
  }

  lemma StepKeepsInv<V>(w: World<V>, ev: Event<V>)
    requires Inv(w) && Possible(w, ev)
    ensures Inv(Next(w, ev))
  {
    match ev
    case Refresh(done) => RefreshKeepsInv(w, done);
    case Reply(read, reply) => ReplyKeepsInv(w, read, reply);
    case _ =>
  }

  lemma {:induction false} RunKeepsInv<V>(w: World<V>, evs: seq<Event<V>>)
    requires Inv(w) && IsRun(w, evs)
    ensures Inv(After(w, evs))
    decreases |evs|
  {
    if evs != [] {
      StepKeepsInv(w, evs[0]);
      RunKeepsInv(Next(w, evs[0]), evs[1..]);
    }
  }

  /**
   However requests, reads and replies interleave: at most one read is in flight, every callback
   is answered at most once and only by a read that began after it was handed over, and no
   callback waits while no read is under way.
   */
  lemma RefreshesAreServed<V>(start: World<V>, evs: seq<Event<V>>)
    requires AtStart(start) && IsRun(start, evs)
    ensures var w := After(start, evs);
      && |w.inFlight| <= 1
      && (forall a :: a in w.answers ==> a.asked < a.readBegan)
      && (forall i, j :: 0 <= i < j < |w.answers| ==> w.answers[i].asked != w.answers[j].asked)
      && (w.core.waiters != [] ==> w.owed + w.armed + |w.inFlight| == 1)
  {
    RunKeepsInv(start, evs);
  }
}
