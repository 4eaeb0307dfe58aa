/**
 The kit's topic mirror (src/kit/mirror.cpp): a client replica of a hub topic, fed by a
 snapshot call and by a push stream that may lose, repeat and reorder messages.

 `Hub` is the simple thing the mirror must agree with: a log per epoch and its fold.
 `Applied`, `SyncEnded` and the rest say what one handler does to the mirror's fields, the class
 `TopicMirror` is the handler code, and the lemmas at the end are about whole runs.
 */
module KitMirror {
  import opened Options

  datatype Shape = Snapshots | Collection

  // The members of a JSON container that the mirror reads. `typeName` is "" when absent.
  datatype Props = Object(text: string) | NotAnObject
  datatype Body = Body(id: Option<int>, removed: bool, typeName: string, props: Props)
  datatype Container = Container(id: int, typeName: string, props: string)
  type Members = map<int, Container>

  datatype Payload =
    | SnapshotOf(containers: seq<Body>)
    | DeltaOf(body: Body)
    | ChangedNote
    | EventNote
  datatype Message = Message(epoch: int, seq_: int, payload: Payload)

  datatype State = State(
    shape: Shape, epoch: int, seq_: int, hasState: bool, state: seq<Body>, members: Members,
    syncing: bool, buffering: bool, buffer: seq<Message>)

  // What one handler asks of its caller once the lock is released.
  datatype Effects = Effects(changed: bool, resync: bool)

  function Initial(shape: Shape): State {
    State(shape, -1, 0, false, [], map[], false, false, [])
  }

  function PropsText(p: Props): string {
    if p.Object? then p.text else "{}"
  }

  function MembersOf(containers: seq<Body>): Members {
    if containers == [] then map[]
    else
      var before := MembersOf(containers[..|containers| - 1]);
      var c := containers[|containers| - 1];
      if c.removed || c.id.None? then before
      else before[c.id.value := Container(c.id.value, c.typeName, PropsText(c.props))]
  }

  function MembersAfter(members: Members, b: Body): Option<Members> {
    if b.id.None? then None
    else
      var id := b.id.value;
      if b.removed then Some(members - {id})
      else
        var typeName := if b.typeName == "" && id in members then members[id].typeName else b.typeName;
        Some(members[id := Container(id, typeName, PropsText(b.props))])
  }

  function SnapshotTaken(s: State, containers: seq<Body>): State {
    if s.shape == Snapshots then s.(hasState := true, state := containers)
    else s.(hasState := true, members := MembersOf(containers))
  }

  function DeltaTaken(s: State, b: Body): Option<State> {
    if s.shape != Collection then None
    else match MembersAfter(s.members, b)
      case None => None
      case Some(members) => Some(s.(members := members))
  }

  function Applied(s: State, m: Message, e: Effects): (State, Effects) {
    if m.epoch != s.epoch then
      if m.payload.SnapshotOf? then
        (SnapshotTaken(s.(epoch := m.epoch, seq_ := m.seq_), m.payload.containers), e.(changed := true))
      else (s, e.(resync := true))
    else if m.seq_ <= s.seq_ then (s, e)
    else
      var gap := m.seq_ != s.seq_ + 1;
      var at := s.(seq_ := m.seq_);
      match m.payload
      case SnapshotOf(containers) => (SnapshotTaken(at, containers), e.(changed := true))
      case DeltaOf(body) =>
        var taken := DeltaTaken(at, body);
        if gap || !s.hasState || taken.None? then (at, e.(resync := true))
        else (taken.value, e.(changed := true))
      case _ => (at, if gap && s.shape == Collection then e.(resync := true) else e)
  }

  function AllApplied(s: State, ms: seq<Message>, e: Effects): (State, Effects)
    decreases |ms|
  {
    if ms == [] then (s, e)
    else
      var (s', e') := Applied(s, ms[0], e);
      AllApplied(s', ms[1..], e')
  }

  function Pushed(s: State, m: Message): (State, Effects) {
    if s.buffering then (s.(buffer := s.buffer + [m]), Effects(false, false))
    else Applied(s, m, Effects(false, false))
  }

  function ResyncBegun(s: State): State {
    if s.syncing then s else s.(syncing := true, buffering := true, buffer := [])
  }

  /** The snapshot call was answered; `None` is a failed call or an answer that is no kit message. */
  function SyncEnded(s: State, reply: Option<Message>): (State, Effects) {
    var idle := s.(syncing := false, buffering := false, buffer := []);
    match reply
    case None => (idle, Effects(false, false))
    case Some(r) =>
      var containers := if r.payload.SnapshotOf? then r.payload.containers else [];
      var at := SnapshotTaken(idle.(epoch := r.epoch, seq_ := r.seq_), containers);
      var (s', e) := AllApplied(at, SortBySeq(s.buffer), Effects(false, false));
      (s', e.(changed := true))
  }

  // ---- the stable sort by seq ----

  function InsertBySeq(m: Message, sorted: seq<Message>): seq<Message> {
    if sorted == [] || m.seq_ <= sorted[0].seq_ then [m] + sorted
    else [sorted[0]] + InsertBySeq(m, sorted[1..])
  }

  function SortBySeq(ms: seq<Message>): seq<Message> {
    if ms == [] then [] else InsertBySeq(ms[0], SortBySeq(ms[1..]))
  }

  ghost predicate Ordered(ms: seq<Message>) {
    forall i, j :: 0 <= i < j < |ms| ==> ms[i].seq_ <= ms[j].seq_
  }

  lemma {:induction false} InsertPermutes(m: Message, sorted: seq<Message>)
    ensures multiset(InsertBySeq(m, sorted)) == multiset{m} + multiset(sorted)
  {
    if sorted == [] || m.seq_ <= sorted[0].seq_ {
    } else {
      InsertPermutes(m, sorted[1..]);
      assert sorted == [sorted[0]] + sorted[1..];
    }
  }

  lemma {:induction false} InsertOrders(m: Message, sorted: seq<Message>)
    requires Ordered(sorted)
    ensures Ordered(InsertBySeq(m, sorted))
    ensures var r := InsertBySeq(m, sorted); r != [] && (r[0] == m || (sorted != [] && r[0] == sorted[0]))
  {
    if sorted == [] || m.seq_ <= sorted[0].seq_ {
    } else {
      InsertOrders(m, sorted[1..]);
      var rest := InsertBySeq(m, sorted[1..]);
      assert sorted[0].seq_ <= rest[0].seq_;
      assert forall j :: 0 < j < |rest| ==> rest[0].seq_ <= rest[j].seq_;
    }
  }

  /** Sorting keeps exactly the buffered messages, in non-decreasing seq. */
  lemma {:induction false} SortSorts(ms: seq<Message>)
    ensures Ordered(SortBySeq(ms))
    ensures multiset(SortBySeq(ms)) == multiset(ms)
  {
    if ms != [] {
      SortSorts(ms[1..]);
      InsertOrders(ms[0], SortBySeq(ms[1..]));
      InsertPermutes(ms[0], SortBySeq(ms[1..]));
      assert ms == [ms[0]] + ms[1..];
    }
  }

  lemma SortKeepsMembers(ms: seq<Message>)
    ensures forall m :: m in SortBySeq(ms) <==> m in ms
  {
    SortSorts(ms);
    forall m ensures m in SortBySeq(ms) <==> m in ms {
      assert m in SortBySeq(ms) <==> m in multiset(SortBySeq(ms));
      assert m in ms <==> m in multiset(ms);
    }
  }

  // ---- the hub ----

  // For each epoch: the position and state it starts from (as members, and as the body of a
  // snapshot), the message published at each later seq, and, where that message is a delta
  // without an id, what the hub's state became.
  datatype Hub = Hub(first: int -> int, start: int -> Members, startBody: int -> seq<Body>,
                     log: (int, int) -> Payload, garbled: (int, int) -> Members)
  {
    /** The fold of the epoch's log up to `n`. */
    ghost function At(e: int, n: int): Members
      decreases n - first(e)
    {
      if n <= first(e) then start(e)
      else match log(e, n)
        case SnapshotOf(containers) => MembersOf(containers)
        case DeltaOf(b) => if b.id.None? then garbled(e, n) else MembersAfter(At(e, n - 1), b).value
        case _ => At(e, n - 1)
    }

    /** The body of the last snapshot at or below `n`. */
    ghost function Last(e: int, n: int): seq<Body>
      decreases n - first(e)
    {
      if n <= first(e) then startBody(e)
      else if log(e, n).SnapshotOf? then log(e, n).containers
      else Last(e, n - 1)
    }

    /** A push is authentic when the hub published it; nothing is said about when it arrives. */
    ghost predicate Published(m: Message) {
      m.seq_ > first(m.epoch) && m.payload == log(m.epoch, m.seq_)
    }

    /** A snapshot reply carries the hub's state at its own position. */
    ghost predicate Answers(r: Message, shape: Shape) {
      && r.seq_ >= first(r.epoch) && r.payload.SnapshotOf?
      && if shape == Collection then MembersOf(r.payload.containers) == At(r.epoch, r.seq_)
         else r.payload.containers == Last(r.epoch, r.seq_)
    }
  }

  ghost predicate AllPublished(h: Hub, ms: seq<Message>) {
    forall i :: 0 <= i < |ms| ==> h.Published(ms[i])
  }

  /** The mirror holds the hub's folded state at its own position. */
  ghost predicate Agrees(h: Hub, s: State) {
    s.seq_ >= h.first(s.epoch) && s.members == h.At(s.epoch, s.seq_)
  }

  /** `m` moves the mirror's seq past a change the mirror does not apply. */
  predicate Skips(s: State, m: Message) {
    && m.epoch == s.epoch && m.seq_ > s.seq_ && !m.payload.SnapshotOf?
    && (m.seq_ != s.seq_ + 1 || (m.payload.DeltaOf? && (!s.hasState || m.payload.body.id.None?)))
  }

  /** One published message keeps the agreement, or is skipped and asks for a snapshot. */
  lemma ApplyKeepsAgreement(h: Hub, s: State, m: Message, e: Effects)
    requires s.shape == Collection && h.Published(m)
    ensures var (s', e') := Applied(s, m, e);
      && s'.shape == Collection
      && (e.resync ==> e'.resync)
      && (Skips(s, m) ==> e'.resync)
      && (s.hasState ==> s'.hasState)
      && (s.hasState && Agrees(h, s) && !Skips(s, m) ==> Agrees(h, s'))
      && (!s.hasState && s'.hasState ==> Agrees(h, s'))
      && (s'.hasState && m.payload.SnapshotOf? && s' != s ==> Agrees(h, s'))
  {
  }

  // Agreement across a list of messages: `clean` is what is known before it.
  lemma {:induction false} ApplyAllKeepsAgreement(h: Hub, s: State, ms: seq<Message>, e: Effects)
    requires s.shape == Collection && s.hasState && AllPublished(h, ms)
    requires Agrees(h, s) || e.resync
    ensures var (s', e') := AllApplied(s, ms, e);
      s'.shape == Collection && s'.hasState && (Agrees(h, s') || e'.resync)
    decreases |ms|
  {
    if ms != [] {
      assert h.Published(ms[0]);
      ApplyKeepsAgreement(h, s, ms[0], e);
      var (s', e') := Applied(s, ms[0], e);
      assert AllPublished(h, ms[1..]);
      ApplyAllKeepsAgreement(h, s', ms[1..], e');
    }
  }

  lemma {:induction false} ApplyAllKeepsFlags(s: State, ms: seq<Message>, e: Effects)
    ensures var (s', e') := AllApplied(s, ms, e);
      s'.shape == s.shape && s'.syncing == s.syncing && s'.buffering == s.buffering && s'.buffer == s.buffer
    decreases |ms|
  {
    if ms != [] {
      var (s', e') := Applied(s, ms[0], e);
      ApplyAllKeepsFlags(s', ms[1..], e');
    }
  }

  // ---- runs ----

  // The mirror between two critical sections. `owed` counts handlers that have released the lock
  // and have not yet made the resync they decided on; `failed` is the outcome of the most recent
  // snapshot call; `skipped` is true from a skipped change until the next snapshot.
  datatype World = World(mirror: State, owed: nat, failed: bool, skipped: bool)

  function Begin(shape: Shape): World { World(Initial(shape), 0, false, false) }

  datatype Event =
    | Push(message: Message)             // a push arrives, at any time and in any order
    | RunOwed                            // a handler makes the resync it owes
    | Ask                                // a caller, a reconnect or `start` asks for a resync
    | Reply(answer: Option<Message>)     // the snapshot call in flight is answered

  ghost predicate Possible(h: Hub, w: World, ev: Event) {
    match ev
    case Push(m) => h.Published(m)
    case RunOwed => w.owed > 0
    case Ask => true
    case Reply(a) => w.mirror.syncing && (a.Some? ==> h.Answers(a.value, w.mirror.shape))
  }

  function Owe(w: World, e: Effects): nat { if e.resync then w.owed + 1 else w.owed }

  ghost function Next(w: World, ev: Event): World
    requires ev.RunOwed? ==> w.owed > 0
  {
    match ev
    case Push(m) =>
      var (s, e) := Pushed(w.mirror, m);
      var skipped := if w.mirror.buffering then w.skipped
                     else if Skips(w.mirror, m) then true
                     else if m.payload.SnapshotOf? && s != w.mirror then false
                     else w.skipped;
      World(s, Owe(w, e), w.failed, skipped)
    case RunOwed => w.(mirror := ResyncBegun(w.mirror), owed := w.owed - 1)
    case Ask => w.(mirror := ResyncBegun(w.mirror))
    case Reply(a) =>
      var (s, e) := SyncEnded(w.mirror, a);
      World(s, Owe(w, e), a.None?, if a.None? then w.skipped else e.resync)
  }

  ghost predicate IsRun(h: Hub, w: World, evs: seq<Event>)
    decreases |evs|
  {
    evs == [] || (Possible(h, w, evs[0]) && IsRun(h, Next(w, evs[0]), evs[1..]))
  }

  ghost function After(h: Hub, w: World, evs: seq<Event>): World
    requires IsRun(h, w, evs)
    decreases |evs|
  {
    if evs == [] then w else After(h, Next(w, evs[0]), evs[1..])
  }

  ghost predicate Inv(h: Hub, w: World) {
    var s := w.mirror;
    && s.shape == Collection
    && s.buffering == s.syncing
    && AllPublished(h, s.buffer)
    && (!s.syncing ==> s.buffer == [])
    && (s.hasState && !w.skipped ==> Agrees(h, s))
    && (w.skipped ==> s.syncing || w.owed > 0 || w.failed)
  }

  lemma SyncedKeepsInv(h: Hub, w: World, a: Option<Message>)
    requires Inv(h, w) && Possible(h, w, Reply(a))
    ensures Inv(h, Next(w, Reply(a)))
  {
    if a.Some? {
      var s := w.mirror;
      var r := a.value;
      var at := SnapshotTaken(
        s.(syncing := false, buffering := false, buffer := [], epoch := r.epoch, seq_ := r.seq_), r.payload.containers);
      SortKeepsMembers(s.buffer);
      var sorted := SortBySeq(s.buffer);
      assert forall i :: 0 <= i < |sorted| ==> sorted[i] in s.buffer;
      assert AllPublished(h, sorted);
      ApplyAllKeepsAgreement(h, at, sorted, Effects(false, false));
      ApplyAllKeepsFlags(at, sorted, Effects(false, false));
    }
  }

  lemma StepKeepsInv(h: Hub, w: World, ev: Event)
    requires Inv(h, w) && Possible(h, w, ev)
    ensures Inv(h, Next(w, ev))
  {
    match ev
    case Push(m) => ApplyKeepsAgreement(h, w.mirror, m, Effects(false, false));
    case Reply(a) => SyncedKeepsInv(h, w, a);
    case _ =>
  }

  lemma {:induction false} RunKeepsInv(h: Hub, w: World, evs: seq<Event>)
    requires Inv(h, w) && IsRun(h, w, evs)
    ensures Inv(h, After(h, w, evs))
    decreases |evs|
  {
    if evs != [] {
      StepKeepsInv(h, w, evs[0]);
      RunKeepsInv(h, Next(w, evs[0]), evs[1..]);
    }
  }

  /**
   Agreement over every run, with pushes lost, repeated and reordered and with every interleaving
   of the critical sections: a Collection mirror that has taken a snapshot holds the hub's state
   at its own (epoch, seq), or a snapshot call is in flight or about to be made, or the most
   recent snapshot call failed.
   */
  lemma MirrorAgreesInEveryRun(h: Hub, evs: seq<Event>)
    requires IsRun(h, Begin(Collection), evs)
    ensures var w := After(h, Begin(Collection), evs);
      w.mirror.hasState ==> Agrees(h, w.mirror) || w.mirror.syncing || w.owed > 0 || w.failed
    ensures var w := After(h, Begin(Collection), evs);
      w.mirror.hasState && !w.skipped ==> Agrees(h, w.mirror)
  {
    RunKeepsInv(h, Begin(Collection), evs);
  }

  // ---- what a successful sync does with the messages buffered while it ran ----

  /** `m` is beyond a seq that neither the snapshot nor any buffered message accounts for. */
  ghost predicate IsHole(ms: seq<Message>, from: int, m: Message) {
    m.seq_ > from + 1 && !m.payload.SnapshotOf? && forall x :: x in ms ==> x.seq_ != m.seq_ - 1
  }

  ghost predicate HasHole(ms: seq<Message>, from: int) {
    exists m :: m in ms && IsHole(ms, from, m)
  }

  ghost predicate OfEpoch(h: Hub, ms: seq<Message>, epoch: int) {
    forall m :: m in ms ==> m.epoch == epoch && h.Published(m) && (m.payload.DeltaOf? ==> m.payload.body.id.Some?)
  }

  ghost predicate IsTop(ms: seq<Message>, from: int, top: int) {
    && top >= from && (forall m :: m in ms ==> m.seq_ <= top)
    && (top == from || exists m :: m in ms && m.seq_ == top)
  }

  // Taking the lowest message moves `from` up to it; the holes left are the holes of the rest.
  lemma FirstHole(h: Hub, ms: seq<Message>, epoch: int, from: int)
    requires ms != [] && Ordered(ms) && OfEpoch(h, ms, epoch)
    ensures var m := ms[0];
      var from' := if m.seq_ <= from then from else m.seq_;
      HasHole(ms, from) <==> (m.seq_ > from + 1 && !m.payload.SnapshotOf?) || HasHole(ms[1..], from')
  {
    var m, rest := ms[0], ms[1..];
    var from' := if m.seq_ <= from then from else m.seq_;
    assert forall x :: x in rest ==> x in ms && m.seq_ <= x.seq_;
    assert forall x :: x in ms ==> x == m || x in rest;
    if HasHole(ms, from) {
      var x :| x in ms && IsHole(ms, from, x);
      if x.seq_ == m.seq_ {
        assert x.payload == m.payload;
      } else {
        assert IsHole(rest, from', x);
      }
    }
    if HasHole(rest, from') {
      var x :| x in rest && IsHole(rest, from', x);
      assert IsHole(ms, from, x);
    }
    if m.seq_ > from + 1 && !m.payload.SnapshotOf? {
      assert IsHole(ms, from, m);
    }
  }

  lemma ApplyInEpoch(h: Hub, s: State, m: Message, e: Effects)
    requires s.shape == Collection && s.hasState && OfEpoch(h, [m], s.epoch)
    ensures var (s', e') := Applied(s, m, e);
      && s'.shape == Collection && s'.hasState && s'.epoch == s.epoch
      && s'.seq_ == (if m.seq_ <= s.seq_ then s.seq_ else m.seq_)
      && (e'.resync <==> e.resync || (m.seq_ > s.seq_ + 1 && !m.payload.SnapshotOf?))
  {
    assert m in [m];
  }

  lemma TopOfRest(ms: seq<Message>, from: int, top: int)
    requires ms != []
    requires IsTop(ms[1..], if ms[0].seq_ <= from then from else ms[0].seq_, top)
    ensures IsTop(ms, from, top)
  {
    assert ms[0] in ms;
    assert forall x :: x in ms ==> x == ms[0] || x in ms[1..];
    assert forall x :: x in ms[1..] ==> x in ms;
  }

  lemma {:induction false} ApplyAllFindsHoles(h: Hub, s: State, ms: seq<Message>, e: Effects)
    requires s.shape == Collection && s.hasState && Ordered(ms) && OfEpoch(h, ms, s.epoch)
    ensures var (s', e') := AllApplied(s, ms, e);
      && s'.epoch == s.epoch && IsTop(ms, s.seq_, s'.seq_)
      && (e'.resync <==> e.resync || HasHole(ms, s.seq_))
    decreases |ms|
  {
    if ms != [] {
      var (s', e') := Applied(s, ms[0], e);
      ApplyInEpoch(h, s, ms[0], e);
      FirstHole(h, ms, s.epoch, s.seq_);
      assert OfEpoch(h, ms[1..], s.epoch) by {
        assert forall x :: x in ms[1..] ==> x in ms;
      }
      ApplyAllFindsHoles(h, s', ms[1..], e');
      TopOfRest(ms, s.seq_, AllApplied(s', ms[1..], e').0.seq_);
    }
  }

  lemma SameHoles(a: seq<Message>, b: seq<Message>, from: int)
    requires forall m :: m in a <==> m in b
    ensures HasHole(a, from) <==> HasHole(b, from)
  {
    assert forall m :: IsHole(a, from, m) <==> IsHole(b, from, m);
  }

  /**
   A successful sync whose buffered pushes are of the snapshot's epoch and well formed, in any
   arrival order and with any repeats and older messages: it ends at the highest seq received, it
   asks for another snapshot exactly when a seq is unaccounted for, and otherwise it holds the
   hub's state there.
   */
  lemma SyncReachesTheTop(h: Hub, s: State, r: Message)
    requires s.shape == Collection && h.Answers(r, Collection) && OfEpoch(h, s.buffer, r.epoch)
    ensures var (s', e) := SyncEnded(s, Some(r));
      && s'.epoch == r.epoch && IsTop(s.buffer, r.seq_, s'.seq_)
      && (e.resync <==> HasHole(s.buffer, r.seq_))
      && (!e.resync ==> Agrees(h, s'))
  {
    var sorted := SortBySeq(s.buffer);
    SortSorts(s.buffer);
    SortKeepsMembers(s.buffer);
    var at := SnapshotTaken(
      s.(syncing := false, buffering := false, buffer := [], epoch := r.epoch, seq_ := r.seq_), r.payload.containers);
    ApplyAllFindsHoles(h, at, sorted, Effects(false, false));
    ApplyAllKeepsAgreement(h, at, sorted, Effects(false, false));
    SameHoles(sorted, s.buffer, r.seq_);
    assert IsTop(s.buffer, r.seq_, AllApplied(at, sorted, Effects(false, false)).0.seq_);
  }

  /** Buffered pushes without a missing seq: one snapshot is enough. */
  lemma CoveredSyncNeedsOneSnapshot(h: Hub, s: State, r: Message)
    requires s.shape == Collection && h.Answers(r, Collection) && OfEpoch(h, s.buffer, r.epoch)
    requires forall m :: m in s.buffer && m.seq_ > r.seq_ + 1 ==> exists x :: x in s.buffer && x.seq_ == m.seq_ - 1
    ensures var (s', e) := SyncEnded(s, Some(r)); !e.resync && Agrees(h, s') && IsTop(s.buffer, r.seq_, s'.seq_)
  {
    SyncReachesTheTop(h, s, r);
  }

  // ---- where agreement fails ----

  ghost predicate Reaches(h: Hub, w: World, w': World) {
    exists evs :: IsRun(h, w, evs) && After(h, w, evs) == w'
  }

  lemma ReachesItself(h: Hub, w: World)
    ensures Reaches(h, w, w)
  {
    assert IsRun(h, w, []) && After(h, w, []) == w;
  }

  lemma ReachesByStep(h: Hub, w: World, ev: Event, w': World)
    requires Possible(h, w, ev) && Reaches(h, Next(w, ev), w')
    ensures Reaches(h, w, w')
  {
    var evs :| IsRun(h, Next(w, ev), evs) && After(h, Next(w, ev), evs) == w';
    var all := [ev] + evs;
    assert all[0] == ev && all[1..] == evs;
    assert IsRun(h, w, all) && After(h, w, all) == w';
  }

  // Idle after a first snapshot, empty, at position 0 of epoch 7.
  function Synced0(shape: Shape): World {
    World(State(shape, 7, 0, true, [], map[], false, false, []), 0, false, false)
  }

  lemma ReachesSynced0(h: Hub, shape: Shape, w': World)
    requires h.Answers(Message(7, 0, SnapshotOf([])), shape) && Reaches(h, Synced0(shape), w')
    ensures Reaches(h, Begin(shape), w')
  {
    var asked := Next(Begin(shape), Ask);
    var reply := Reply(Some(Message(7, 0, SnapshotOf([]))));
    assert SortBySeq([]) == [];
    assert Next(asked, reply) == Synced0(shape);
    ReachesByStep(h, asked, reply, w');
    ReachesByStep(h, Begin(shape), Ask, w');
  }

  const ONE_PER_SEQ: Hub :=
    Hub(e => 0, e => map[], e => [], (e, n) => DeltaOf(Body(Some(n), false, "npc", NotAnObject)), (e, n) => map[])

  /**
   The failed-call case of MirrorAgreesInEveryRun is real: after a gap whose resync fails, the
   mirror is idle, owes nothing, and does not hold the hub's state at the seq it reports.
   */
  lemma GapThenFailedCallLeavesMirrorWrong()
    ensures exists w :: (
      && Reaches(ONE_PER_SEQ, Begin(Collection), w)
      && w.mirror.hasState && !w.mirror.syncing && w.owed == 0 && !Agrees(ONE_PER_SEQ, w.mirror))
  {
    var h, w0 := ONE_PER_SEQ, Synced0(Collection);
    var push := Push(Message(7, 2, h.log(7, 2)));
    var pushed := World(w0.mirror.(seq_ := 2), 1, false, true);
    var asked := World(pushed.mirror.(syncing := true, buffering := true), 0, false, true);
    var failed := World(pushed.mirror, 0, true, true);
    assert 2 in h.At(7, 2);
    ReachesItself(h, failed);
    assert Next(asked, Reply(None)) == failed;
    ReachesByStep(h, asked, Reply(None), failed);
    assert Next(pushed, RunOwed) == asked;
    ReachesByStep(h, pushed, RunOwed, failed);
    assert Next(w0, push) == pushed;
    ReachesByStep(h, w0, push, failed);
    ReachesSynced0(h, Collection, failed);
  }

  // ---- the Snapshots shape ----

  // `from` is the position of the snapshot the mirror holds; `jumped` if since then a message that
  // is no snapshot moved the mirror's seq over one.
  datatype Trace = Trace(from: int, jumped: bool)

  /** The hub published a snapshot between two positions. */
  ghost predicate Hides(h: Hub, e: int, after: int, before: int) {
    exists n :: after < n < before && h.log(e, n).SnapshotOf?
  }

  ghost function Traced(h: Hub, s: State, m: Message, t: Trace): Trace {
    if m.epoch == s.epoch && m.seq_ <= s.seq_ then t
    else if m.payload.SnapshotOf? then Trace(m.seq_, false)
    else if m.epoch != s.epoch then t
    else Trace(t.from, t.jumped || Hides(h, s.epoch, s.seq_, m.seq_))
  }

  ghost function AllTraced(h: Hub, s: State, ms: seq<Message>, e: Effects, t: Trace): Trace
    decreases |ms|
  {
    if ms == [] then t
    else
      var (s', e') := Applied(s, ms[0], e);
      AllTraced(h, s', ms[1..], e', Traced(h, s, ms[0], t))
  }

  ghost function NextTrace(h: Hub, w: World, ev: Event, t: Trace): Trace {
    match ev
    case Push(m) => if w.mirror.buffering then t else Traced(h, w.mirror, m, t)
    case Reply(Some(r)) =>
      var idle := w.mirror.(syncing := false, buffering := false, buffer := []);
      var containers := if r.payload.SnapshotOf? then r.payload.containers else [];
      AllTraced(h, SnapshotTaken(idle.(epoch := r.epoch, seq_ := r.seq_), containers),
                SortBySeq(w.mirror.buffer), Effects(false, false), Trace(r.seq_, false))
    case _ => t
  }

  ghost function TraceAfter(h: Hub, w: World, evs: seq<Event>, t: Trace): Trace
    requires IsRun(h, w, evs)
    decreases |evs|
  {
    if evs == [] then t else TraceAfter(h, Next(w, evs[0]), evs[1..], NextTrace(h, w, evs[0], t))
  }

  // The mirror holds the snapshot at `from`, and `jumped` says whether there is a newer one.
  ghost predicate Holds(h: Hub, s: State, t: Trace) {
    && h.first(s.epoch) <= t.from <= s.seq_ && s.state == h.Last(s.epoch, t.from)
    && (t.jumped <==> Hides(h, s.epoch, t.from, s.seq_ + 1))
  }

  lemma ApplyTraces(h: Hub, s: State, m: Message, e: Effects, t: Trace)
    requires s.shape == Snapshots && h.Published(m) && (s.hasState ==> Holds(h, s, t))
    ensures var s' := Applied(s, m, e).0;
      && s'.shape == Snapshots && (s.hasState ==> s'.hasState)
      && (s'.hasState ==> Holds(h, s', Traced(h, s, m, t)))
  {
    if m.epoch == s.epoch && m.seq_ > s.seq_ && !m.payload.SnapshotOf? && s.hasState {
      assert Hides(h, s.epoch, t.from, m.seq_ + 1) <==>
        Hides(h, s.epoch, t.from, s.seq_ + 1) || Hides(h, s.epoch, s.seq_, m.seq_);
    }
  }

  lemma {:induction false} ApplyAllTraces(h: Hub, s: State, ms: seq<Message>, e: Effects, t: Trace)
    requires s.shape == Snapshots && s.hasState && AllPublished(h, ms) && Holds(h, s, t)
    ensures var s' := AllApplied(s, ms, e).0;
      s'.shape == Snapshots && s'.hasState && Holds(h, s', AllTraced(h, s, ms, e, t))
    decreases |ms|
  {
    if ms != [] {
      assert h.Published(ms[0]) && AllPublished(h, ms[1..]);
      ApplyTraces(h, s, ms[0], e, t);
      var (s', e') := Applied(s, ms[0], e);
      ApplyAllTraces(h, s', ms[1..], e', Traced(h, s, ms[0], t));
    }
  }

  ghost predicate BodyInv(h: Hub, w: World, t: Trace) {
    var s := w.mirror;
    && s.shape == Snapshots && s.buffering == s.syncing && AllPublished(h, s.buffer)
    && (s.hasState ==> Holds(h, s, t))
  }

  lemma BodyStep(h: Hub, w: World, ev: Event, t: Trace)
    requires BodyInv(h, w, t) && Possible(h, w, ev)
    ensures BodyInv(h, Next(w, ev), NextTrace(h, w, ev, t))
  {
    match ev
    case Push(m) => ApplyTraces(h, w.mirror, m, Effects(false, false), t);
    case Reply(Some(r)) => BodySynced(h, w, r, t);
    case _ =>
  }

  lemma BodySynced(h: Hub, w: World, r: Message, t: Trace)
    requires BodyInv(h, w, t) && Possible(h, w, Reply(Some(r)))
    ensures BodyInv(h, Next(w, Reply(Some(r))), NextTrace(h, w, Reply(Some(r)), t))
  {
    var s := w.mirror;
    var at := SnapshotTaken(
      s.(syncing := false, buffering := false, buffer := [], epoch := r.epoch, seq_ := r.seq_), r.payload.containers);
    var sorted := SortBySeq(s.buffer);
    SortKeepsMembers(s.buffer);
    assert forall i :: 0 <= i < |sorted| ==> sorted[i] in s.buffer;
    assert AllPublished(h, sorted);
    ApplyAllTraces(h, at, sorted, Effects(false, false), Trace(r.seq_, false));
    ApplyAllKeepsFlags(at, sorted, Effects(false, false));
  }

  lemma {:induction false} BodyRun(h: Hub, w: World, evs: seq<Event>, t: Trace)
    requires BodyInv(h, w, t) && IsRun(h, w, evs)
    ensures BodyInv(h, After(h, w, evs), TraceAfter(h, w, evs, t))
    decreases |evs|
  {
    if evs != [] {
      BodyStep(h, w, evs[0], t);
      BodyRun(h, Next(w, evs[0]), evs[1..], NextTrace(h, w, evs[0], t));
    }
  }

  lemma {:induction false} LastBetween(h: Hub, e: int, from: int, n: int)
    requires h.first(e) <= from <= n && !Hides(h, e, from, n + 1)
    ensures h.Last(e, n) == h.Last(e, from)
    decreases n - from
  {
    if from < n { LastBetween(h, e, from, n - 1); }
  }

  /**
   In every run a Snapshots mirror holds a snapshot of the hub, and it is the last one at or below
   the mirror's seq exactly if no other message has moved the seq over a snapshot since.
   */
  lemma SnapshotIsLastIffNoneJumped(h: Hub, evs: seq<Event>)
    requires IsRun(h, Begin(Snapshots), evs) && After(h, Begin(Snapshots), evs).mirror.hasState
    ensures var s := After(h, Begin(Snapshots), evs).mirror;
      var t := TraceAfter(h, Begin(Snapshots), evs, Trace(0, false));
      && s.state == h.Last(s.epoch, t.from)
      && (t.jumped <==> Hides(h, s.epoch, t.from, s.seq_ + 1))
      && (!t.jumped ==> s.state == h.Last(s.epoch, s.seq_))
  {
    BodyRun(h, Begin(Snapshots), evs, Trace(0, false));
    var s := After(h, Begin(Snapshots), evs).mirror;
    var t := TraceAfter(h, Begin(Snapshots), evs, Trace(0, false));
    if !t.jumped { LastBetween(h, s.epoch, t.from, s.seq_); }
  }

  const A_BODY := [Body(Some(1), false, "npc", NotAnObject)]

  // A snapshot at 1, events after it.
  const ONE_SNAPSHOT: Hub :=
    Hub(e => 0, e => map[], e => [], (e, n) => if n == 1 then SnapshotOf(A_BODY) else EventNote, (e, n) => map[])

  /** It happens, and nothing repairs it: an event past a lost snapshot leaves the mirror idle with the older body. */
  lemma AnEventCanHideASnapshot()
    ensures exists w :: (
      && Reaches(ONE_SNAPSHOT, Begin(Snapshots), w)
      && w.mirror.hasState && !w.mirror.syncing && w.owed == 0 && !w.failed
      && w.mirror.state != ONE_SNAPSHOT.Last(w.mirror.epoch, w.mirror.seq_))
  {
    var h, w0 := ONE_SNAPSHOT, Synced0(Snapshots);
    var push := Push(Message(7, 2, EventNote));
    var pushed := World(w0.mirror.(seq_ := 2), 0, false, Next(w0, push).skipped);
    assert h.Last(7, 2) == h.Last(7, 1) == A_BODY;
    ReachesItself(h, pushed);
    assert Next(w0, push) == pushed;
    ReachesByStep(h, w0, push, pushed);
    ReachesSynced0(h, Snapshots, pushed);
  }

  // ---- moving back ----

  predicate Behind(s: State, epoch: int, n: int) { s.epoch < epoch || (s.epoch == epoch && s.seq_ < n) }

  predicate OldSnapshot(s: State, m: Message) { m.payload.SnapshotOf? && m.epoch < s.epoch }

  /** A message moves the mirror back exactly if it is a snapshot of an older epoch. */
  lemma AppliedMovesBackIff(s: State, m: Message, e: Effects)
    ensures Behind(Applied(s, m, e).0, s.epoch, s.seq_) <==> OldSnapshot(s, m)
  {
  }

  // The epoch of the last snapshot of the list, or the one given if it has none.
  function LastEpoch(ms: seq<Message>, epoch: int): int {
    if ms == [] then epoch
    else if ms[|ms| - 1].payload.SnapshotOf? then ms[|ms| - 1].epoch
    else LastEpoch(ms[..|ms| - 1], epoch)
  }

  // No snapshot of the list is of another epoch.
  predicate Stays(ms: seq<Message>, epoch: int) { forall m :: m in ms && m.payload.SnapshotOf? ==> m.epoch == epoch }

  lemma {:induction false} LastEpochOfRest(ms: seq<Message>, epoch: int)
    requires ms != []
    ensures LastEpoch(ms, epoch) == LastEpoch(ms[1..], if ms[0].payload.SnapshotOf? then ms[0].epoch else epoch)
  {
    var last := |ms| - 1;
    if last > 0 {
      assert ms[1..][..last - 1] == ms[..last][1..] && ms[1..][last - 1] == ms[last];
      if !ms[last].payload.SnapshotOf? { LastEpochOfRest(ms[..last], epoch); }
    }
  }

  // `top` is the highest seq there is of `last`: among the messages, and `from` if it still counts.
  ghost predicate EndsAt(ms: seq<Message>, last: int, from: int, stays: bool, top: int) {
    && (forall m :: m in ms && m.epoch == last ==> m.seq_ <= top) && (stays ==> from <= top)
    && ((stays && top == from) || exists m :: m in ms && m.epoch == last && m.seq_ == top)
  }

  // Where a message takes a mirror at `epoch` and `n`.
  function Moved(epoch: int, n: int, m: Message): (int, int) {
    if m.epoch == epoch then (epoch, if m.seq_ <= n then n else m.seq_)
    else if m.payload.SnapshotOf? then (m.epoch, m.seq_)
    else (epoch, n)
  }

  lemma EndsAtOfRest(epoch: int, n: int, ms: seq<Message>, last: int, top: int)
    requires Ordered(ms) && ms != []
    requires var (epoch1, n1) := Moved(epoch, n, ms[0]);
      last == LastEpoch(ms[1..], epoch1) && EndsAt(ms[1..], last, n1, Stays(ms[1..], epoch1), top)
    ensures EndsAt(ms, last, n, Stays(ms, epoch), top)
  {
    var first, rest := ms[0], ms[1..];
    var (epoch1, n1) := Moved(epoch, n, first);
    assert first in ms && forall m :: m in ms <==> m == first || m in rest;
    if Stays(rest, epoch1) {
      StaysInEpoch(rest, epoch1);
      assert Stays(ms, epoch) ==> epoch1 == epoch;
    } else {
      var m :| m in rest && m.epoch == last && m.seq_ == top;
      assert first.seq_ <= m.seq_ && m in ms;
    }
  }

  lemma {:induction false} StaysInEpoch(ms: seq<Message>, epoch: int)
    requires Stays(ms, epoch)
    ensures LastEpoch(ms, epoch) == epoch
  {
    if ms != [] && !ms[|ms| - 1].payload.SnapshotOf? { StaysInEpoch(ms[..|ms| - 1], epoch); }
  }

  lemma AppliedMoves(s: State, m: Message, e: Effects)
    ensures var s' := Applied(s, m, e).0; (s'.epoch, s'.seq_) == Moved(s.epoch, s.seq_, m)
  {
  }

  // Messages of any epochs, in the order of their seqs: the last snapshot says in which epoch they end.
  lemma {:induction false} AllAppliedEndsAt(s: State, ms: seq<Message>, e: Effects)
    requires Ordered(ms)
    ensures var s' := AllApplied(s, ms, e).0;
      s'.epoch == LastEpoch(ms, s.epoch) && EndsAt(ms, s'.epoch, s.seq_, Stays(ms, s.epoch), s'.seq_)
    decreases |ms|
  {
    if ms != [] {
      var (s1, e1) := Applied(s, ms[0], e);
      var s' := AllApplied(s1, ms[1..], e1).0;
      assert s' == AllApplied(s, ms, e).0;
      AllAppliedEndsAt(s1, ms[1..], e1);
      AppliedMoves(s, ms[0], e);
      assert Moved(s.epoch, s.seq_, ms[0]) == (s1.epoch, s1.seq_);
      assert s1.epoch == if ms[0].payload.SnapshotOf? then ms[0].epoch else s.epoch;
      LastEpochOfRest(ms, s.epoch);
      EndsAtOfRest(s.epoch, s.seq_, ms, s'.epoch, s'.seq_);
    }
  }

  /**
   The answer is from before the mirror's position, and so are the buffered messages that count: of
   an older epoch, by the last snapshot in the order of seq, or by its own if there is none; or of
   the mirror's epoch with every seq below the mirror's. Its own seq counts if no buffered snapshot
   is of another epoch.
   */
  predicate FromBefore(s: State, r: Message) {
    var epoch := LastEpoch(SortBySeq(s.buffer), r.epoch);
    epoch < s.epoch || (
      && epoch == s.epoch && (Stays(s.buffer, r.epoch) ==> r.seq_ < s.seq_)
      && forall m :: m in s.buffer && m.epoch == epoch ==> m.seq_ < s.seq_)
  }

  /** An answer, for either shape, whatever it carries and whatever was buffered, moves the mirror back exactly then. */
  lemma AnswerMovesBackIff(s: State, r: Message)
    ensures Behind(SyncEnded(s, Some(r)).0, s.epoch, s.seq_) <==> FromBefore(s, r)
  {
    var containers := if r.payload.SnapshotOf? then r.payload.containers else [];
    var idle := s.(syncing := false, buffering := false, buffer := []);
    SortSorts(s.buffer);
    SortKeepsMembers(s.buffer);
    AllAppliedEndsAt(
      SnapshotTaken(idle.(epoch := r.epoch, seq_ := r.seq_), containers), SortBySeq(s.buffer), Effects(false, false));
    assert Stays(SortBySeq(s.buffer), r.epoch) == Stays(s.buffer, r.epoch);
  }

  const SNAPSHOTS_ONLY: Hub :=
    Hub(e => 0, e => map[], e => [], (e, n) => SnapshotOf([]), (e, n) => map[])

  /** Both happen: by a late push of an older epoch, and by an answer that is older than a push already applied. */
  lemma AMirrorCanMoveBack(shape: Shape)
    ensures exists w, w' :: (
      && Reaches(SNAPSHOTS_ONLY, Begin(shape), w) && Reaches(SNAPSHOTS_ONLY, w, w')
      && w'.mirror.epoch < w.mirror.epoch)
    ensures exists w, w' :: (
      && Reaches(SNAPSHOTS_ONLY, Begin(shape), w) && Reaches(SNAPSHOTS_ONLY, w, w')
      && w'.mirror.epoch == w.mirror.epoch && w'.mirror.seq_ < w.mirror.seq_)
  {
    OldPushMovesBack(shape);
    OldAnswerMovesBack(shape);
  }

  lemma OldPushMovesBack(shape: Shape)
    ensures exists w, w' :: (
      && Reaches(SNAPSHOTS_ONLY, Begin(shape), w) && Reaches(SNAPSHOTS_ONLY, w, w')
      && w'.mirror.epoch < w.mirror.epoch)
  {
    var h, w := SNAPSHOTS_ONLY, Synced0(shape);
    var push := Push(Message(6, 1, SnapshotOf([])));
    var w' := Next(w, push);
    ReachesItself(h, w');
    ReachesByStep(h, w, push, w');
    ReachesItself(h, w);
    ReachesSynced0(h, shape, w);
  }

  lemma OldAnswerMovesBack(shape: Shape)
    ensures exists w, w' :: (
      && Reaches(SNAPSHOTS_ONLY, Begin(shape), w) && Reaches(SNAPSHOTS_ONLY, w, w')
      && w'.mirror.epoch == w.mirror.epoch && w'.mirror.seq_ < w.mirror.seq_)
  {
    var h, w0 := SNAPSHOTS_ONLY, Synced0(shape);
    var push, answer := Push(Message(7, 1, SnapshotOf([]))), Reply(Some(Message(7, 0, SnapshotOf([]))));
    var w := Next(w0, push);
    var asked := Next(w, Ask);
    var w' := Next(asked, answer);
    assert SortBySeq([]) == [];
    ReachesItself(h, w');
    ReachesByStep(h, asked, answer, w');
    ReachesByStep(h, w, Ask, w');
    ReachesItself(h, w);
    ReachesByStep(h, w0, push, w);
    ReachesSynced0(h, shape, w);
  }

  /** The event brings nothing that moves the mirror back. */
  predicate Forward(s: State, ev: Event) {
    match ev
    case Push(m) => s.buffering || !OldSnapshot(s, m)
    case Reply(Some(r)) => !FromBefore(s, r)
    case _ => true
  }

  lemma StepMovesBackIff(w: World, ev: Event)
    requires ev.RunOwed? ==> w.owed > 0
    ensures Behind(Next(w, ev).mirror, w.mirror.epoch, w.mirror.seq_) <==> !Forward(w.mirror, ev)
  {
    match ev
    case Push(m) => AppliedMovesBackIff(w.mirror, m, Effects(false, false));
    case Reply(Some(r)) => AnswerMovesBackIff(w.mirror, r);
    case _ =>
  }

  ghost predicate AllForward(h: Hub, w: World, evs: seq<Event>)
    requires IsRun(h, w, evs)
    decreases |evs|
  {
    evs == [] || (Forward(w.mirror, evs[0]) && AllForward(h, Next(w, evs[0]), evs[1..]))
  }

  // The mirror before each event of a run, and at its end.
  ghost function Mirrors(h: Hub, w: World, evs: seq<Event>): (r: seq<State>)
    requires IsRun(h, w, evs)
    ensures |r| == |evs| + 1 && r[0] == w.mirror
    decreases |evs|
  {
    [w.mirror] + if evs == [] then [] else Mirrors(h, Next(w, evs[0]), evs[1..])
  }

  ghost predicate NeverBehind(ss: seq<State>) {
    forall i, j :: 0 <= i < j < |ss| ==> !Behind(ss[j], ss[i].epoch, ss[i].seq_)
  }

  /**
   In every run: (epoch, seq) is nowhere behind an earlier one exactly if no applied push is an
   older epoch's snapshot and no answer is from before the mirror's position.
   */
  lemma {:induction false} PositionNeverMovesBackIff(h: Hub, w: World, evs: seq<Event>)
    requires IsRun(h, w, evs)
    ensures NeverBehind(Mirrors(h, w, evs)) <==> AllForward(h, w, evs)
    decreases |evs|
  {
    if evs != [] {
      StepMovesBackIff(w, evs[0]);
      PositionNeverMovesBackIff(h, Next(w, evs[0]), evs[1..]);
      OneBefore(w.mirror, Mirrors(h, Next(w, evs[0]), evs[1..]));
    }
  }

  lemma OneBefore(s: State, ss: seq<State>)
    requires ss != []
    ensures NeverBehind([s] + ss) <==> !Behind(ss[0], s.epoch, s.seq_) && NeverBehind(ss)
  {
    var all := [s] + ss;
    if NeverBehind(all) {
      assert all[0] == s && all[1] == ss[0];
      assert forall i :: 0 <= i < |ss| ==> all[i + 1] == ss[i];
    }
  }

  // ---- the handler code ----

  class TopicMirror {
    const shape: Shape
    var epoch: int
    var seq_: int
    var hasState: bool
    var state: seq<Body>
    var members: Members
    var syncing: bool
    var buffering: bool
    var buffer: seq<Message>

    ghost function View(): State
      reads this
    {
      State(shape, epoch, seq_, hasState, state, members, syncing, buffering, buffer)
    }

    constructor (shape: Shape)
      ensures this.shape == shape && View() == Initial(shape)
    {
      this.shape := shape;
      epoch, seq_, hasState, state, members := -1, 0, false, [], map[];
      syncing, buffering, buffer := false, false, [];
    }

    method TakeSnapshot(containers: seq<Body>)
      modifies this
      ensures View() == SnapshotTaken(old(View()), containers)
    {
      hasState := true;
      if shape == Snapshots {
        state := containers;
        return;
      }
      members := map[];
      for i := 0 to |containers|
        invariant View() == old(View()).(hasState := true, members := MembersOf(containers[..i]))
      {
        var c := containers[i];
        assert containers[..i + 1][..i] == containers[..i];
        if !c.removed && c.id.Some? {
          members := members[c.id.value := Container(c.id.value, c.typeName, PropsText(c.props))];
        }
      }
      assert containers[..|containers|] == containers;
    }

    method TakeDelta(b: Body) returns (taken: bool)
      modifies this
      ensures taken <==> DeltaTaken(old(View()), b).Some?
      ensures View() == if taken then DeltaTaken(old(View()), b).value else old(View())
    {
      if shape != Collection || b.id.None? {
        return false;
      }
      var id := b.id.value;
      if b.removed {
        members := members - {id};
        return true;
      }
      var typeName := b.typeName;
      if typeName == "" {
        if id in members {
          typeName := members[id].typeName;
        }
      }
      members := members[id := Container(id, typeName, PropsText(b.props))];
      return true;
    }

    method Apply(m: Message, e: Effects) returns (e': Effects)
      modifies this
      ensures (View(), e') == Applied(old(View()), m, e)
    {
      e' := e;
      if m.epoch != epoch {
        if m.payload.SnapshotOf? {
          epoch, seq_ := m.epoch, m.seq_;
          TakeSnapshot(m.payload.containers);
          e' := e.(changed := true);
        } else {
          e' := e.(resync := true);
        }
        return;
      }
      if m.seq_ <= seq_ {
        return;
      }
      var gap := m.seq_ != seq_ + 1;
      seq_ := m.seq_;
      match m.payload {
        case SnapshotOf(containers) =>
          TakeSnapshot(containers);
          e' := e.(changed := true);
          return;
        case DeltaOf(body) =>
          var taken := false;
          if !gap && hasState {
            taken := TakeDelta(body);
          }
          e' := if taken then e.(changed := true) else e.(resync := true);
          return;
        case _ =>
      }
      if gap && shape == Collection {
        e' := e.(resync := true);
      }
    }

    method Synced(reply: Option<Message>) returns (e: Effects)
      modifies this
      ensures (View(), e) == SyncEnded(old(View()), reply)
    {
      e := Effects(false, false);
      if reply.None? {
        buffer, buffering, syncing := [], false, false;
        return;
      }
      var r := reply.value;
      epoch, seq_ := r.epoch, r.seq_;
      TakeSnapshot(if r.payload.SnapshotOf? then r.payload.containers else []);
      var pending := SortBySeq(buffer);
      buffer, buffering, syncing := [], false, false;
      ghost var at := View();
      for i := 0 to |pending|
        invariant AllApplied(View(), pending[i..], e) == AllApplied(at, pending, Effects(false, false))
      {
        assert pending[i..][1..] == pending[i + 1..];
        e := Apply(pending[i], e);
      }
      e := e.(changed := true);
    }
  }
}
