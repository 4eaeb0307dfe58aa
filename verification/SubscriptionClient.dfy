/**
 The GraphQL subscription client (src/graphql/subscription_client.cpp, GraphQLSubscriptionClient::Impl):
 five connection phases, a generation fence, replay on acknowledgement, and one ending per operation.

 Each critical section is one step, and what a thread still has to do after it left the lock is
 kept as a task that may run at any later time. Sockets, timers and callers are the environment:
 any of their events, of any generation, may come at any time. Operations are numbered from 0 in
 the order they were made.
 */
module SubscriptionClient {
  import opened Options
  import opened Numbers
  import opened Sequences

  datatype Phase = Idle | Connecting | AwaitingAck | Ready | Backoff

  datatype Post = Next | Reconnected | Error | Complete

  predicate IsEnd(p: Post) { p.Error? || p.Complete? }

  // `frames` are the generations of the sockets its subscribe message was written to, `log` the
  // callbacks posted, and `late` how many callbacks were in flight when its ending was posted.
  datatype Op = Op(active: bool, cancelled: bool, subscribedOnce: bool, frames: seq<nat>, log: seq<Post>, late: nat)

  datatype Send = Send(id: nat, gen: nat)

  // The callback the event thread has decided on and not yet posted; events are handled one at a time.
  datatype Flight = Quiet | Delivering(id: nat) | Replaying(id: nat, gen: nat)

  // What threads have still to do: connect for a new operation, replay an operation after the
  // acknowledgement, check and write a subscribe message, end an operation, post its ending, and
  // fail a generation whose acknowledgement the timer found overdue.
  datatype Tasks = Tasks(
    starts: nat, replays: set<Send>, sends: set<Send>, writes: set<Send>,
    finishing: set<nat>, ending: map<nat, Post>, flight: Flight, overdue: set<nat>)

  // `sockets` are the generations that were given to a socket.
  datatype State = State(
    max: nat, phase: Phase, gen: nat, shut: bool, attempt: nat, conn: Option<nat>,
    sockets: set<nat>, ops: set<nat>, all: seq<Op>, tasks: Tasks)

  function Initial(max: nat): State {
    State(max, Idle, 0, false, 0, None, {}, {}, [], Tasks(0, {}, {}, {}, {}, map[], Quiet, {}))
  }

  // ---- the critical sections ----

  function Emptied(s: State): State {
    if s.ops == {} then s.(gen := s.gen + 1, phase := Idle, attempt := 0, conn := None) else s
  }

  // Each of `ids` is switched off, and cancelled if `cancel`.
  function Stopped(all: seq<Op>, ids: set<nat>, cancel: bool): (r: seq<Op>)
    ensures |r| == |all|
    ensures forall i :: 0 <= i < |all| ==> r[i] == if i in ids then Off(all[i], cancel) else all[i]
  {
    seq(|all|, i requires 0 <= i < |all| => if i in ids then Off(all[i], cancel) else all[i])
  }

  function Off(op: Op, cancel: bool): Op { op.(active := false, cancelled := op.cancelled || cancel) }

  // `id` leaves with an ending still to be posted.
  function Left(s: State, id: nat, end: Post): State {
    Emptied(s.(ops := s.ops - {id}, all := Stopped(s.all, {id}, false),
              tasks := s.tasks.(ending := s.tasks.ending[id := end])))
  }

  /** `fault` is any of the errors subscribe reports at once. */
  function Subscribed(s: State, fault: bool): State {
    var id := |s.all|;
    var all := s.all + [Op(true, false, s.phase == Ready, [], [], 0)];
    if s.shut || fault then
      s.(all := s.all + [Op(false, false, false, [], [], 0)], tasks := s.tasks.(ending := s.tasks.ending[id := Error]))
    else if s.phase == Idle then s.(ops := s.ops + {id}, all := all, tasks := s.tasks.(starts := s.tasks.starts + 1))
    else if s.phase == Ready then
      s.(ops := s.ops + {id}, all := all, tasks := s.tasks.(sends := s.tasks.sends + {Send(id, s.gen)}))
    else s.(ops := s.ops + {id}, all := all)
  }

  /** A cancel marks the operation, then switches it off. */
  function MarkedCancelled(s: State, id: nat): State
    requires id < |s.all|
  {
    s.(all := s.all[id := s.all[id].(cancelled := true)])
  }

  function SwitchedOff(s: State, id: nat): State { s.(all := Stopped(s.all, {id}, false)) }

  function Cancelled(s: State, id: nat): State {
    if id in s.ops then Emptied(s.(ops := s.ops - {id})) else s
  }

  function ShutDown(s: State): State {
    if s.shut then s
    else s.(shut := true, gen := s.gen + 1, phase := Idle, conn := None, all := Stopped(s.all, s.ops, true), ops := {})
  }

  /** The endpoint or the credentials changed. */
  function Moved(s: State): State {
    if s.shut || s.ops == {} then s
    else s.(gen := s.gen + 1, attempt := 1, phase := Backoff, conn := None)
  }

  function Started(s: State): State {
    if s.shut || s.ops == {} || (s.phase != Idle && s.phase != Backoff) then s
    else s.(phase := Connecting, gen := s.gen + 1, sockets := s.sockets + {s.gen + 1})
  }

  predicate Current(s: State, g: nat) { !s.shut && g == s.gen }

  function SocketMade(s: State, g: nat): State {
    if Current(s, g) && s.phase == Connecting then s.(conn := Some(g)) else s
  }

  function Opened(s: State, g: nat): State {
    if Current(s, g) && s.phase == Connecting then s.(phase := AwaitingAck) else s
  }

  /** The timer finds the acknowledgement overdue. */
  function FoundOverdue(s: State): State {
    if s.phase != AwaitingAck then s else s.(tasks := s.tasks.(overdue := s.tasks.overdue + {s.gen}))
  }

  function AllEnding(ending: map<nat, Post>, ids: set<nat>): map<nat, Post> {
    map id | id in ending.Keys + ids :: if id in ids then Error else ending[id]
  }

  function AllFailed(s: State): State {
    s.(gen := s.gen + 1, phase := Idle, attempt := 0, conn := None, ops := {}, all := Stopped(s.all, s.ops, false),
       tasks := s.tasks.(ending := AllEnding(s.tasks.ending, s.ops)))
  }

  /** A socket, a timeout or a bad message ended the connection; `retry` if a new one may do better. */
  function Failed(s: State, g: nat, retry: bool): State {
    if !Current(s, g) then s
    else if !retry then AllFailed(s)
    else if s.ops == {} then s.(gen := s.gen + 1, phase := Idle, attempt := 0, conn := None)
    else if s.attempt >= s.max then AllFailed(s)
    else s.(gen := s.gen + 1, phase := Backoff, attempt := s.attempt + 1, conn := None)
  }

  function Replays(ids: set<nat>, g: nat): set<Send> { set id | id in ids :: Send(id, g) }

  function Acked(s: State, g: nat): State {
    if !Current(s, g) then s
    else if s.phase != AwaitingAck then AllFailed(s)
    else s.(phase := Ready, attempt := 0, tasks := s.tasks.(replays := s.tasks.replays + Replays(s.ops, g)))
  }

  /** One turn of the replay loop, up to the posting of the reconnect callback. */
  function Replayed(s: State, r: Send): State
    requires r.id < |s.all|
  {
    var left := s.tasks.(replays := s.tasks.replays - {r});
    var op := s.all[r.id];
    if !op.active then s.(tasks := left)
    else if op.subscribedOnce then s.(tasks := left.(flight := Replaying(r.id, r.gen)))
    else s.(all := s.all[r.id := op.(subscribedOnce := true)], tasks := left.(sends := left.sends + {r}))
  }

  function NextFound(s: State, g: nat, id: nat): State {
    if Current(s, g) && s.phase == Ready && id in s.ops then s.(tasks := s.tasks.(flight := Delivering(id))) else s
  }

  function Logged(op: Op, p: Post): Op { op.(log := op.log + [p]) }

  /** The callback in flight is posted, or its payload turns out to be malformed. */
  function FlightPosted(s: State, valid: bool): State
    requires s.tasks.flight != Quiet ==> s.tasks.flight.id < |s.all|
  {
    var t := s.tasks.(flight := Quiet);
    match s.tasks.flight
    case Quiet => s
    case Delivering(id) =>
      if valid then s.(all := s.all[id := Logged(s.all[id], Next)], tasks := t)
      else s.(tasks := t.(finishing := t.finishing + {id}))
    case Replaying(id, g) =>
      s.(all := s.all[id := Logged(s.all[id], Reconnected)], tasks := t.(sends := t.sends + {Send(id, g)}))
  }

  function ErrorFound(s: State, g: nat, id: nat): State {
    if Current(s, g) && id in s.ops then s.(tasks := s.tasks.(finishing := s.tasks.finishing + {id})) else s
  }

  function Completed(s: State, g: nat, id: nat): State {
    if Current(s, g) && id in s.ops then Left(s, id, Complete) else s
  }

  function Finished(s: State, id: nat): State {
    var s1 := s.(tasks := s.tasks.(finishing := s.tasks.finishing - {id}));
    if id in s.ops then Left(s1, id, Error) else s1
  }

  /** A subscribe message is built and checked; `fits` if it is within the frame limit and valid UTF-8. */
  function SendChecked(s: State, w: Send, fits: bool): State
    requires w.id < |s.all|
  {
    var t := s.tasks.(sends := s.tasks.sends - {w});
    if !s.all[w.id].active then s.(tasks := t)
    else if !fits then s.(tasks := t.(finishing := t.finishing + {w.id}))
    else if Current(s, w.gen) && s.phase == Ready && w.id in s.ops && s.conn.Some? then
      s.(tasks := t.(writes := t.writes + {Send(w.id, s.conn.value)}))
    else s.(tasks := t)
  }

  /** The message is written; if that fails, the connection has failed (unless it is no longer the current one). */
  function Written(s: State, w: Send, sent: bool): State
    requires w.id < |s.all|
  {
    var s1 := s.(tasks := s.tasks.(writes := s.tasks.writes - {w}));
    if sent then s1.(all := s.all[w.id := s.all[w.id].(frames := s.all[w.id].frames + [w.gen])])
    else Failed(s1, w.gen, true)
  }

  function InFlight(f: Flight, id: nat): nat { if f != Quiet && f.id == id then 1 else 0 }

  function EndPosted(s: State, id: nat): State
    requires id in s.tasks.ending && id < |s.all|
  {
    var op := Logged(s.all[id], s.tasks.ending[id]).(late := InFlight(s.tasks.flight, id));
    s.(all := s.all[id := op], tasks := s.tasks.(ending := s.tasks.ending - {id}))
  }

  // ---- runs ----

  datatype Event =
    | DoSubscribe(fault: bool)
    | MarkCancelled(id: nat)
    | SwitchOff(id: nat)
    | EraseCancelled(id: nat)
    | DoShutdown
    | Move
    | StartQueued
    | StartTimer
    | Made(g: nat)
    | Open(g: nat)
    | Ack(g: nat)
    | Fail(g: nat, retry: bool)
    | TimerLooks
    | Lapse(g: nat)
    | Abort(g: nat)
    | FindNext(g: nat, id: nat)
    | FindError(g: nat, id: nat)
    | FindComplete(g: nat, id: nat)
    | Replay(r: Send)
    | PostFlight(valid: bool)
    | CheckSend(w: Send, fits: bool)
    | Write(w: Send, sent: bool)
    | Finish(id: nat)
    | PostEnd(id: nat)

  // A socket's events are handled one at a time, and the acknowledgement's replays belong to its handling.
  predicate Busy(s: State) { s.tasks.replays != {} || s.tasks.flight != Quiet }

  /**
   Tasks run once. A socket speaks for its own generation only, opens after it was stored, and its
   events wait for the one being handled. Failures on other threads do not wait: that of the timer
   (Lapse), which found the acknowledgement overdue and let go of the lock before it fails the
   generation; that of the call that makes and starts a socket (Abort); and that of a write. A
   cancel erases what it switched off.
   */
  predicate Possible(s: State, ev: Event) {
    match ev
    case MarkCancelled(id) => id < |s.all|
    case SwitchOff(id) => id < |s.all| && s.all[id].cancelled
    case EraseCancelled(id) => id < |s.all| && !s.all[id].active && s.all[id].cancelled
    case StartQueued => s.tasks.starts > 0
    case Made(g) => g in s.sockets
    case Open(g) => g in s.sockets && !Busy(s) && (Current(s, g) ==> s.conn == Some(g))
    case Ack(g) => g in s.sockets && !Busy(s)
    case Fail(g, _) => g in s.sockets && !Busy(s)
    case Lapse(g) => g in s.tasks.overdue
    case Abort(g) => g in s.sockets
    case FindNext(g, _) => g in s.sockets && !Busy(s)
    case FindError(g, _) => g in s.sockets && !Busy(s)
    case FindComplete(g, _) => g in s.sockets && !Busy(s)
    case Replay(r) => r in s.tasks.replays && r.id < |s.all| && s.tasks.flight == Quiet
    case PostFlight(_) => s.tasks.flight != Quiet && s.tasks.flight.id < |s.all|
    case CheckSend(w, _) => w in s.tasks.sends && w.id < |s.all|
    case Write(w, _) => w in s.tasks.writes && w.id < |s.all|
    case Finish(id) => id in s.tasks.finishing
    case PostEnd(id) => id in s.tasks.ending && id < |s.all|
    case _ => true
  }

  function Step(s: State, ev: Event): State
    requires Possible(s, ev)
  {
    match ev
    case DoSubscribe(fault) => Subscribed(s, fault)
    case MarkCancelled(id) => MarkedCancelled(s, id)
    case SwitchOff(id) => SwitchedOff(s, id)
    case EraseCancelled(id) => Cancelled(s, id)
    case DoShutdown => ShutDown(s)
    case Move => Moved(s)
    case StartQueued => Started(s).(tasks := s.tasks.(starts := s.tasks.starts - 1))
    case StartTimer => Started(s)
    case Made(g) => SocketMade(s, g)
    case Open(g) => Opened(s, g)
    case Ack(g) => Acked(s, g)
    case Fail(g, retry) => Failed(s, g, retry)
    case TimerLooks => FoundOverdue(s)
    case Lapse(g) => Failed(s, g, true)
    case Abort(g) => Failed(s, g, true)
    case FindNext(g, id) => NextFound(s, g, id)
    case FindError(g, id) => ErrorFound(s, g, id)
    case FindComplete(g, id) => Completed(s, g, id)
    case Replay(r) => Replayed(s, r)
    case PostFlight(valid) => FlightPosted(s, valid)
    case CheckSend(w, fits) => SendChecked(s, w, fits)
    case Write(w, sent) => Written(s, w, sent)
    case Finish(id) => Finished(s, id)
    case PostEnd(id) => EndPosted(s, id)
  }

  predicate IsRun(s: State, evs: seq<Event>)
    decreases |evs|
  {
    evs == [] || (Possible(s, evs[0]) && IsRun(Step(s, evs[0]), evs[1..]))
  }

  function After(s: State, evs: seq<Event>): State
    requires IsRun(s, evs)
    decreases |evs|
  {
    if evs == [] then s else After(Step(s, evs[0]), evs[1..])
  }

  // ---- what every step keeps ----

  predicate LinkAgrees(s: State) {
    && (s.conn.Some? ==> s.conn.value == s.gen && s.phase != Idle && s.phase != Backoff)
    && (s.phase == AwaitingAck || s.phase == Ready ==> s.conn.Some?)
    && (s.shut ==> s.phase == Idle)
    && (forall g :: g in s.sockets ==> g <= s.gen)
    && (s.phase == Idle || s.phase == Backoff <==> s.gen !in s.sockets)
    && s.tasks.overdue <= s.sockets && (s.phase == Ready ==> s.attempt == 0)
    && s.attempt <= (if s.max == 0 then 1 else s.max)
  }

  predicate OpsAgree(s: State) {
    && (s.phase != Idle ==> s.ops != {})
    && (s.phase == Idle && s.ops != {} ==> s.tasks.starts > 0)
    && (s.shut ==> s.ops == {})
    && (forall id :: id in s.ops ==> id < |s.all|)
    && (forall i :: 0 <= i < |s.all| && s.all[i].active ==> i in s.ops)
  }

  // A generation has subscribe messages only once it is ready.
  predicate GenFits(s: State, g: nat) { g < s.gen || (g == s.gen && s.phase == Ready) }

  predicate Unwritten(s: State, w: Send) {
    w.id < |s.all| && GenFits(s, w.gen) && w.gen !in s.all[w.id].frames
  }

  function FlightSends(f: Flight): set<Send> { if f.Replaying? then {Send(f.id, f.gen)} else {} }

  function Unsent(t: Tasks): set<Send> { t.replays + t.sends + t.writes + FlightSends(t.flight) }

  predicate FramesFit(op: Op, s: State) {
    Distinct(op.frames) && forall k :: 0 <= k < |op.frames| ==> GenFits(s, op.frames[k])
  }

  // An operation's message for one generation is in one place only: to be replayed, about to be
  // replayed, to be checked, to be written, or written.
  predicate SendsAgree(s: State) {
    && (s.tasks.replays !! s.tasks.sends !! s.tasks.writes !! FlightSends(s.tasks.flight))
    && (forall w :: w in Unsent(s.tasks) ==> Unwritten(s, w))
    && (forall i :: 0 <= i < |s.all| ==> FramesFit(s.all[i], s))
  }

  predicate Ended(log: seq<Post>) { exists i :: 0 <= i < |log| && IsEnd(log[i]) }

  // No ending after an ending, and after one no more than `late` callbacks.
  predicate EndsWell(log: seq<Post>, late: int) {
    && (forall i, j :: 0 <= i < j < |log| && IsEnd(log[i]) ==> !IsEnd(log[j]))
    && (forall i :: 0 <= i < |log| && IsEnd(log[i]) ==> |log| - 1 - i <= late)
  }

  lemma Posting(log: seq<Post>, p: Post)
    ensures Ended(log + [p]) <==> Ended(log) || IsEnd(p)
  {
    assert (log + [p])[|log|] == p;
    if Ended(log) {
      var i :| 0 <= i < |log| && IsEnd(log[i]);
      assert IsEnd((log + [p])[i]);
    }
  }

  predicate LogFits(op: Op, flight: nat) { EndsWell(op.log, op.late - flight) && op.late <= 1 }

  predicate EndsAgree(s: State) {
    && (forall i :: 0 <= i < |s.all| ==> LogFits(s.all[i], InFlight(s.tasks.flight, i)))
    && (forall id :: id in s.ops && id < |s.all| ==> !Ended(s.all[id].log) && id !in s.tasks.ending)
    && (forall id :: id in s.tasks.ending ==> id < |s.all| && !Ended(s.all[id].log) && IsEnd(s.tasks.ending[id]))
    && (s.tasks.flight != Quiet ==> s.tasks.flight.id < |s.all|)
  }

  // No operation is lost: it is live, about to end, ended, or its caller cancelled it.
  predicate Accounted(s: State) {
    forall i :: 0 <= i < |s.all| ==> i in s.ops || i in s.tasks.ending || Ended(s.all[i].log) || s.all[i].cancelled
  }

  // The message of `id` for the current generation is written or on its way, or `id` is about to end.
  predicate Served(s: State, id: nat) {
    id < |s.all| && (s.gen in s.all[id].frames || Send(id, s.gen) in Unsent(s.tasks) || id in s.tasks.finishing)
  }

  predicate AllServed(s: State) {
    s.phase == Ready ==> forall id :: id in s.ops && id < |s.all| && s.all[id].active ==> Served(s, id)
  }

  predicate Inv(s: State) {
    LinkAgrees(s) && OpsAgree(s) && SendsAgree(s) && EndsAgree(s) && Accounted(s) && AllServed(s)
  }

  // ---- what holds in every run ----

  /** Every phase but Idle has operations; attempts stay within the limit; nothing is left after shutdown. */
  lemma PhasesHaveOperations(max: nat, evs: seq<Event>)
    requires IsRun(Initial(max), evs)
    ensures var s := After(Initial(max), evs);
      && (s.phase != Idle ==> s.ops != {})
      && (s.phase == Idle && s.ops != {} ==> s.tasks.starts > 0)
      && s.attempt <= (if s.max == 0 then 1 else s.max)
      && (s.shut ==> s.ops == {} && s.phase == Idle)
  {
    RunKeepsInv(Initial(max), evs);
  }

  // Operations are live and no connection is wanted for them yet.
  predicate Unstarted(s: State) { s.phase == Idle && s.ops != {} }

  /**
   So the phase is Idle exactly when there are no operations, but for a window that opens exactly
   when a subscribe is accepted in Idle and closes exactly with the next start or move, or when
   the operations are gone.
   */
  lemma IdleWithOperationsIff(max: nat, evs: seq<Event>, ev: Event)
    requires IsRun(Initial(max), evs) && Possible(After(Initial(max), evs), ev)
    ensures var s := After(Initial(max), evs);
      Unstarted(Step(s, ev)) <==>
        || (ev.DoSubscribe? && !ev.fault && !s.shut && s.phase == Idle)
        || (Unstarted(s) && !ev.StartQueued? && !ev.StartTimer? && !ev.Move? && Step(s, ev).ops != {})
  {
    RunKeepsInv(Initial(max), evs);
    WindowStep(After(Initial(max), evs), ev);
  }

  lemma WindowStep(s: State, ev: Event)
    requires Inv(s) && Possible(s, ev)
    ensures Unstarted(Step(s, ev)) <==>
      || (ev.DoSubscribe? && !ev.fault && !s.shut && s.phase == Idle)
      || (Unstarted(s) && !ev.StartQueued? && !ev.StartTimer? && !ev.Move? && Step(s, ev).ops != {})
  {
    if ev.Write? { assert ev.w in Unsent(s.tasks) && Unwritten(s, ev.w); }
  }

  /** The window does open. */
  lemma AnOperationCanBeLiveWhileIdle(max: nat)
    ensures exists s :: Reaches(Initial(max), s) && Unstarted(s)
  {
    var s := Subscribed(Initial(max), false);
    ReachesItself(s);
    ReachesByStep(Initial(max), DoSubscribe(false), s);
    assert 0 in s.ops;
  }

  /**
   An operation ends at most once; once it is neither live nor cancelled its ending is posted or
   about to be; and a callback follows the ending only if it was already in flight, so at most one does.
   */
  lemma OperationsEndOnce(max: nat, evs: seq<Event>, id: nat)
    requires IsRun(Initial(max), evs) && id < |After(Initial(max), evs).all|
    ensures var s := After(Initial(max), evs);
      var op := s.all[id];
      && (forall i, j :: 0 <= i < j < |op.log| && IsEnd(op.log[i]) ==> !IsEnd(op.log[j]))
      && (Ended(op.log) ==> id !in s.ops && id !in s.tasks.ending)
      && (id !in s.ops && !op.cancelled ==> (Ended(op.log) <==> id !in s.tasks.ending))
      && (forall i :: 0 <= i < |op.log| && IsEnd(op.log[i]) ==> |op.log| - 1 - i <= op.late <= 1)
  {
    RunKeepsInv(Initial(max), evs);
    var s := After(Initial(max), evs);
    assert LogFits(s.all[id], InFlight(s.tasks.flight, id));
  }

  /**
   Within a generation an operation is subscribed at most once; and while the connection is ready,
   every live operation is subscribed, or its message is on its way, or it is about to end.
   */
  lemma SubscribedOncePerGeneration(max: nat, evs: seq<Event>, id: nat)
    requires IsRun(Initial(max), evs) && id < |After(Initial(max), evs).all|
    ensures var s := After(Initial(max), evs);
      && Distinct(s.all[id].frames)
      && (forall w :: w in Unsent(s.tasks) && w.id == id ==> w.gen !in s.all[id].frames)
      && (s.phase == Ready && id in s.ops && s.all[id].active ==> Served(s, id))
  {
    RunKeepsInv(Initial(max), evs);
    var s := After(Initial(max), evs);
    assert FramesFit(s.all[id], s);
    assert forall w :: w in Unsent(s.tasks) ==> Unwritten(s, w);
  }

  // An event reported for a generation that is not the current one.
  predicate Stale(s: State, ev: Event) {
    && (ev.Made? || ev.Open? || ev.Ack? || ev.Fail? || ev.Lapse? || ev.Abort? || ev.FindNext? || ev.FindError?
        || ev.FindComplete?)
    && !Current(s, ev.g)
  }

  // The run without its stale events.
  function Fresh(s: State, evs: seq<Event>): seq<Event>
    requires IsRun(s, evs)
    decreases |evs|
  {
    if evs == [] then []
    else if Stale(s, evs[0]) then Fresh(Step(s, evs[0]), evs[1..])
    else [evs[0]] + Fresh(Step(s, evs[0]), evs[1..])
  }

  lemma StepMovesOn(s: State, ev: Event)
    requires Possible(s, ev)
    ensures Step(s, ev).gen >= s.gen && (s.shut ==> Step(s, ev).shut)
  {
  }

  /** A generation that is over never comes back. */
  lemma {:induction false} GenerationsMoveOn(s: State, evs: seq<Event>)
    requires IsRun(s, evs)
    ensures After(s, evs).gen >= s.gen && (s.shut ==> After(s, evs).shut)
    decreases |evs|
  {
    if evs != [] {
      StepMovesOn(s, evs[0]);
      GenerationsMoveOn(Step(s, evs[0]), evs[1..]);
    }
  }

  /** Nothing reported for another generation changes anything: a run and the run without it end alike. */
  lemma {:induction false} StaleEventsDoNothing(s: State, evs: seq<Event>)
    requires IsRun(s, evs)
    ensures IsRun(s, Fresh(s, evs)) && After(s, Fresh(s, evs)) == After(s, evs)
    decreases |evs|
  {
    if evs != [] {
      var s1 := Step(s, evs[0]);
      StaleEventsDoNothing(s1, evs[1..]);
      if Stale(s, evs[0]) {
        assert s1 == s;
      } else {
        var kept := Fresh(s1, evs[1..]);
        assert ([evs[0]] + kept)[1..] == kept;
      }
    }
  }

  ghost predicate Reaches(s: State, s': State) {
    exists evs :: IsRun(s, evs) && After(s, evs) == s'
  }

  lemma ReachesItself(s: State)
    ensures Reaches(s, s)
  {
    assert IsRun(s, []) && After(s, []) == s;
  }

  lemma ReachesByStep(s: State, ev: Event, s': State)
    requires Possible(s, ev) && Reaches(Step(s, ev), s')
    ensures Reaches(s, s')
  {
    var evs :| IsRun(Step(s, ev), evs) && After(Step(s, ev), evs) == s';
    var all := [ev] + evs;
    assert all[0] == ev && all[1..] == evs;
    assert IsRun(s, all) && After(s, all) == s';
  }

  /**
   The acknowledgement timeout can end a connection that has been acknowledged: a ready connection
   ends by it exactly if the timer had found that same generation overdue before. Its operations
   end too if no reconnects are allowed, and wait for one otherwise.
   */
  lemma LateTimeoutEndsReadyIff(max: nat, evs: seq<Event>, g: nat)
    requires IsRun(Initial(max), evs)
    requires var s := After(Initial(max), evs); s.phase == Ready && Possible(s, Lapse(g))
    ensures var s := After(Initial(max), evs);
      var s' := Step(s, Lapse(g));
      && (s'.phase != Ready <==> g == s.gen)
      && (g == s.gen ==> if s.max == 0 then s'.ops == {} && s.ops <= s'.tasks.ending.Keys else s'.phase == Backoff)
  {
    RunKeepsInv(Initial(max), evs);
  }

  /** It does happen: the timer looks, the acknowledgement comes, and then the timer fails the generation. */
  lemma AReadyConnectionCanTimeOut()
    ensures exists s :: Reaches(Initial(0), s) && s.phase == Ready && s.gen in s.tasks.overdue
  {
    var late := First(Ready, Some(1), [WRITTEN], NONE.(overdue := {1}));
    ReachesItself(late);
    ReachesWritten(late, {1});
  }

  // On the first connection, with no reconnects allowed.
  function First(phase: Phase, conn: Option<nat>, all: seq<Op>, t: Tasks): State {
    State(0, phase, 1, false, 0, conn, {1}, if |all| == 1 then {0} else {0, 1}, all, t)
  }

  const NEW := Op(true, false, false, [], [], 0)
  const WRITTEN := Op(true, false, true, [1], [], 0)
  const NONE := Tasks(0, {}, {}, {}, {}, map[], Quiet, {})

  lemma ReachesConnecting(s': State)
    requires Reaches(First(Connecting, None, [NEW], NONE), s')
    ensures Reaches(Initial(0), s')
  {
    var subscribed := State(0, Idle, 0, false, 0, None, {}, {0}, [NEW], NONE.(starts := 1));
    assert Step(subscribed, StartQueued) == First(Connecting, None, [NEW], NONE);
    ReachesByStep(subscribed, StartQueued, s');
    assert Subscribed(Initial(0), false) == subscribed;
    ReachesByStep(Initial(0), DoSubscribe(false), s');
  }

  lemma ReachesAwaiting(s': State)
    requires Reaches(First(AwaitingAck, Some(1), [NEW], NONE), s')
    ensures Reaches(Initial(0), s')
  {
    var made := First(Connecting, Some(1), [NEW], NONE);
    assert Opened(made, 1) == First(AwaitingAck, Some(1), [NEW], NONE);
    ReachesByStep(made, Open(1), s');
    assert SocketMade(First(Connecting, None, [NEW], NONE), 1) == made;
    ReachesByStep(First(Connecting, None, [NEW], NONE), Made(1), s');
    ReachesConnecting(s');
  }

  const SENT := Op(true, false, true, [], [], 0)

  // The timer has looked while the acknowledgement was awaited, or has not.
  lemma ReachesLooked(s': State, overdue: set<nat>)
    requires overdue <= {1} && Reaches(First(AwaitingAck, Some(1), [NEW], NONE.(overdue := overdue)), s')
    ensures Reaches(Initial(0), s')
  {
    var awaiting := First(AwaitingAck, Some(1), [NEW], NONE);
    if overdue != {} {
      assert overdue == {1} && FoundOverdue(awaiting) == First(AwaitingAck, Some(1), [NEW], NONE.(overdue := {1}));
      ReachesByStep(awaiting, TimerLooks, s');
    }
    ReachesAwaiting(s');
  }

  lemma ReachesReplayed(s': State, overdue: set<nat>)
    requires overdue <= {1}
    requires Reaches(First(Ready, Some(1), [SENT], NONE.(sends := {Send(0, 1)}, overdue := overdue)), s')
    ensures Reaches(Initial(0), s')
  {
    var w, awaiting := Send(0, 1), First(AwaitingAck, Some(1), [NEW], NONE.(overdue := overdue));
    var acked := First(Ready, Some(1), [NEW], NONE.(replays := {w}, overdue := overdue));
    assert [NEW][0 := SENT] == [SENT];
    assert Replayed(acked, w) == First(Ready, Some(1), [SENT], NONE.(sends := {w}, overdue := overdue));
    ReachesByStep(acked, Replay(w), s');
    assert Replays({0}, 1) == {w} && awaiting.ops == {0};
    assert Acked(awaiting, 1) == acked;
    ReachesByStep(awaiting, Ack(1), s');
    ReachesLooked(s', overdue);
  }

  lemma ReachesWritten(s': State, overdue: set<nat>)
    requires overdue <= {1} && Reaches(First(Ready, Some(1), [WRITTEN], NONE.(overdue := overdue)), s')
    ensures Reaches(Initial(0), s')
  {
    var w := Send(0, 1);
    var replayed := First(Ready, Some(1), [SENT], NONE.(sends := {w}, overdue := overdue));
    var checked := First(Ready, Some(1), [SENT], NONE.(writes := {w}, overdue := overdue));
    assert SENT.frames + [1] == [1] && [SENT][0 := WRITTEN] == [WRITTEN];
    assert Written(checked, w, true) == First(Ready, Some(1), [WRITTEN], NONE.(overdue := overdue));
    ReachesByStep(checked, Write(w, true), s');
    assert SendChecked(replayed, w, true) == checked;
    ReachesByStep(replayed, CheckSend(w, true), s');
    ReachesReplayed(s', overdue);
  }

  // A second operation is being sent while the event thread holds a message for the first.
  function Crossing(flight: Flight): State {
    First(Ready, Some(1), [WRITTEN, SENT], NONE.(writes := {Send(1, 1)}, flight := flight))
  }

  lemma ReachesCrossing(s': State)
    requires Reaches(Crossing(Delivering(0)), s')
    ensures Reaches(Initial(0), s')
  {
    var ready, w := First(Ready, Some(1), [WRITTEN], NONE), Send(1, 1);
    var second := First(Ready, Some(1), [WRITTEN, SENT], NONE.(sends := {w}));
    assert NextFound(Crossing(Quiet), 1, 0) == Crossing(Delivering(0));
    ReachesByStep(Crossing(Quiet), FindNext(1, 0), s');
    assert SendChecked(second, w, true) == Crossing(Quiet);
    ReachesByStep(second, CheckSend(w, true), s');
    assert Subscribed(ready, false) == second;
    ReachesByStep(ready, DoSubscribe(false), s');
    ReachesWritten(s', {});
  }

  // The write fails, and with no reconnects allowed both operations end.
  lemma CrossingFails()
    ensures Written(Crossing(Delivering(0)), Send(1, 1), false)
         == State(0, Idle, 2, false, 0, None, {1}, {}, [WRITTEN.(active := false), Op(false, false, true, [], [], 0)],
                  NONE.(ending := map[0 := Error, 1 := Error], flight := Delivering(0)))
  {
    var s := Crossing(Delivering(0));
    assert s.ops == {0, 1};
    var failed := Written(s, Send(1, 1), false);
    assert failed.all == [WRITTEN.(active := false), Op(false, false, true, [], [], 0)];
    assert failed.tasks.ending == map[0 := Error, 1 := Error];
    assert failed.tasks.writes == {};
  }

  /**
   The one late callback does happen: the event thread finds an operation for its next message,
   the write of another operation fails and ends both, and then the message is posted.
   */
  lemma ACallbackCanFollowTheEnding()
    ensures exists s :: Reaches(Initial(0), s) && |s.all| == 2 && s.all[0].log == [Error, Next] && !s.all[0].cancelled
  {
    CrossingFails();
    var crossing := Crossing(Delivering(0));
    var failed := Written(crossing, Send(1, 1), false);
    var ended := EndPosted(failed, 0);
    var late := FlightPosted(ended, true);
    assert ended.all[0].log == [Error];
    assert late.all[0].log == [Error, Next];
    ReachesItself(late);
    ReachesByStep(ended, PostFlight(true), late);
    ReachesByStep(failed, PostEnd(0), late);
    ReachesByStep(crossing, Write(Send(1, 1), false), late);
    ReachesCrossing(late);
  }

  // ---- the reconnect delay ----

  function Doubled(initial: nat, times: nat): nat {
    if times == 0 then initial else 2 * Doubled(initial, times - 1)
  }

  /** The base delay: doubled for each attempt after the first, up to the maximum. */
  function BaseDelay(initial: int, maximum: int, attempt: nat): nat {
    var first := Max(0, initial);
    Min(Doubled(first, if attempt == 0 then 0 else attempt - 1), Max(first, maximum))
  }

  lemma {:induction false} DoubledGrows(initial: nat, a: nat, b: nat)
    requires a <= b
    ensures Doubled(initial, a) <= Doubled(initial, b)
    decreases b
  {
    if a < b { DoubledGrows(initial, a, b - 1); }
  }

  /** Waits never get shorter from one attempt to the next. */
  lemma BaseDelayGrows(initial: int, maximum: int, a: nat, b: nat)
    requires a <= b
    ensures BaseDelay(initial, maximum, a) <= BaseDelay(initial, maximum, b)
  {
    DoubledGrows(Max(0, initial), if a == 0 then 0 else a - 1, if b == 0 then 0 else b - 1);
  }

  // llround: the nearest integer, halves away from zero.
  function Round(x: real): int { if x >= 0.0 then (x + 0.5).Floor else -(0.5 - x).Floor }

  method ReconnectBase(initial: int, maximum: int, attempt: nat) returns (base: nat)
    ensures base == BaseDelay(initial, maximum, attempt)
  {
    var first := Max(0, initial);
    var most := Max(first, maximum);
    var n := 1;
    base := first;
    while n < attempt && base < most
      invariant 1 <= n && base == Min(Doubled(first, n - 1), most)
      invariant n <= attempt || (n == 1 && attempt == 0)
      decreases attempt - n
    {
      base := if base > most / 2 then most else base * 2;
      n := n + 1;
    }
    if n < attempt { DoubledGrows(first, n - 1, attempt - 1); }
  }

  function Jittered(base: nat, u: real): real { base as real * (1.0 + u) }

  lemma JitteredFits(base: nat, u: real)
    requires u >= -1.0
    ensures Jittered(base, u) >= 0.0 && (base == 0 || u == 0.0 ==> Jittered(base, u) == base as real)
  {
    ProductIsNonNegative(base as real, 1.0 + u);
  }

  lemma RoundFits(x: real, most: nat)
    requires x >= 0.0
    ensures var r := Max(0, Min(Round(x), most));
      0 <= r <= most && r as real <= x + 0.5 && (x - 0.5 <= r as real || r == most)
  {
  }

  // The delay is the value drawn, rounded and cut.
  predicate Rounds(delay: int, drawn: real, most: int) {
    && 0 <= delay <= most
    && delay as real <= drawn + 0.5 && (drawn - 0.5 <= delay as real || delay == most)
  }

  /** `u` is the random number drawn, anywhere in [-jitter, jitter] after cutting jitter to 0..1. */
  method ReconnectDelay(initial: int, maximum: int, attempt: nat, jitter: real, u: real) returns (delay: int)
    requires var j := if jitter < 0.0 then 0.0 else if jitter > 1.0 then 1.0 else jitter; -j <= u <= j
    ensures jitter <= 0.0 ==> delay == BaseDelay(initial, maximum, attempt)
    ensures Rounds(delay, Jittered(BaseDelay(initial, maximum, attempt), u), Max(Max(0, initial), maximum))
  {
    var most := Max(Max(0, initial), maximum);
    var base := ReconnectBase(initial, maximum, attempt);
    JitteredFits(base, u);
    if base == 0 || jitter <= 0.0 {
      return base;
    }
    RoundFits(Jittered(base, u), most);
    delay := Max(0, Min(Round(Jittered(base, u)), most));
  }

  // ---- the handler code ----

  /** Switches off the operations of `ids`, one after the other. */
  method StopAll(all: seq<Op>, ids: set<nat>, cancel: bool) returns (r: seq<Op>)
    ensures r == Stopped(all, ids, cancel)
  {
    r := all;
    var todo := ids;
    while todo != {}
      invariant todo <= ids && r == Stopped(all, ids - todo, cancel)
    {
      var id :| id in todo;
      if id < |r| {
        r := r[id := Off(r[id], cancel)];
      }
      todo := todo - {id};
    }
    assert ids - todo == ids;
  }

  /** Makes an error due for each of `ids`. */
  method EndAll(ending: map<nat, Post>, ids: set<nat>) returns (r: map<nat, Post>)
    ensures r == AllEnding(ending, ids)
  {
    r := ending;
    var todo := ids;
    while todo != {}
      invariant todo <= ids && r == AllEnding(ending, ids - todo)
    {
      var id :| id in todo;
      r := r[id := Error];
      todo := todo - {id};
    }
    assert ids - todo == ids;
  }

  class Client {
    const max: nat
    var phase: Phase
    var gen: nat
    var shut: bool
    var attempt: nat
    var conn: Option<nat>
    var sockets: set<nat>
    var ops: set<nat>
    var all: seq<Op>
    var tasks: Tasks

    ghost function View(): State
      reads this
    {
      State(max, phase, gen, shut, attempt, conn, sockets, ops, all, tasks)
    }

    constructor (max: nat)
      ensures View() == Initial(max)
    {
      this.max := max;
      phase, gen, shut, attempt, conn, sockets, ops, all := Idle, 0, false, 0, None, {}, {}, [];
      tasks := Tasks(0, {}, {}, {}, {}, map[], Quiet, {});
    }

    method BecomeIdle()
      modifies this`gen, this`phase, this`attempt, this`conn
      ensures gen == old(gen) + 1 && phase == Idle && attempt == 0 && conn == None
    {
      gen, phase, attempt, conn := gen + 1, Idle, 0, None;
    }

    /** Afterwards nothing is live, and what was live is cancelled. */
    method Shutdown()
      modifies this
      ensures View() == ShutDown(old(View()))
      ensures !old(shut) ==>
        ops == {} && forall i :: 0 <= i < |all| && i in old(ops) ==> !all[i].active && all[i].cancelled
    {
      if shut {
        return;
      }
      shut, gen, phase, conn := true, gen + 1, Idle, None;
      all := StopAll(all, ops, true);
      ops := {};
    }

    /** Afterwards nothing is live, and what was live is switched off with its error due. */
    method FailOperations()
      modifies this
      ensures View() == AllFailed(old(View()))
      ensures ops == {} && forall id :: id in old(ops) ==> id in tasks.ending && tasks.ending[id] == Error
    {
      BecomeIdle();
      all := StopAll(all, ops, false);
      var ending := EndAll(tasks.ending, ops);
      tasks, ops := tasks.(ending := ending), {};
    }

    /** In the handshake of this generation every live operation becomes due for replay. */
    method HandleAcknowledgement(g: nat)
      modifies this
      ensures View() == Acked(old(View()), g)
      ensures !old(shut) && old(gen) == g && old(phase) == AwaitingAck ==>
        phase == Ready && ops == old(ops) && forall id :: id in ops ==> Send(id, g) in tasks.replays
    {
      if shut || g != gen {
        return;
      }
      if phase != AwaitingAck {
        FailOperations();
        return;
      }
      phase, attempt := Ready, 0;
      var replays, todo := tasks.replays, ops;
      while todo != {}
        invariant todo <= ops && replays == tasks.replays + Replays(ops - todo, g)
      {
        var id :| id in todo;
        assert Replays(ops - (todo - {id}), g) == Replays(ops - todo, g) + {Send(id, g)};
        replays := replays + {Send(id, g)};
        todo := todo - {id};
      }
      assert ops - todo == ops;
      tasks := tasks.(replays := replays);
    }
  }

  // ---- the steps keep it ----

  // Operations keep their messages and callbacks, and new ones have none.
  predicate SameTraces(a: seq<Op>, b: seq<Op>) {
    && |a| <= |b|
    && (forall i :: 0 <= i < |a| ==> b[i].frames == a[i].frames && b[i].log == a[i].log && b[i].late == a[i].late)
    && (forall i :: |a| <= i < |b| ==> b[i].frames == [] && b[i].log == [] && b[i].late == 0)
  }

  predicate MovesOn(s: State, s': State) {
    s'.gen > s.gen || (s'.gen == s.gen && (s.phase == Ready ==> s'.phase == Ready))
  }

  // Messages still to send may only be added if they are unwritten; no message is written.
  lemma SendsFrame(s: State, s': State)
    requires SendsAgree(s) && SameTraces(s.all, s'.all) && MovesOn(s, s')
    requires s'.tasks.replays !! s'.tasks.sends !! s'.tasks.writes !! FlightSends(s'.tasks.flight)
    requires forall w :: w in Unsent(s'.tasks) ==> w in Unsent(s.tasks) || Unwritten(s', w)
    ensures SendsAgree(s')
  {
    forall w | w in Unsent(s'.tasks) ensures Unwritten(s', w) {
      assert w in Unsent(s.tasks) ==> Unwritten(s, w);
    }
    forall i | 0 <= i < |s'.all| ensures FramesFit(s'.all[i], s') {
      if i < |s.all| { assert FramesFit(s.all[i], s); }
    }
  }

  lemma EndsFrame(s: State, s': State)
    requires EndsAgree(s) && SameTraces(s.all, s'.all)
    requires s'.tasks.flight == s.tasks.flight
    requires forall id :: id in s'.ops ==> (id in s.ops || id >= |s.all|) && id !in s'.tasks.ending
    requires forall id :: id in s'.tasks.ending ==>
      && id < |s'.all| && IsEnd(s'.tasks.ending[id])
      && (id in s.tasks.ending || id in s.ops || id >= |s.all|)
    ensures EndsAgree(s')
  {
    forall i | 0 <= i < |s'.all| ensures LogFits(s'.all[i], InFlight(s'.tasks.flight, i)) {
      if i < |s.all| { assert LogFits(s.all[i], InFlight(s.tasks.flight, i)); }
    }
  }

  lemma FramesKeepInv(s: State, s': State)
    requires Inv(s) && LinkAgrees(s') && OpsAgree(s') && Accounted(s') && AllServed(s')
    requires SameTraces(s.all, s'.all) && MovesOn(s, s')
    requires s'.tasks.replays == s.tasks.replays && s'.tasks.sends == s.tasks.sends && s'.tasks.writes <= s.tasks.writes
    requires s'.tasks.flight == s.tasks.flight
    requires forall id :: id in s'.ops ==> (id in s.ops || id >= |s.all|) && id !in s'.tasks.ending
    requires forall id :: id in s'.tasks.ending ==>
      && id < |s'.all| && IsEnd(s'.tasks.ending[id])
      && (id in s.tasks.ending || id in s.ops || id >= |s.all|)
    ensures Inv(s')
  {
    SendsFrame(s, s');
    EndsFrame(s, s');
  }

  lemma LinkStepKeepsInv(s: State, ev: Event)
    requires Inv(s) && Possible(s, ev)
    requires ev.Move? || ev.StartQueued? || ev.StartTimer? || ev.Made? || ev.Open? || ev.FindError? || ev.TimerLooks?
    ensures Inv(Step(s, ev))
  {
    if ev.StartQueued? || ev.StartTimer? {
      StartKeepsInv(s, ev);
    } else if ev.Move? || ev.TimerLooks? {
      MoveKeepsInv(s, ev);
    } else {
      FramesKeepInv(s, Step(s, ev));
    }
  }

  lemma MoveKeepsInv(s: State, ev: Event)
    requires Inv(s) && (ev.Move? || ev.TimerLooks?)
    ensures Inv(Step(s, ev))
  {
    FramesKeepInv(s, Step(s, ev));
  }

  lemma StartKeepsInv(s: State, ev: Event)
    requires Inv(s) && Possible(s, ev) && (ev.StartQueued? || ev.StartTimer?)
    ensures Inv(Step(s, ev))
  {
    FramesKeepInv(s, Step(s, ev));
  }

  lemma ShutdownKeepsInv(s: State)
    requires Inv(s)
    ensures Inv(ShutDown(s))
  {
    FramesKeepInv(s, ShutDown(s));
  }

  lemma AllFailedKeepsInv(s: State)
    requires Inv(s) && !s.shut
    ensures Inv(AllFailed(s))
  {
    FramesKeepInv(s, AllFailed(s));
  }

  lemma FailKeepsInv(s: State, g: nat, retry: bool)
    requires Inv(s)
    ensures Inv(Failed(s, g, retry))
  {
    if Current(s, g) && (!retry || (s.ops != {} && s.attempt >= s.max)) {
      AllFailedKeepsInv(s);
    } else {
      FramesKeepInv(s, Failed(s, g, retry));
    }
  }

  lemma LeaveKeepsInv(s: State, id: nat, end: Post)
    requires Inv(s) && id in s.ops && IsEnd(end)
    ensures Inv(Left(s, id, end))
  {
    FramesKeepInv(s, Left(s, id, end));
  }

  lemma CancelKeepsInv(s: State, id: nat)
    requires Inv(s) && id < |s.all| && !s.all[id].active && s.all[id].cancelled
    ensures Inv(Cancelled(s, id))
  {
    FramesKeepInv(s, Cancelled(s, id));
  }

  lemma MarkKeepsInv(s: State, id: nat)
    requires Inv(s) && id < |s.all|
    ensures Inv(MarkedCancelled(s, id))
  {
    FramesKeepInv(s, MarkedCancelled(s, id));
  }

  lemma SwitchOffKeepsInv(s: State, id: nat)
    requires Inv(s)
    ensures Inv(SwitchedOff(s, id))
  {
    FramesKeepInv(s, SwitchedOff(s, id));
  }

  lemma FinishKeepsInv(s: State, id: nat)
    requires Inv(s)
    ensures Inv(Finished(s, id))
  {
    if id in s.ops {
      FramesKeepInv(s, Finished(s, id));
    } else {
      NothingToFinish(s, Finished(s, id), id);
    }
  }

  lemma NothingToFinish(s: State, s': State, id: nat)
    requires Inv(s) && id !in s.ops && s' == s.(tasks := s.tasks.(finishing := s.tasks.finishing - {id}))
    ensures Inv(s')
  {
    forall i | s'.phase == Ready && i in s'.ops && i < |s'.all| && s'.all[i].active ensures Served(s', i) {
      assert Served(s, i);
    }
    FramesKeepInv(s, s');
  }

  lemma SubscribeWhenReady(s: State)
    requires Inv(s) && !s.shut && s.phase == Ready
    ensures Inv(Subscribed(s, false))
  {
    var s' := Subscribed(s, false);
    assert Send(|s.all|, s.gen) !in Unsent(s.tasks);
    SendsFrame(s, s');
    EndsFrame(s, s');
    forall id | id in s'.ops && id < |s'.all| && s'.all[id].active ensures Served(s', id) {
      assert id < |s.all| ==> Served(s, id);
    }
  }

  lemma SubscribeKeepsInv(s: State, fault: bool)
    requires Inv(s)
    ensures Inv(Subscribed(s, fault))
  {
    var s' := Subscribed(s, fault);
    if s.shut || fault || s.phase != Ready {
      FramesKeepInv(s, s');
    } else {
      SubscribeWhenReady(s);
    }
  }

  lemma AckKeepsInv(s: State, g: nat)
    requires Inv(s)
    ensures Inv(Acked(s, g))
  {
    var s' := Acked(s, g);
    if Current(s, g) && s.phase != AwaitingAck {
      AllFailedKeepsInv(s);
    } else if Current(s, g) {
      forall w | w in Replays(s.ops, g) ensures Unwritten(s', w) && w !in Unsent(s.tasks) {
        assert FramesFit(s.all[w.id], s);
        assert w in Unsent(s.tasks) ==> Unwritten(s, w);
      }
      SendsFrame(s, s');
      EndsFrame(s, s');
    }
  }

  // A step of the event thread with no callback in flight before it.
  lemma FlightBegins(s: State, s': State)
    requires EndsAgree(s) && s.tasks.flight == Quiet
    requires SameTraces(s.all, s'.all) && |s.all| == |s'.all| && s'.ops == s.ops && s'.tasks.ending == s.tasks.ending
    requires s'.tasks.flight != Quiet ==> s'.tasks.flight.id in s.ops && s'.tasks.flight.id < |s.all|
    ensures EndsAgree(s')
  {
    forall i | 0 <= i < |s'.all| ensures LogFits(s'.all[i], InFlight(s'.tasks.flight, i)) {
      assert LogFits(s.all[i], 0);
    }
  }

  lemma NextKeepsInv(s: State, g: nat, id: nat)
    requires Inv(s) && s.tasks.flight == Quiet
    ensures Inv(NextFound(s, g, id))
  {
    SendsFrame(s, NextFound(s, g, id));
    FlightBegins(s, NextFound(s, g, id));
  }

  lemma ReplayKeepsInv(s: State, r: Send)
    requires Inv(s) && Possible(s, Replay(r))
    ensures Inv(Replayed(s, r))
  {
    ReplayKeepsRest(s, r);
    ReplayKeepsSends(s, r);
    ReplayKeepsServed(s, r);
  }

  lemma ReplayKeepsRest(s: State, r: Send)
    requires LinkAgrees(s) && OpsAgree(s) && EndsAgree(s) && Accounted(s) && Possible(s, Replay(r))
    ensures var s' := Replayed(s, r); LinkAgrees(s') && OpsAgree(s') && EndsAgree(s') && Accounted(s')
  {
    FlightBegins(s, Replayed(s, r));
  }

  lemma ReplayKeepsSends(s: State, r: Send)
    requires SendsAgree(s) && Possible(s, Replay(r))
    ensures SendsAgree(Replayed(s, r))
  {
    SendsFrame(s, Replayed(s, r));
  }

  lemma ReplayKeepsServed(s: State, r: Send)
    requires AllServed(s) && Possible(s, Replay(r))
    ensures AllServed(Replayed(s, r))
  {
    var s' := Replayed(s, r);
    forall id | s.phase == Ready && id in s'.ops && id < |s'.all| && s'.all[id].active ensures Served(s', id) {
      assert Served(s, id);
    }
  }

  lemma SendKeepsInv(s: State, w: Send, fits: bool)
    requires Inv(s) && Possible(s, CheckSend(w, fits))
    ensures Inv(SendChecked(s, w, fits))
  {
    SendKeepsSends(s, w, fits);
    SendKeepsRest(s, w, fits);
    SendKeepsServed(s, w, fits);
  }

  lemma SendKeepsSends(s: State, w: Send, fits: bool)
    requires LinkAgrees(s) && SendsAgree(s) && Possible(s, CheckSend(w, fits))
    ensures SendsAgree(SendChecked(s, w, fits))
  {
    SendsFrame(s, SendChecked(s, w, fits));
  }

  lemma SendKeepsRest(s: State, w: Send, fits: bool)
    requires LinkAgrees(s) && OpsAgree(s) && EndsAgree(s) && Accounted(s) && Possible(s, CheckSend(w, fits))
    ensures var s' := SendChecked(s, w, fits); LinkAgrees(s') && OpsAgree(s') && EndsAgree(s') && Accounted(s')
  {
    EndsFrame(s, SendChecked(s, w, fits));
  }

  lemma SendKeepsServed(s: State, w: Send, fits: bool)
    requires AllServed(s) && LinkAgrees(s) && Possible(s, CheckSend(w, fits))
    ensures AllServed(SendChecked(s, w, fits))
  {
    var s' := SendChecked(s, w, fits);
    forall id | s.phase == Ready && id in s'.ops && id < |s'.all| && s'.all[id].active ensures Served(s', id) {
      assert Served(s, id);
    }
  }

  // A callback is posted for one operation: its messages stay, as do the other operations.
  lemma PostKeepsSends(s: State, s': State, id: nat)
    requires SendsAgree(s) && id < |s.all| == |s'.all| && s'.gen == s.gen && s'.phase == s.phase
    requires s'.all == s.all[id := s.all[id].(log := s'.all[id].log, late := s'.all[id].late)]
    requires s'.tasks.replays !! s'.tasks.sends !! s'.tasks.writes !! FlightSends(s'.tasks.flight)
    requires Unsent(s'.tasks) <= Unsent(s.tasks)
    ensures SendsAgree(s')
  {
    forall w | w in Unsent(s'.tasks) ensures Unwritten(s', w) {
      assert w in Unsent(s.tasks) && Unwritten(s, w);
    }
    forall i | 0 <= i < |s'.all| ensures FramesFit(s'.all[i], s') {
      assert FramesFit(s.all[i], s);
    }
  }

  // A callback that was in flight is posted: it counts as late only if it was counted as in flight.
  lemma PostKeepsEnds(s: State, s': State, id: nat, p: Post)
    requires EndsAgree(s) && !IsEnd(p) && id < |s.all| && s.tasks.flight != Quiet && s.tasks.flight.id == id
    requires s'.all == s.all[id := Logged(s.all[id], p)] && s'.ops == s.ops
    requires s'.tasks.ending == s.tasks.ending && s'.tasks.flight == Quiet
    ensures EndsAgree(s')
  {
    Posting(s.all[id].log, p);
    forall i | 0 <= i < |s'.all| ensures LogFits(s'.all[i], 0) {
      assert LogFits(s.all[i], InFlight(s.tasks.flight, i));
    }
  }

  lemma DropKeepsEnds(s: State, s': State)
    requires EndsAgree(s)
    requires s'.all == s.all && s'.ops == s.ops && s'.tasks.ending == s.tasks.ending && s'.tasks.flight == Quiet
    ensures EndsAgree(s')
  {
    forall i | 0 <= i < |s'.all| ensures LogFits(s'.all[i], 0) {
      assert LogFits(s.all[i], InFlight(s.tasks.flight, i));
    }
  }

  lemma FlightKeepsInv(s: State, valid: bool)
    requires Inv(s) && Possible(s, PostFlight(valid))
    ensures Inv(FlightPosted(s, valid))
  {
    if s.tasks.flight.Delivering? {
      DeliveryKeepsInv(s, valid);
    } else {
      ReconnectKeepsInv(s, valid);
    }
  }

  lemma DeliveryKeepsInv(s: State, valid: bool)
    requires Inv(s) && Possible(s, PostFlight(valid)) && s.tasks.flight.Delivering?
    ensures Inv(FlightPosted(s, valid))
  {
    var s', id := FlightPosted(s, valid), s.tasks.flight.id;
    if valid {
      Posting(s.all[id].log, Next);
      PostKeepsSends(s, s', id);
      PostKeepsEnds(s, s', id, Next);
    } else {
      SendsFrame(s, s');
      DropKeepsEnds(s, s');
    }
  }

  lemma ReconnectKeepsInv(s: State, valid: bool)
    requires Inv(s) && Possible(s, PostFlight(valid)) && s.tasks.flight.Replaying?
    ensures Inv(FlightPosted(s, valid))
  {
    var s', id := FlightPosted(s, valid), s.tasks.flight.id;
    Posting(s.all[id].log, Reconnected);
    PostKeepsSends(s, s', id);
    PostKeepsEnds(s, s', id, Reconnected);
  }

  lemma EndKeepsInv(s: State, id: nat)
    requires Inv(s) && Possible(s, PostEnd(id))
    ensures Inv(EndPosted(s, id))
  {
    PostKeepsSends(s, EndPosted(s, id), id);
    EndKeepsEnds(s, id);
    EndKeepsAccounts(s, id);
    EndKeepsServed(s, id);
  }

  lemma EndKeepsEnds(s: State, id: nat)
    requires EndsAgree(s) && Possible(s, PostEnd(id))
    ensures EndsAgree(EndPosted(s, id))
  {
    var s' := EndPosted(s, id);
    Posting(s.all[id].log, s.tasks.ending[id]);
    forall i | 0 <= i < |s'.all| ensures LogFits(s'.all[i], InFlight(s'.tasks.flight, i)) {
      assert LogFits(s.all[i], InFlight(s.tasks.flight, i));
    }
  }

  lemma EndKeepsAccounts(s: State, id: nat)
    requires EndsAgree(s) && Accounted(s) && Possible(s, PostEnd(id))
    ensures Accounted(EndPosted(s, id))
  {
    Posting(s.all[id].log, s.tasks.ending[id]);
  }

  lemma EndKeepsServed(s: State, id: nat)
    requires AllServed(s) && OpsAgree(s) && Possible(s, PostEnd(id))
    ensures AllServed(EndPosted(s, id)) && OpsAgree(EndPosted(s, id))
  {
    var s' := EndPosted(s, id);
    forall i | s'.phase == Ready && i in s'.ops && i < |s'.all| && s'.all[i].active ensures Served(s', i) {
      assert Served(s, i);
    }
  }

  lemma WriteKeepsSends(s: State, w: Send, sent: bool)
    requires SendsAgree(s) && Possible(s, Write(w, sent))
    ensures SendsAgree(Written(s, w, sent))
  {
    var s' := Written(s, w, sent);
    assert w in Unsent(s.tasks) && w !in Unsent(s'.tasks);
    forall x | x in Unsent(s'.tasks) ensures Unwritten(s', x) {
      assert x in Unsent(s.tasks) && Unwritten(s, x);
    }
    forall i | 0 <= i < |s'.all| ensures FramesFit(s'.all[i], s') {
      assert FramesFit(s.all[i], s) && Unwritten(s, w);
    }
  }

  lemma WriteKeepsInv(s: State, w: Send, sent: bool)
    requires Inv(s) && Possible(s, Write(w, sent))
    ensures Inv(Written(s, w, sent))
  {
    if sent {
      WriteKeepsSends(s, w, true);
      WriteKeepsRest(s, w);
    } else {
      WriteFailsKeepsInv(s, w);
    }
  }

  lemma WriteKeepsRest(s: State, w: Send)
    requires Inv(s) && Possible(s, Write(w, true))
    ensures var s' := Written(s, w, true);
      LinkAgrees(s') && OpsAgree(s') && EndsAgree(s') && Accounted(s') && AllServed(s')
  {
    var s' := Written(s, w, true);
    forall i | 0 <= i < |s'.all| ensures LogFits(s'.all[i], InFlight(s'.tasks.flight, i)) {
      assert LogFits(s.all[i], InFlight(s.tasks.flight, i));
    }
    forall id | s.phase == Ready && id in s'.ops && id < |s'.all| && s'.all[id].active ensures Served(s', id) {
      assert Served(s, id);
    }
  }

  lemma WriteFailsKeepsInv(s: State, w: Send)
    requires Inv(s) && Possible(s, Write(w, false))
    ensures Inv(Written(s, w, false))
  {
    var s' := Written(s, w, false);
    if !Current(s, w.gen) {
      OldMessageDropped(s, s', w);
    } else if s.attempt >= s.max {
      FramesKeepInv(s, s');
    } else {
      FramesKeepInv(s, s');
    }
  }

  lemma OldMessageDropped(s: State, s': State, w: Send)
    requires Inv(s) && w.id < |s.all| && !Current(s, w.gen)
    requires s' == s.(tasks := s.tasks.(writes := s.tasks.writes - {w}))
    ensures Inv(s')
  {
    forall id | s'.phase == Ready && id in s'.ops && id < |s'.all| && s'.all[id].active ensures Served(s', id) {
      assert Served(s, id);
    }
    FramesKeepInv(s, s');
  }

  lemma StepKeepsInv(s: State, ev: Event)
    requires Inv(s) && Possible(s, ev)
    ensures Inv(Step(s, ev))
  {
    match ev
    case DoSubscribe(fault) => SubscribeKeepsInv(s, fault);
    case MarkCancelled(id) => MarkKeepsInv(s, id);
    case SwitchOff(id) => SwitchOffKeepsInv(s, id);
    case EraseCancelled(id) => CancelKeepsInv(s, id);
    case DoShutdown => ShutdownKeepsInv(s);
    case Ack(g) => AckKeepsInv(s, g);
    case Fail(g, retry) => FailKeepsInv(s, g, retry);
    case Lapse(g) => FailKeepsInv(s, g, true);
    case Abort(g) => FailKeepsInv(s, g, true);
    case FindNext(g, id) => NextKeepsInv(s, g, id);
    case FindComplete(g, id) => if Current(s, g) && id in s.ops { LeaveKeepsInv(s, id, Complete); }
    case Replay(r) => ReplayKeepsInv(s, r);
    case PostFlight(valid) => FlightKeepsInv(s, valid);
    case CheckSend(w, fits) => SendKeepsInv(s, w, fits);
    case Write(w, sent) => WriteKeepsInv(s, w, sent);
    case Finish(id) => FinishKeepsInv(s, id);
    case PostEnd(id) => EndKeepsInv(s, id);
    case _ => LinkStepKeepsInv(s, ev);
  }

  lemma {:induction false} RunKeepsInv(s: State, evs: seq<Event>)
    requires Inv(s) && IsRun(s, evs)
    ensures Inv(After(s, evs))
    decreases |evs|
  {
    if evs != [] {
      StepKeepsInv(s, evs[0]);
      RunKeepsInv(Step(s, evs[0]), evs[1..]);
    }
  }
}
