/**
 The wake-up flag of the notification hand-off (src/replication/connection.cpp: signalEvents,
 handleDatagram, setState and poll), with `onEventsReady` configured.

 A run interleaves any number of producers with one poller. The queue is the ring of module Spsc,
 here by its length and capacity alone; every access to the flag is one atomic step, and so is every callback.
 */
module Wake {
  import opened Sequences

  datatype Poll =
    | NotRunning
    | Draining(left: nat)   // cleared the flag, may dispatch `left` more events
    | SawEmpty              // tryPop found nothing
    | HitBound              // maxEvents dispatched, about to signal
    | Calling               // found the flag clear, about to call back

  // `owing` producers have pushed and not yet signalled, `calling` ones found the flag clear and
  // have not yet called back. `calls` counts the callbacks since the last poll began and `carried`
  // those still to be made when it began; `allCalls` and `polls` count from the start.
  datatype World = World(
    capacity: nat, queued: nat, flag: bool, owing: nat, calling: nat, poll: Poll,
    calls: nat, carried: nat, allCalls: nat, polls: nat)

  datatype Step =
    | Push(first: bool)     // a producer queues an event; `first` since its last signal
    | Exchange              // ... sets the flag
    | Call                  // ... and calls back
    | PollBegin(maxEvents: nat)
    | PollPop
    | PollEmpty
    | PollBound
    | PollExchange
    | PollCall
    | PollReturn

  predicate Possible(w: World, s: Step) {
    match s
    case Push(first) => w.queued < w.capacity && (first || w.owing > 0)
    case Exchange => w.owing > 0
    case Call => w.calling > 0
    case PollBegin(_) => w.poll.NotRunning?
    case PollPop => w.poll.Draining? && w.poll.left > 0 && w.queued > 0
    case PollEmpty => w.poll.Draining? && w.poll.left > 0 && w.queued == 0
    case PollBound => w.poll.Draining? && w.poll.left == 0
    case PollExchange => w.poll.HitBound?
    case PollCall => w.poll.Calling?
    case PollReturn => w.poll.SawEmpty?
  }

  function Called(w: World): World { w.(calls := w.calls + 1, allCalls := w.allCalls + 1) }

  function Next(w: World, s: Step): World
    requires Possible(w, s)
  {
    match s
    case Push(first) => w.(queued := w.queued + 1, owing := if first then w.owing + 1 else w.owing)
    case Exchange => w.(flag := true, owing := w.owing - 1, calling := if w.flag then w.calling else w.calling + 1)
    case Call => Called(w).(calling := w.calling - 1)
    case PollBegin(maxEvents) =>
      w.(flag := false, poll := Draining(maxEvents), calls := 0, carried := w.calling, polls := w.polls + 1)
    case PollPop => w.(queued := w.queued - 1, poll := Draining(w.poll.left - 1))
    case PollEmpty => w.(poll := SawEmpty)
    case PollBound => w.(poll := HitBound)
    case PollExchange => w.(flag := true, poll := if w.flag then NotRunning else Calling)
    case PollCall => Called(w).(poll := NotRunning)
    case PollReturn => w.(poll := NotRunning)
  }

  predicate IsRun(w: World, steps: seq<Step>)
    decreases |steps|
  {
    steps == [] || (Possible(w, steps[0]) && IsRun(Next(w, steps[0]), steps[1..]))
  }

  function After(w: World, steps: seq<Step>): World
    requires IsRun(w, steps)
    decreases |steps|
  {
    if steps == [] then w else After(Next(w, steps[0]), steps[1..])
  }

  function Start(capacity: nat): World { World(capacity, 0, false, 0, 0, NotRunning, 0, 0, 0, 0) }

  // Callbacks decided on and not yet made.
  function Pending(w: World): nat { w.calling + One(w.poll.Calling?) }

  predicate Inv(w: World) {
    && ((w.poll.NotRunning? || w.poll.SawEmpty? || w.poll.Calling?) && w.queued > 0 ==> w.flag || w.owing > 0)
    && w.calls + Pending(w) == w.carried + One(w.flag)
    && w.allCalls + Pending(w) <= w.polls + One(w.flag)
    && w.queued <= w.capacity && (w.owing + w.calling > 0 ==> w.capacity > 0)
  }

  lemma {:induction false} RunKeepsInv(w: World, steps: seq<Step>)
    requires Inv(w) && IsRun(w, steps)
    ensures Inv(After(w, steps))
    decreases |steps|
  {
    if steps != [] {
      RunKeepsInv(Next(w, steps[0]), steps[1..]);
    }
  }

  /**
   No wake-up is lost. In every interleaving: with events queued, no producer about to signal and
   no poll running, the flag is set and the application has been called since its last poll began,
   or is about to be. Since a poll began it is called, or about to be, exactly once for each
   callback then still to be made and once more if the flag is set; and in all at most once more
   than it polls.
   */
  lemma NoWakeUpIsLost(capacity: nat, steps: seq<Step>)
    requires IsRun(Start(capacity), steps)
    ensures var w := After(Start(capacity), steps);
      && (w.queued > 0 && w.owing == 0 && w.poll.NotRunning? ==> w.flag && w.calls + w.calling >= 1)
      && w.calls + Pending(w) == w.carried + One(w.flag)
      && w.allCalls + Pending(w) <= w.polls + 1
  {
    RunKeepsInv(Start(capacity), steps);
  }

  predicate WithinPoll(steps: seq<Step>) { forall i :: 0 <= i < |steps| ==> !steps[i].PollBegin? }

  ghost predicate CanCallTwice(w: World) {
    exists steps :: WithinPoll(steps) && IsRun(w, steps) && After(w, steps).calls >= 2
  }

  lemma {:induction false} CarriedIsFixed(w: World, steps: seq<Step>)
    requires IsRun(w, steps) && WithinPoll(steps)
    ensures After(w, steps).carried == w.carried
    decreases |steps|
  {
    if steps != [] { CarriedIsFixed(Next(w, steps[0]), steps[1..]); }
  }

  lemma TwiceAfterStep(w: World, s: Step)
    requires Possible(w, s) && !s.PollBegin? && CanCallTwice(Next(w, s))
    ensures CanCallTwice(w)
  {
    var steps :| WithinPoll(steps) && IsRun(Next(w, s), steps) && After(Next(w, s), steps).calls >= 2;
    var all := [s] + steps;
    assert all[1..] == steps && WithinPoll(all) && IsRun(w, all);
  }

  lemma TwiceAlready(w: World)
    requires w.calls >= 2
    ensures CanCallTwice(w)
  {
    var none: seq<Step> := [];
    assert WithinPoll(none) && IsRun(w, none) && After(w, none) == w;
  }

  // A callback left over from before, then one for an event queued since.
  lemma CarriedCallThenAnother(w: World)
    requires w.calling > 0 && !w.flag && w.queued < w.capacity
    ensures CanCallTwice(w)
  {
    var w1 := Next(w, Call);
    var w2 := Next(w1, Push(true));
    var w3 := Next(w2, Exchange);
    TwiceAlready(Next(w3, Call));
    TwiceAfterStep(w3, Call);
    TwiceAfterStep(w2, Exchange);
    TwiceAfterStep(w1, Push(true));
    TwiceAfterStep(w, Call);
  }

  // ... or one by the poll itself, stopped by its bound.
  lemma CarriedCallThenOwn(w: World)
    requires w.calling > 0 && !w.flag && w.poll == Draining(0)
    ensures CanCallTwice(w)
  {
    var w1 := Next(w, Call);
    var w2 := Next(w1, PollBound);
    var w3 := Next(w2, PollExchange);
    TwiceAlready(Next(w3, PollCall));
    TwiceAfterStep(w3, PollCall);
    TwiceAfterStep(w2, PollExchange);
    TwiceAfterStep(w1, PollBound);
    TwiceAfterStep(w, Call);
  }

  /**
   The documented "at most once between two polls" is not what the code keeps: after a poll begins
   the application can be called twice before the next one exactly if a producer had then set the
   flag and not yet called back.
   */
  lemma CalledTwiceIffCallCarriedOver(w: World, maxEvents: nat)
    requires Inv(w) && w.poll.NotRunning?
    ensures CanCallTwice(Next(w, PollBegin(maxEvents))) <==> w.calling > 0
  {
    var begun := Next(w, PollBegin(maxEvents));
    if w.calling > 0 {
      if maxEvents == 0 {
        CarriedCallThenOwn(begun);
      } else if w.queued < w.capacity {
        CarriedCallThenAnother(begun);
      } else {
        CarriedCallThenAnother(Next(begun, PollPop));
        TwiceAfterStep(begun, PollPop);
      }
    }
    if CanCallTwice(begun) {
      var steps :| WithinPoll(steps) && IsRun(begun, steps) && After(begun, steps).calls >= 2;
      RunKeepsInv(begun, steps);
      CarriedIsFixed(begun, steps);
    }
  }

  /** ... which does happen: a producer that was first to queue an event can be that late. */
  lemma ACallCanBeCarriedOver(capacity: nat, maxEvents: nat)
    requires capacity > 0
    ensures exists steps :: (
      IsRun(Start(capacity), steps) && After(Start(capacity), steps).poll.NotRunning?
      && CanCallTwice(Next(After(Start(capacity), steps), PollBegin(maxEvents))))
  {
    var w0, s1, s2 := Start(capacity), [Push(true), Exchange], [Exchange];
    var w1 := Next(w0, Push(true));
    var w2 := Next(w1, Exchange);
    assert s1[1..] == s2 && s2[1..] == [];
    assert IsRun(w2, []) && After(w2, []) == w2;
    assert IsRun(w1, s2) && After(w1, s2) == w2;
    assert IsRun(w0, s1) && After(w0, s1) == w2;
    CalledTwiceIffCallCarriedOver(w2, maxEvents);
  }

  // ---- the code ----

  class Notifier<E> {
    var ring: seq<E>
    const capacity: nat
    var signalled: bool

    constructor (capacity: nat)
      ensures ring == [] && !signalled && this.capacity == capacity
    {
      ring, signalled := [], false;
      this.capacity := capacity;
    }

    method SignalEvents() returns (called: bool)
      modifies `signalled
      ensures signalled && (called <==> !old(signalled))
    {
      called := !signalled;
      signalled := true;
    }

    /** Queues the events of one datagram, dropping those that find the ring full. */
    method Deliver(events: seq<E>) returns (called: bool, dropped: nat)
      requires |ring| <= capacity
      modifies this
      ensures |ring| <= capacity
      ensures dropped <= |events| && ring == old(ring) + events[..|events| - dropped]
      ensures dropped > 0 ==> |ring| == capacity
      ensures signalled == (old(signalled) || dropped < |events|)
      ensures called <==> signalled && !old(signalled)
    {
      var queued := false;
      called, dropped := false, 0;
      for i := 0 to |events|
        invariant dropped <= i && |ring| <= capacity && signalled == old(signalled)
        invariant ring == old(ring) + events[..i - dropped]
        invariant dropped > 0 ==> |ring| == capacity
        invariant queued <==> dropped < i
      {
        if |ring| < capacity {
          ring := ring + [events[i]];
          queued := true;
        } else {
          dropped := dropped + 1;
        }
      }
      if queued {
        called := SignalEvents();
      }
    }

    /** Dispatches up to `maxEvents`, oldest first; stopped by that bound, it signals. */
    method Poll(maxEvents: nat) returns (dispatched: seq<E>, called: bool)
      modifies this
      ensures dispatched + ring == old(ring)
      ensures |dispatched| == if |old(ring)| < maxEvents then |old(ring)| else maxEvents
      ensures signalled <==> |old(ring)| >= maxEvents
      ensures ring != [] ==> signalled && called
    {
      signalled := false;
      dispatched, called := [], false;
      var drained := false;
      while |dispatched| < maxEvents
        invariant dispatched + ring == old(ring) && |dispatched| <= maxEvents
        invariant !signalled && !drained
        decreases maxEvents - |dispatched|
      {
        if ring == [] {
          drained := true;
          break;
        }
        dispatched := dispatched + [ring[0]];
        ring := ring[1..];
      }
      if !drained {
        called := SignalEvents();
      }
    }
  }
}
