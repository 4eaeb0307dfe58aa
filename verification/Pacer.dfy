/**
 The kit runtime's send budget (src/kit/runtime.cpp, takeOrWait and hold): a token bucket over a
 monotonic clock. Doubles and time points are reals, in milliseconds.
 */
module Pacer {
  import opened Numbers

  datatype Bucket = Bucket(capacity: int, window: int, tokens: real, last: real, blockedUntil: real)

  predicate Valid(b: Bucket) {
    b.capacity >= 1 && b.window >= 1 && 0.0 <= b.tokens <= b.capacity as real
  }

  /** A full bucket; a capacity or window below one counts as one. */
  function Full(budget: int, windowMs: int, now: real): (b: Bucket)
    ensures Valid(b)
  {
    var capacity := if budget < 1 then 1 else budget;
    Bucket(capacity, if windowMs < 1 then 1 else windowMs, capacity as real, now, 0.0)
  }

  // How many tokens an amount of time is worth, and how much time some tokens are worth.
  function Worth(b: Bucket, elapsed: real): real
    requires b.window >= 1
  {
    Scaled(elapsed, b.capacity, b.window)
  }

  function Scaled(x: real, times: int, over: int): real
    requires over >= 1
  {
    x * times as real / over as real
  }

  function TimeFor(b: Bucket, tokens: real): real
    requires b.capacity >= 1
  {
    Scaled(tokens, b.window, b.capacity)
  }

  // The tokens there would be at `now`.
  function Available(b: Bucket, now: real): real
    requires b.window >= 1
  {
    var refilled := b.tokens + Worth(b, now - b.last);
    if refilled < b.capacity as real then refilled else b.capacity as real
  }

  function AtLeastOne(ms: int): int { if ms < 1 then 1 else ms }

  /** The bucket after asking for a token at `now`, and how long to wait: 0 if one was taken. */
  function Taken(b: Bucket, now: real): (r: (Bucket, int))
    requires Valid(b) && b.last <= now
  {
    if now < b.blockedUntil then (b, AtLeastOne((b.blockedUntil - now).Floor))
    else
      var t := Available(b, now);
      if t >= 1.0 then (b.(tokens := t - 1.0, last := now), 0)
      else (b.(tokens := t, last := now), AtLeastOne(TimeFor(b, 1.0 - t).Floor + 1))
  }

  function Held(b: Bucket, now: real, ms: int): Bucket {
    var until := now + ms as real;
    b.(blockedUntil := if b.blockedUntil < until then until else b.blockedUntil, tokens := 0.0)
  }

  // ---- arithmetic of the rate ----

  lemma WorthOfSum(b: Bucket, x: real, y: real)
    requires Valid(b)
    ensures Worth(b, x + y) == Worth(b, x) + Worth(b, y)
  {
    var c, w := b.capacity as real, b.window as real;
    assert (x + y) * c == x * c + y * c;
    QuotientOfSum(x * c, y * c, w);
  }

  lemma QuotientOfSum(x: real, y: real, d: real)
    requires d > 0.0
    ensures (x + y) / d == x / d + y / d
  {
  }

  lemma QuotientIsNonNegative(x: real, d: real)
    requires x >= 0.0 && d > 0.0
    ensures x / d >= 0.0
  {
  }

  lemma WorthIsNonNegative(b: Bucket, x: real)
    requires Valid(b) && x >= 0.0
    ensures Worth(b, x) >= 0.0
  {
    ProductIsNonNegative(x, b.capacity as real);
    QuotientIsNonNegative(x * b.capacity as real, b.window as real);
  }

  lemma TimeIsNonNegative(b: Bucket, x: real)
    requires Valid(b) && x >= 0.0
    ensures TimeFor(b, x) >= 0.0
  {
    ProductIsNonNegative(x, b.window as real);
    QuotientIsNonNegative(x * b.window as real, b.capacity as real);
  }

  // The two conversions undo each other.
  lemma WorthOfTime(b: Bucket, x: real)
    requires Valid(b)
    ensures Worth(b, TimeFor(b, x)) == x
  {
    var c, w := b.capacity as real, b.window as real;
    assert (x * w / c) * c == x * w;
    assert (x * w) / w == x;
  }

  lemma AvailableLater(b: Bucket, now: real, later: real)
    requires Valid(b) && b.last <= now <= later
    ensures 0.0 <= Available(b, now) <= Available(b, later) <= Available(b, now) + Worth(b, later - now)
  {
    WorthOfSum(b, now - b.last, later - now);
    assert later - b.last == (now - b.last) + (later - now);
    WorthIsNonNegative(b, now - b.last);
    WorthIsNonNegative(b, later - now);
  }

  // ---- runs ----

  datatype Event = Take(time: real) | Hold(time: real, ms: int)

  // The events in order of time, none before `from` or after `to`.
  predicate Within(evs: seq<Event>, from: real, to: real)
    decreases |evs|
  {
    from <= to && (evs == [] || (from <= evs[0].time <= to && Within(evs[1..], evs[0].time, to)))
  }

  function Next(b: Bucket, ev: Event): (r: Bucket)
    requires Valid(b) && b.last <= ev.time
    ensures Valid(r) && r.last <= ev.time && r.capacity == b.capacity && r.window == b.window
  {
    match ev
    case Take(now) => AvailableLater(b, now, now); Taken(b, now).0
    case Hold(now, ms) => Held(b, now, ms)
  }

  predicate Grants(b: Bucket, ev: Event)
    requires Valid(b) && b.last <= ev.time
  {
    ev.Take? && Taken(b, ev.time).1 == 0
  }

  function After(b: Bucket, evs: seq<Event>, from: real, to: real): (r: Bucket)
    requires Valid(b) && b.last <= from && Within(evs, from, to)
    ensures Valid(r) && r.last <= to && r.capacity == b.capacity && r.window == b.window
    decreases |evs|
  {
    if evs == [] then b else After(Next(b, evs[0]), evs[1..], evs[0].time, to)
  }

  /** How many tokens the events take. */
  function Granted(b: Bucket, evs: seq<Event>, from: real, to: real): nat
    requires Valid(b) && b.last <= from && Within(evs, from, to)
    decreases |evs|
  {
    if evs == [] then 0
    else (if Grants(b, evs[0]) then 1 else 0) + Granted(Next(b, evs[0]), evs[1..], evs[0].time, to)
  }

  // An event leaves no more tokens than there were, less what it granted.
  lemma EventSpends(b: Bucket, ev: Event)
    requires Valid(b) && b.last <= ev.time
    ensures Available(Next(b, ev), ev.time) + (if Grants(b, ev) then 1.0 else 0.0) <= Available(b, ev.time)
  {
    AvailableLater(b, ev.time, ev.time);
    assert Worth(b, ev.time - ev.time) == 0.0;
  }

  lemma EventIsCovered(b: Bucket, ev: Event, from: real, to: real)
    requires Valid(b) && b.last <= from <= ev.time <= to
    ensures Available(Next(b, ev), ev.time) + (if Grants(b, ev) then 1.0 else 0.0) + Worth(Next(b, ev), to - ev.time)
         <= Available(b, from) + Worth(b, to - from)
  {
    EventSpends(b, ev);
    AvailableLater(b, from, ev.time);
    WorthOfSum(b, ev.time - from, to - ev.time);
    assert to - from == (ev.time - from) + (to - ev.time);
    assert Worth(Next(b, ev), to - ev.time) == Worth(b, to - ev.time);
  }

  lemma {:induction false} GrantsAreCovered(b: Bucket, evs: seq<Event>, from: real, to: real)
    requires Valid(b) && b.last <= from && Within(evs, from, to)
    ensures Granted(b, evs, from, to) as real <= Available(b, from) + Worth(b, to - from)
    decreases |evs|
  {
    if evs == [] {
      WorthIsNonNegative(b, to - from);
      AvailableLater(b, from, from);
    } else {
      GrantsAreCovered(Next(b, evs[0]), evs[1..], evs[0].time, to);
      EventIsCovered(b, evs[0], from, to);
    }
  }

  /**
   However takes and holds follow one another, in an interval of length T the pacer grants at most
   capacity + capacity * T / window.
   */
  lemma IntervalBound(budget: int, windowMs: int, start: real, before: seq<Event>, within: seq<Event>, a: real, T: real)
    requires Within(before, start, a) && Within(within, a, a + T)
    ensures var b := After(Full(budget, windowMs, start), before, start, a);
      Granted(b, within, a, a + T) as real <= b.capacity as real + Scaled(T, b.capacity, b.window)
  {
    IntervalBoundFrom(After(Full(budget, windowMs, start), before, start, a), within, a, T);
  }

  lemma IntervalBoundFrom(b: Bucket, evs: seq<Event>, a: real, T: real)
    requires Valid(b) && b.last <= a && Within(evs, a, a + T)
    ensures Granted(b, evs, a, a + T) as real <= b.capacity as real + Scaled(T, b.capacity, b.window)
  {
    GrantsAreCovered(b, evs, a, a + T);
    assert a + T - a == T;
  }

  // ---- the waits ----

  /** The wait for lack of tokens is long enough: asked again that late, with nothing in between, it grants. */
  lemma WaitSuffices(b: Bucket, now: real, later: real)
    requires Valid(b) && b.last <= now && b.blockedUntil <= now
    requires var (_, wait) := Taken(b, now); wait > 0 && later >= now + wait as real
    ensures var (b', _) := Taken(b, now); Valid(b') && b'.last <= later && Taken(b', later).1 == 0
  {
    var (b', wait) := Taken(b, now);
    var short := 1.0 - b'.tokens;
    AvailableLater(b, now, now);
    TimeIsNonNegative(b, short);
    WorthOfTime(b, short);
    WorthOfSum(b, TimeFor(b, short), later - now - TimeFor(b, short));
    assert later - now == TimeFor(b, short) + (later - now - TimeFor(b, short));
    WorthIsNonNegative(b, later - now - TimeFor(b, short));
    assert Worth(b', later - now) == Worth(b, later - now) >= short;
  }

  /**
   The wait while held is cut to whole milliseconds, so it ends the hold exactly if at most one
   millisecond, or a whole number of them, remained.
   */
  lemma HeldWaitEndsTheHoldIff(b: Bucket, now: real)
    requires Valid(b) && b.last <= now < b.blockedUntil
    ensures var wait := Taken(b, now).1; var left := b.blockedUntil - now;
      now + wait as real >= b.blockedUntil <==> left <= 1.0 || left == left.Floor as real
  {
  }

  /** Two waits always end it. */
  lemma TwoHeldWaitsEndTheHold(b: Bucket, now: real, later: real, last: real)
    requires Valid(b) && b.last <= now < b.blockedUntil
    requires later >= now + Taken(b, now).1 as real
    requires last >= later + Taken(b, later).1 as real && last >= later + 1.0
    ensures last >= b.blockedUntil
  {
  }

  // A job that nothing disturbs: asked first at `times[0]`, and again no sooner than it was told to.
  predicate Retries(b: Bucket, times: seq<real>)
    decreases |times|
  {
    times == [] ||
    (Valid(b) && b.last <= times[0] && Taken(b, times[0]).1 > 0
     && (|times| > 1 ==> times[1] >= times[0] + Taken(b, times[0]).1 as real)
     && Retries(Taken(b, times[0]).0, times[1..]))
  }

  /** It is put off at most three times: twice by a hold and once for lack of a token. */
  lemma UndisturbedJobRunsSoon(b: Bucket, times: seq<real>)
    requires Retries(b, times)
    ensures |times| <= 3
  {
    if |times| > 0 && b.blockedUntil <= times[0] {
      UnheldJobRunsSoon(b, times);
    } else if |times| > 1 && b.blockedUntil <= times[1] {
      UnheldJobRunsSoon(b, times[1..]);
    } else if |times| > 2 {
      assert times[1..][1] == times[2];
      TwoHeldWaitsEndTheHold(b, times[0], times[1], times[2]);
      assert times[1..][1..] == times[2..];
      UnheldJobRunsSoon(b, times[2..]);
    }
  }

  lemma UnheldJobRunsSoon(b: Bucket, times: seq<real>)
    requires times != [] && Retries(b, times) && b.blockedUntil <= times[0]
    ensures |times| == 1
  {
    if |times| > 1 {
      assert times[1..][0] == times[1];
      WaitSuffices(b, times[0], times[1]);
    }
  }

  // ---- the code ----

  class TokenBucket {
    const capacity: int
    const windowMs: int
    var tokens: real
    var last: real
    var blockedUntil: real

    ghost function View(): Bucket
      reads this
    {
      Bucket(capacity, windowMs, tokens, last, blockedUntil)
    }

    constructor (budget: int, window: int, now: real)
      ensures View() == Full(budget, window, now)
    {
      var c := if budget < 1 then 1 else budget;
      capacity := c;
      windowMs := if window < 1 then 1 else window;
      tokens, last, blockedUntil := c as real, now, 0.0;
    }

    method TakeOrWait(now: real) returns (wait: int)
      requires Valid(View()) && last <= now
      modifies this
      ensures (View(), wait) == Taken(old(View()), now)
      ensures Valid(View()) && last <= now
    {
      if now < blockedUntil {
        var left := (blockedUntil - now).Floor;
        return if left < 1 then 1 else left;
      }
      AvailableLater(View(), now, now);
      var refilled := tokens + Scaled(now - last, capacity, windowMs);
      tokens := if refilled < capacity as real then refilled else capacity as real;
      last := now;
      if tokens >= 1.0 {
        tokens := tokens - 1.0;
        return 0;
      }
      var ms := Scaled(1.0 - tokens, windowMs, capacity).Floor + 1;
      return if ms < 1 then 1 else ms;
    }

    method Hold(now: real, ms: int)
      modifies this
      ensures View() == Held(old(View()), now, ms)
    {
      var until := now + ms as real;
      if blockedUntil < until {
        blockedUntil := until;
      }
      tokens := 0.0;
    }
  }
}
