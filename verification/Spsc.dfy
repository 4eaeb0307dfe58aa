/**
 The single-producer single-consumer ring (include/crowdy/core/spsc.hpp).

 `SpscRing` is the code run by one thread at a time. `World` is the same code cut at each atomic
 load, store and slot access, so that a run is any interleaving of one producer and one consumer.
 Head and tail are 64-bit counters that wrap.
 */
module Spsc {
  import opened Options
  import opened Division
  import opened Numbers

  function Pow2(k: nat): nat { if k == 0 then 1 else 2 * Pow2(k - 1) }

  /** Bitwise and, bit by bit. */
  function BitAnd(x: nat, y: nat): nat
    decreases x
  {
    if x == 0 || y == 0 then 0 else 2 * BitAnd(x / 2, y / 2) + (if x % 2 == 1 && y % 2 == 1 then 1 else 0)
  }

  function Add64(x: nat, y: nat): nat { (x + y) % TWO_64 }
  function Sub64(x: nat, y: nat): nat { (x - y) % TWO_64 }

  // ---- why the 64-bit arithmetic is exact ----

  lemma {:induction false} Pow2Positive(k: nat)
    ensures Pow2(k) >= 1
    decreases k
  {
    if k > 0 { Pow2Positive(k - 1); }
  }

  lemma HalfMod(x: nat, p: nat)
    requires p > 0
    ensures x % (2 * p) == 2 * (x / 2 % p) + x % 2
  {
    var q, r := x / 2, x % 2;
    assert x == 2 * (p * (q / p) + q % p) + r == 2 * p * (q / p) + (2 * (q % p) + r);
    Quotient(x, 2 * p, q / p, 2 * (q % p) + r);
  }

  // One bit of the mask.
  lemma MaskBit(x: nat, p: nat)
    requires p > 0
    ensures BitAnd(x, 2 * p - 1) == 2 * BitAnd(x / 2, p - 1) + x % 2
  {
    Quotient(2 * p - 1, 2, p - 1, 1);
  }

  /** Masking with a power of two less one is the remainder by it. */
  lemma {:induction false} MaskIsRemainder(x: nat, k: nat)
    ensures Pow2(k) >= 1 && BitAnd(x, Pow2(k) - 1) == x % Pow2(k)
    decreases k
  {
    if k > 0 {
      MaskIsRemainder(x / 2, k - 1);
      MaskBit(x, Pow2(k - 1));
      HalfMod(x, Pow2(k - 1));
    }
  }

  lemma {:induction false} Pow2Splits(j: nat, k: nat)
    requires k <= j
    ensures Pow2(j) == Pow2(k) * Pow2(j - k)
    decreases j - k
  {
    if k < j {
      Pow2Splits(j - 1, k);
      assert Pow2(j) == 2 * (Pow2(k) * Pow2(j - 1 - k)) == Pow2(k) * (2 * Pow2(j - 1 - k));
    }
  }

  lemma Pow2Of64()
    ensures Pow2(63) == TWO_63 && Pow2(64) == TWO_64
  {
    assert Pow2(8) == 0x100;
    Pow2Splits(16, 8);
    Pow2Splits(32, 16);
    Pow2Splits(64, 32);
    assert Pow2(64) == 2 * Pow2(63);
  }

  lemma RemainderOfRemainder(n: nat, cap: nat, m: nat)
    requires cap > 0 && m > 0
    ensures cap * m > 0 && n % (cap * m) % cap == n % cap
  {
    AtLeast(cap, m);
    var q, r := n / (cap * m), n % (cap * m);
    var a, b := r / cap, r % cap;
    assert cap * m * q == cap * (m * q);
    assert cap * (m * q) + cap * a == cap * (m * q + a);
    Quotient(n, cap, m * q + a, b);
  }

  // The slot of item number n, computed from the wrapped counter, is n modulo the capacity.
  lemma SlotOfWrapped(n: nat, k: nat)
    requires k <= 63
    ensures Pow2(k) >= 1 && BitAnd(n % TWO_64, Pow2(k) - 1) == n % Pow2(k) < Pow2(k)
  {
    Pow2Of64();
    Pow2Splits(64, k);
    Pow2Positive(k);
    Pow2Positive(64 - k);
    MaskIsRemainder(n % TWO_64, k);
    RemainderOfRemainder(n, Pow2(k), Pow2(64 - k));
  }

  // The distance of two wrapped counters is their distance.
  lemma DistanceOfWrapped(n: nat, m: nat)
    requires m <= n < m + TWO_64
    ensures Sub64(n % TWO_64, m % TWO_64) == n - m
    ensures n % TWO_64 == m % TWO_64 <==> n == m
  {
    var a, b := n / TWO_64, m / TWO_64;
    Quotient(n % TWO_64 - m % TWO_64, TWO_64, b - a, n - m);
  }

  lemma NextWrapped(n: nat)
    ensures Add64(n % TWO_64, 1) == (n + 1) % TWO_64
  {
    var q, r := n / TWO_64, n % TWO_64;
    if r + 1 == TWO_64 {
      Quotient(n + 1, TWO_64, q + 1, 0);
      Quotient(r + 1, TWO_64, 1, 0);
    } else {
      Quotient(n + 1, TWO_64, q, r + 1);
      Quotient(r + 1, TWO_64, 0, r + 1);
    }
  }

  lemma SlotsDiffer(i: nat, j: nat, cap: nat)
    requires i < j < i + cap
    ensures i % cap != j % cap
  {
    if i % cap == j % cap {
      var a, b := i / cap, j / cap;
      assert j - i == cap * (b - a) && cap * (b - a) == -(cap * (a - b));
      if b > a {
        AtLeast(cap, b - a);
      } else if b < a {
        AtLeast(cap, a - b);
      }
    }
  }

  // ---- interleavings ----

  datatype Producer<T> =
    | Resting                       // between calls of tryPush
    | HasHead(item: T, head: nat)   // loaded head, about to load tail
    | HasRoom(item: T, head: nat)   // not full, about to write the slot
    | Written(item: T, head: nat)   // wrote the slot, about to store head + 1

  datatype Consumer<T> =
    | Waiting                       // between calls of tryPop
    | HasTail(tail: nat)            // loaded tail, about to load head
    | HasItem(tail: nat)            // not empty, about to move the item out
    | Taken(tail: nat, item: T)     // moved it out, about to store tail + 1

  // `accepted` and `delivered` are the items pushed and popped so far, in order.
  datatype World<T> = World(
    slots: seq<T>, mask: nat, head: nat, tail: nat, producer: Producer<T>, consumer: Consumer<T>,
    accepted: seq<T>, delivered: seq<T>)

  datatype Step<T> =
    | BeginPush(item: T) | LoadTail | WriteSlot | StoreHead
    | BeginPop | LoadHead | ReadSlot | StoreTail

  predicate Possible<T>(w: World<T>, s: Step<T>) {
    match s
    case BeginPush(_) => w.producer.Resting?
    case LoadTail => w.producer.HasHead?
    case WriteSlot => w.producer.HasRoom? && WriteIndex(w) < |w.slots|
    case StoreHead => w.producer.Written?
    case BeginPop => w.consumer.Waiting?
    case LoadHead => w.consumer.HasTail?
    case ReadSlot => w.consumer.HasItem? && ReadIndex(w) < |w.slots|
    case StoreTail => w.consumer.Taken?
  }

  function WriteIndex<T>(w: World<T>): nat
    requires w.producer.HasRoom?
  {
    BitAnd(w.producer.head, w.mask)
  }

  function ReadIndex<T>(w: World<T>): nat
    requires w.consumer.HasItem?
  {
    BitAnd(w.consumer.tail, w.mask)
  }

  function Next<T>(w: World<T>, s: Step<T>): World<T>
    requires Possible(w, s)
  {
    match s
    case BeginPush(item) => w.(producer := HasHead(item, w.head))
    case LoadTail =>
      var p := w.producer;
      w.(producer := if Sub64(p.head, w.tail) > w.mask then Resting else HasRoom(p.item, p.head))
    case WriteSlot =>
      var p := w.producer;
      w.(slots := w.slots[WriteIndex(w) := p.item], producer := Written(p.item, p.head))
    case StoreHead =>
      w.(head := Add64(w.producer.head, 1), producer := Resting, accepted := w.accepted + [w.producer.item])
    case BeginPop => w.(consumer := HasTail(w.tail))
    case LoadHead => w.(consumer := if w.consumer.tail == w.head then Waiting else HasItem(w.consumer.tail))
    case ReadSlot => w.(consumer := Taken(w.consumer.tail, w.slots[ReadIndex(w)]))
    case StoreTail =>
      w.(tail := Add64(w.consumer.tail, 1), consumer := Waiting, delivered := w.delivered + [w.consumer.item])
  }

  ghost predicate Inv<T>(w: World<T>, k: nat) {
    var n, m, cap := |w.accepted|, |w.delivered|, |w.slots|;
    && k <= 63 && cap == Pow2(k) && w.mask == cap - 1
    && m <= n <= m + cap
    && w.head == n % TWO_64 && w.tail == m % TWO_64
    && w.delivered == w.accepted[..m]
    && (forall i :: m <= i < n ==> i % cap < cap && w.slots[i % cap] == w.accepted[i])
    && (!w.producer.Resting? ==> w.producer.head == w.head)
    && (w.producer.HasRoom? || w.producer.Written? ==> n < m + cap)
    && (w.producer.Written? ==> n % cap < cap && w.slots[n % cap] == w.producer.item)
    && (!w.consumer.Waiting? ==> w.consumer.tail == w.tail)
    && (w.consumer.HasItem? || w.consumer.Taken? ==> m < n)
    && (w.consumer.Taken? ==> w.consumer.item == w.accepted[m])
  }

  lemma Indices<T>(w: World<T>, k: nat)
    requires Inv(w, k)
    ensures w.producer.HasRoom? ==> WriteIndex(w) == |w.accepted| % |w.slots| < |w.slots|
    ensures w.consumer.HasItem? ==> ReadIndex(w) == |w.delivered| % |w.slots| < |w.slots|
  {
    SlotOfWrapped(|w.accepted|, k);
    SlotOfWrapped(|w.delivered|, k);
  }

  lemma {:induction false} Pow2Grows(j: nat, k: nat)
    requires j < k
    ensures 1 <= Pow2(j) < Pow2(k)
    decreases k
  {
    Pow2Positive(j);
    if j < k - 1 { Pow2Grows(j, k - 1); }
  }

  lemma CapacityFits(k: nat)
    requires k <= 63
    ensures 1 <= Pow2(k) < TWO_64
  {
    Pow2Of64();
    Pow2Grows(k, 64);
  }

  /** The producer is refused exactly when the ring is full, the consumer exactly when it is empty. */
  lemma RefusedOnlyWhenFullOrEmpty<T>(w: World<T>, k: nat)
    requires Inv(w, k)
    ensures w.producer.HasHead? ==>
      (Next(w, LoadTail).producer.Resting? <==> |w.accepted| == |w.delivered| + |w.slots|)
    ensures w.consumer.HasTail? ==>
      (Next(w, LoadHead).consumer.Waiting? <==> |w.accepted| == |w.delivered|)
  {
    CapacityFits(k);
    DistanceOfWrapped(|w.accepted|, |w.delivered|);
  }

  /** No slot is written while it is read. */
  lemma NoSlotIsReadAndWritten<T>(w: World<T>, k: nat)
    requires Inv(w, k) && w.producer.HasRoom? && w.consumer.HasItem?
    ensures WriteIndex(w) != ReadIndex(w)
  {
    Indices(w, k);
    SlotsDiffer(|w.delivered|, |w.accepted|, |w.slots|);
  }

  lemma WriteKeepsInv<T>(w: World<T>, k: nat)
    requires Inv(w, k) && w.producer.HasRoom?
    ensures Possible(w, WriteSlot) && Inv(Next(w, WriteSlot), k)
  {
    Indices(w, k);
    var n, m, cap := |w.accepted|, |w.delivered|, |w.slots|;
    forall i | m <= i < n ensures i % cap != n % cap {
      SlotsDiffer(i, n, cap);
    }
  }

  lemma StepKeepsInv<T>(w: World<T>, s: Step<T>, k: nat)
    requires Inv(w, k) && Possible(w, s)
    ensures Inv(Next(w, s), k)
  {
    match s
    case LoadTail => RefusedOnlyWhenFullOrEmpty(w, k);
    case LoadHead => RefusedOnlyWhenFullOrEmpty(w, k);
    case WriteSlot => WriteKeepsInv(w, k);
    case StoreHead => NextWrapped(|w.accepted|);
    case ReadSlot => Indices(w, k);
    case StoreTail => NextWrapped(|w.delivered|);
    case _ =>
  }

  predicate IsRun<T>(w: World<T>, steps: seq<Step<T>>)
    decreases |steps|
  {
    steps == [] || (Possible(w, steps[0]) && IsRun(Next(w, steps[0]), steps[1..]))
  }

  function After<T>(w: World<T>, steps: seq<Step<T>>): World<T>
    requires IsRun(w, steps)
    decreases |steps|
  {
    if steps == [] then w else After(Next(w, steps[0]), steps[1..])
  }

  lemma {:induction false} RunKeepsInv<T>(w: World<T>, steps: seq<Step<T>>, k: nat)
    requires Inv(w, k) && IsRun(w, steps)
    ensures Inv(After(w, steps), k)
    decreases |steps|
  {
    if steps != [] {
      StepKeepsInv(w, steps[0], k);
      RunKeepsInv(Next(w, steps[0]), steps[1..], k);
    }
  }

  /**
   Every interleaving of the two sides is a bounded FIFO queue: what was delivered is a prefix of
   what was accepted, at most a capacity of items is between them, every slot index is in bounds,
   and no slot is ever about to be read and about to be written.
   */
  lemma RingIsAFifoQueue<T>(slots: seq<T>, k: nat, steps: seq<Step<T>>)
    requires k <= 63 && |slots| == Pow2(k) > 0 && IsRun(Start(slots), steps)
    ensures var w := After(Start(slots), steps);
      && w.delivered <= w.accepted && |w.accepted| <= |w.delivered| + |slots|
      && (w.producer.HasRoom? ==> Possible(w, WriteSlot)) && (w.consumer.HasItem? ==> Possible(w, ReadSlot))
      && (w.producer.HasRoom? && w.consumer.HasItem? ==> WriteIndex(w) != ReadIndex(w))
  {
    RunKeepsInv(Start(slots), steps, k);
    AllRunsKeepSlots(Start(slots), steps);
    var w := After(Start(slots), steps);
    Indices(w, k);
    if w.producer.HasRoom? && w.consumer.HasItem? {
      NoSlotIsReadAndWritten(w, k);
    }
  }

  function Start<T>(slots: seq<T>): World<T>
    requires |slots| > 0
  {
    World(slots, |slots| - 1, 0, 0, Resting, Waiting, [], [])
  }

  lemma {:induction false} AllRunsKeepSlots<T>(w: World<T>, steps: seq<Step<T>>)
    requires IsRun(w, steps)
    ensures |After(w, steps).slots| == |w.slots|
    decreases |steps|
  {
    if steps != [] { AllRunsKeepSlots(Next(w, steps[0]), steps[1..]); }
  }

  // ---- the code ----

  // `count` items from number `from` on, in the slots of a ring.
  ghost function Queue<T>(slots: seq<T>, from: nat, count: nat): (items: seq<T>)
    requires |slots| > 0
    ensures |items| == count
    decreases count
  {
    if count == 0 then [] else [slots[from % |slots|]] + Queue(slots, from + 1, count - 1)
  }

  lemma {:induction false} QueuePush<T>(slots: seq<T>, from: nat, count: nat, item: T)
    requires count < |slots|
    ensures Queue(slots[(from + count) % |slots| := item], from, count + 1) == Queue(slots, from, count) + [item]
    decreases count
  {
    if count > 0 {
      QueuePush(slots, from + 1, count - 1, item);
      SlotsDiffer(from, from + count, |slots|);
    }
  }

  class SpscRing<T(0)> {
    const slots: array<T>
    const mask: nat
    var head: nat
    var tail: nat
    ghost const k: nat
    ghost var pushed: nat
    ghost var popped: nat

    ghost predicate Valid()
      reads this, slots
    {
      && k <= 63 && slots.Length == Pow2(k) > 0 && mask == slots.Length - 1
      && popped <= pushed <= popped + slots.Length
      && head == pushed % TWO_64 && tail == popped % TWO_64
    }

    /** The queued items, oldest first. */
    ghost function Contents(): seq<T>
      requires Valid()
      reads this, slots
    {
      Queue(slots[..], popped, pushed - popped)
    }

    constructor (capacity: nat)
      requires capacity <= TWO_63
      ensures Valid() && fresh(slots) && Contents() == []
      ensures slots.Length >= capacity && (slots.Length == 1 || slots.Length < 2 * capacity)
    {
      var cap := 1;
      ghost var n := 0;
      Pow2Of64();
      while cap < capacity
        invariant n <= 63 && cap == Pow2(n) && (cap == 1 || cap < 2 * capacity)
        decreases capacity - cap
      {
        cap, n := cap * 2, n + 1;
        if n == 64 { assert false; }
      }
      mask := cap - 1;
      slots := new T[cap];
      head, tail, pushed, popped, k := 0, 0, 0, 0, n;
    }

    method TryPush(item: T) returns (ok: bool)
      requires Valid()
      modifies this, slots
      ensures Valid()
      ensures ok <==> |old(Contents())| < slots.Length
      ensures Contents() == if ok then old(Contents()) + [item] else old(Contents())
    {
      CapacityFits(k);
      DistanceOfWrapped(pushed, popped);
      if Sub64(head, tail) > mask {
        return false;
      }
      SlotOfWrapped(pushed, k);
      NextWrapped(pushed);
      QueuePush(slots[..], popped, pushed - popped, item);
      slots[BitAnd(head, mask)] := item;
      head := Add64(head, 1);
      pushed := pushed + 1;
      return true;
    }

    method TryPop() returns (item: Option<T>)
      requires Valid()
      modifies this
      ensures Valid()
      ensures item.None? <==> old(Contents()) == []
      ensures item.Some? ==> old(Contents()) == [item.value] + Contents()
      ensures item.None? ==> Contents() == []
    {
      CapacityFits(k);
      DistanceOfWrapped(pushed, popped);
      if tail == head {
        return None;
      }
      SlotOfWrapped(popped, k);
      NextWrapped(popped);
      item := Some(slots[BitAnd(tail, mask)]);
      tail := Add64(tail, 1);
      popped := popped + 1;
    }
  }
}
