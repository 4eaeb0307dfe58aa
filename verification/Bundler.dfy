/**
 The send path (src/replication/connection.cpp: transmit, flushBundleLocked and its callers) and the
 MESSAGE_BUNDLE framing it uses (include/crowdy/wire/codec.hpp: BundleWriter, forEachMessage).

 The socket is a nondeterministic outcome for each datagram; time is a parameter.
 */
module Bundler {
  import opened Bytes
  import opened Division

  type Message = seq<Byte>

  const MAX_DATAGRAM := 1232
  const MAX_MEMBER := 1229
  const MAX_MEMBERS := 32
  const HMAC_TAG := 32
  const BUNDLE: Byte := 2
  const SIGNED_BUNDLE: Byte := 30

  // ---- the framing ----

  function Le16(n: nat): seq<Byte> { [n % 256, n / 256 % 256] }

  function Prefixed(m: Message): seq<Byte> { Le16(|m|) + m }

  function Framed(ms: seq<Message>): seq<Byte> {
    if ms == [] then [] else Prefixed(ms[0]) + Framed(ms[1..])
  }

  /** What goes on the wire: a lone member travels unwrapped. */
  function Datagram(ms: seq<Message>): seq<Byte> {
    if |ms| == 0 then [] else if |ms| == 1 then ms[0] else [BUNDLE] + Framed(ms)
  }

  // The members a receiver finds, and whether the datagram was whole.
  datatype Received = Received(members: seq<Message>, whole: bool)

  function Walk(bs: seq<Byte>): Received
    decreases |bs|
  {
    if bs == [] then Received([], true)
    else if |bs| < 2 then Received([], false)
    else
      var n := Length(bs[0], bs[1]);
      if |bs| < 2 + n then Received([], false)
      else
        var rest := Walk(bs[2 + n..]);
        rest.(members := [bs[2..2 + n]] + rest.members)
  }

  function Length(low: int, high: int): int { low + 256 * high }

  function ForEachMessage(datagram: seq<Byte>): Received {
    if datagram == [] then Received([], false)
    else if datagram[0] == SIGNED_BUNDLE then
      if |datagram| <= HMAC_TAG + 1 then Received([], false) else Walk(datagram[1..|datagram| - HMAC_TAG])
    else if datagram[0] != BUNDLE then Received([datagram], true)
    else Walk(datagram[1..])
  }

  predicate Sendable(m: Message) { 0 < |m| <= 0xffff }

  predicate IsBundle(m: Message) { m != [] && m[0] in {BUNDLE, SIGNED_BUNDLE} }

  lemma WalkOne(m: Message, rest: seq<Byte>)
    requires Sendable(m)
    ensures Walk(Prefixed(m) + rest) == Walk(rest).(members := [m] + Walk(rest).members)
  {
    var bs := Prefixed(m) + rest;
    Quotient(|m|, 256, |m| / 256, |m| % 256);
    assert |m| / 256 < 256;
    assert Length(bs[0], bs[1]) == |m|;
    assert bs[2..2 + |m|] == m && bs[2 + |m|..] == rest;
  }

  lemma {:induction false} WalkUndoesFraming(ms: seq<Message>)
    requires forall m :: m in ms ==> Sendable(m)
    ensures Walk(Framed(ms)) == Received(ms, true)
  {
    if ms != [] {
      assert ms[0] in ms;
      WalkOne(ms[0], Framed(ms[1..]));
      WalkUndoesFraming(ms[1..]);
      assert ms == [ms[0]] + ms[1..];
    }
  }

  lemma {:induction false} WalkedMembersAreShorter(bs: seq<Byte>)
    ensures forall m :: m in Walk(bs).members ==> |m| + 2 <= |bs|
    decreases |bs|
  {
    if |bs| >= 2 {
      var n := Length(bs[0], bs[1]);
      if |bs| >= 2 + n { WalkedMembersAreShorter(bs[2 + n..]); }
    }
  }

  /**
   The receiver's walk of a datagram gives back exactly its members, always for two or more, and
   for a lone unwrapped one exactly when its type byte is not that of a bundle.
   */
  lemma DatagramCarriesItsMembers(ms: seq<Message>)
    requires ms != [] && forall i :: 0 <= i < |ms| ==> Sendable(ms[i])
    ensures ForEachMessage(Datagram(ms)) == Received(ms, true)
       <==> |ms| > 1 || !IsBundle(ms[0])
  {
    if |ms| > 1 {
      assert Datagram(ms)[1..] == Framed(ms);
      WalkUndoesFraming(ms);
    } else {
      var m := ms[0];
      assert ms == [m];
      WalkedMembersAreShorter(m[1..]);
      if |m| > HMAC_TAG { WalkedMembersAreShorter(m[1..|m| - HMAC_TAG]); }
      assert m in ms;
    }
  }

  lemma {:induction false} FramedAppend(ms: seq<Message>, m: Message)
    ensures Framed(ms + [m]) == Framed(ms) + Prefixed(m)
  {
    if ms == [] {
      assert [m][1..] == [] && ms + [m] == [m];
    } else {
      FramedAppend(ms[1..], m);
      assert (ms + [m])[1..] == ms[1..] + [m];
    }
  }

  // Bytes the type-2 frame of a bundle occupies.
  function Size(ms: seq<Message>): nat { 1 + |Framed(ms)| }

  predicate Fits(ms: seq<Message>, len: nat) {
    0 < len <= 0xffff && |ms| < MAX_MEMBERS && Size(ms) + 2 + len <= MAX_DATAGRAM
  }

  class BundleWriter {
    var buffer: seq<Byte>   // the used part of the datagram buffer
    var count: nat
    ghost var members: seq<Message>

    ghost predicate Valid()
      reads this
    {
      && buffer == [BUNDLE] + Framed(members) && count == |members| <= MAX_MEMBERS
      && |buffer| <= MAX_DATAGRAM && forall m :: m in members ==> Sendable(m)
    }

    constructor ()
      ensures Valid() && members == []
    {
      buffer, count, members := [BUNDLE], 0, [];
    }

    method FitsNow(len: nat) returns (fits: bool)
      requires Valid()
      ensures fits == Fits(members, len)
    {
      if len == 0 || len > 0xffff || count >= MAX_MEMBERS {
        return false;
      }
      return |buffer| + 2 + len <= MAX_DATAGRAM;
    }

    method Append(m: Message) returns (ok: bool)
      requires Valid()
      modifies this
      ensures Valid()
      ensures ok <==> Fits(old(members), |m|)
      ensures members == if ok then old(members) + [m] else old(members)
    {
      ok := FitsNow(|m|);
      if ok {
        FramedAppend(members, m);
        buffer := buffer + Le16(|m|) + m;
        count := count + 1;
        members := members + [m];
      }
    }

    /** The lone member is read back from behind its length prefix. */
    method GetDatagram() returns (bytes: seq<Byte>)
      requires Valid()
      ensures bytes == Datagram(members)
    {
      if count == 0 {
        return [];
      }
      if count == 1 {
        assert members[0] in members && Framed(members) == Prefixed(members[0]) + Framed([]);
        Quotient(|members[0]|, 256, |members[0]| / 256, |members[0]| % 256);
        var len := Length(buffer[1], buffer[2]);
        assert len == |members[0]|;
        return buffer[3..3 + len];
      }
      return buffer;
    }

    method Reset()
      modifies this
      ensures Valid() && members == []
    {
      buffer, count, members := [BUNDLE], 0, [];
    }
  }

  // ---- the send path ----

  datatype Outcome = Sent | WouldBlock | Fault
  datatype Status = Ok | InvalidArgument | Refused(outcome: Outcome)

  datatype Stats = Stats(
    messagesSent: nat, datagramsSent: nat, bytesSent: nat, sendsDeferred: nat, sendsFailed: nat,
    bundlesSent: nat, messagesDropped: nat)

  // What became of the messages that left the pending bundle together.
  datatype Batch = Batch(members: seq<Message>, onWire: bool)

  // `wire` holds each datagram's members; `accepted` the messages transmit took; `batches` every
  // bundle that left, sent or dropped.
  datatype Sender = Sender(
    bundling: bool, windowMs: int, bundle: seq<Message>, openedMs: int, stats: Stats,
    wire: seq<seq<Message>>, accepted: seq<Message>, batches: seq<Batch>)

  function DatagramSent(s: Sender, ms: seq<Message>, o: Outcome): Sender {
    var st := s.stats;
    match o
    case Sent =>
      s.(stats := st.(datagramsSent := st.datagramsSent + 1, bytesSent := st.bytesSent + |Datagram(ms)|),
         wire := s.wire + [ms])
    case WouldBlock => s.(stats := st.(sendsDeferred := st.sendsDeferred + 1))
    case Fault => s.(stats := st.(sendsFailed := st.sendsFailed + 1))
  }

  function Counted(s: Sender, m: Message): Sender {
    s.(stats := s.stats.(messagesSent := s.stats.messagesSent + 1), accepted := s.accepted + [m])
  }

  function Flushed(s: Sender, o: Outcome): Sender {
    if s.bundle == [] then s
    else
      var n := |s.bundle|;
      var after := DatagramSent(s, s.bundle, o);
      match o
      case Sent =>
        after.(stats := if n > 1 then after.stats.(bundlesSent := after.stats.bundlesSent + 1) else after.stats,
               bundle := [], batches := s.batches + [Batch(s.bundle, true)])
      case Fault =>
        after.(stats := after.stats.(messagesDropped := after.stats.messagesDropped + n),
               bundle := [], batches := s.batches + [Batch(s.bundle, false)])
      case WouldBlock => after
  }

  function FlushStatus(s: Sender, o: Outcome): Status {
    if s.bundle == [] || o == Sent then Ok else Refused(o)
  }

  predicate Expired(s: Sender, now: int) { now - s.openedMs >= s.windowMs }

  function SentAlone(s: Sender, m: Message, o: Outcome): (Sender, Status) {
    var after := DatagramSent(s, [m], o);
    if o == Sent then (Counted(after, m), Ok) else (after, Refused(o))
  }

  // `flush` and `send` are the socket's answers, should it be asked.
  function Transmitted(s: Sender, m: Message, now: int, flush: Outcome, send: Outcome): (Sender, Status) {
    if |m| == 0 then (s, InvalidArgument)
    else if !s.bundling then SentAlone(s, m, send)
    else if |m| > MAX_MEMBER then SentAlone(Flushed(s, flush), m, send)
    else
      var must := s.bundle != [] && ((s.windowMs > 0 && Expired(s, now)) || !Fits(s.bundle, |m|));
      var s1 := if must then Flushed(s, flush) else s;
      if must && FlushStatus(s, flush) != Ok && !Fits(s1.bundle, |m|) then (s1, FlushStatus(s, flush))
      else Joined(s1, m, now)
  }

  // The message joins the pending bundle, opening one if there is none.
  function Joined(s: Sender, m: Message, now: int): (Sender, Status) {
    var open := if s.bundle == [] then s.(openedMs := now) else s;
    if !Fits(open.bundle, |m|) then (open, InvalidArgument)
    else (Counted(open.(bundle := open.bundle + [m]), m), Ok)
  }

  function ExpiredFlushed(s: Sender, now: int, o: Outcome): Sender {
    if s.bundling && s.bundle != [] && Expired(s, now) then Flushed(s, o) else s
  }

  // ---- runs ----

  datatype Event =
    | Transmit(m: Message, now: int, flush: Outcome, send: Outcome)
    | FlushExpired(now: int, o: Outcome)
    | FlushSends(o: Outcome)

  function Next(s: Sender, ev: Event): Sender {
    match ev
    case Transmit(m, now, flush, send) => Transmitted(s, m, now, flush, send).0
    case FlushExpired(now, o) => ExpiredFlushed(s, now, o)
    case FlushSends(o) => if s.bundling then Flushed(s, o) else s
  }

  function After(s: Sender, evs: seq<Event>): Sender
    decreases |evs|
  {
    if evs == [] then s else After(Next(s, evs[0]), evs[1..])
  }

  function Started(bundling: bool, windowMs: int): Sender {
    Sender(bundling, windowMs, [], 0, Stats(0, 0, 0, 0, 0, 0, 0), [], [], [])
  }

  function Flat(groups: seq<seq<Message>>): seq<Message> {
    if groups == [] then [] else Flat(groups[..|groups| - 1]) + groups[|groups| - 1]
  }

  // All batches, or only those that reached the wire, laid end to end.
  function Laid(batches: seq<Batch>, sentOnly: bool): seq<Message> {
    if batches == [] then []
    else
      var last := batches[|batches| - 1];
      Laid(batches[..|batches| - 1], sentOnly) + (if sentOnly && !last.onWire then [] else last.members)
  }

  // The messages small enough to bundle, in order.
  function Small(ms: seq<Message>): seq<Message> {
    if ms == [] then []
    else Small(ms[..|ms| - 1]) + (if |ms[|ms| - 1]| <= MAX_MEMBER then [ms[|ms| - 1]] else [])
  }

  lemma {:induction false} SmallConcat(a: seq<Message>, b: seq<Message>)
    ensures Small(a + b) == Small(a) + Small(b)
    decreases |b|
  {
    if b == [] {
      assert a + b == a;
    } else {
      SmallConcat(a, b[..|b| - 1]);
      assert (a + b)[..|a + b| - 1] == a + b[..|b| - 1];
    }
  }

  lemma {:induction false} SmallKeepsSmall(ms: seq<Message>)
    requires forall m :: m in ms ==> |m| <= MAX_MEMBER
    ensures Small(ms) == ms
  {
    if ms != [] {
      var front, last := ms[..|ms| - 1], ms[|ms| - 1];
      assert last in ms && ms == front + [last];
      SmallKeepsSmall(front);
    }
  }

  ghost predicate BundleIsSmall(s: Sender) {
    && s.bundling && |s.bundle| <= MAX_MEMBERS && Size(s.bundle) <= MAX_DATAGRAM
    && (forall m :: m in s.bundle ==> 0 < |m| <= MAX_MEMBER)
  }

  ghost predicate Conserved(s: Sender) {
    && s.stats.messagesSent == |s.accepted|
    && s.stats.messagesSent == |Flat(s.wire)| + |s.bundle| + s.stats.messagesDropped
  }

  ghost predicate InOrder(s: Sender) {
    && Small(s.accepted) == Laid(s.batches, false) + s.bundle
    && Small(Flat(s.wire)) == Laid(s.batches, true)
  }

  ghost predicate Inv(s: Sender) { BundleIsSmall(s) && Conserved(s) && InOrder(s) }

  lemma FlatAppend(groups: seq<seq<Message>>, g: seq<Message>)
    ensures Flat(groups + [g]) == Flat(groups) + g
  {
    assert (groups + [g])[..|groups|] == groups;
  }

  lemma LaidAppend(batches: seq<Batch>, last: Batch)
    ensures Laid(batches + [last], false) == Laid(batches, false) + last.members
    ensures Laid(batches + [last], true) ==
      if last.onWire then Laid(batches, true) + last.members else Laid(batches, true)
  {
    assert (batches + [last])[..|batches|] == batches;
    assert Laid(batches, true) + [] == Laid(batches, true);
  }

  lemma SmallAppend(ms: seq<Message>, m: Message)
    ensures Small(ms + [m]) == if |m| <= MAX_MEMBER then Small(ms) + [m] else Small(ms)
  {
    assert (ms + [m])[..|ms|] == ms;
    assert Small(ms) + [] == Small(ms);
  }

  lemma FlushKeepsInv(s: Sender, o: Outcome)
    requires Inv(s)
    ensures Inv(Flushed(s, o))
    ensures Flushed(s, o).bundle == if o == WouldBlock then s.bundle else []
  {
    if s.bundle != [] && o != WouldBlock {
      FlatAppend(s.wire, s.bundle);
      FlushKeepsOrder(s, o);
    }
  }

  lemma FlushKeepsOrder(s: Sender, o: Outcome)
    requires BundleIsSmall(s) && InOrder(s) && s.bundle != [] && o != WouldBlock
    ensures InOrder(Flushed(s, o))
  {
    var f, all := Flushed(s, o), Laid(s.batches + [Batch(s.bundle, o == Sent)], false);
    BatchLaid(s.wire, s.batches, s.bundle, o == Sent);
    assert f.batches == s.batches + [Batch(s.bundle, o == Sent)] && f.bundle == [] && f.accepted == s.accepted;
    assert f.wire == if o == Sent then s.wire + [s.bundle] else s.wire;
    assert all + [] == all;
  }

  lemma BatchLaid(wire: seq<seq<Message>>, batches: seq<Batch>, bundle: seq<Message>, onWire: bool)
    requires Small(Flat(wire)) == Laid(batches, true) && forall m :: m in bundle ==> |m| <= MAX_MEMBER
    ensures var laid := batches + [Batch(bundle, onWire)];
      && Laid(laid, false) == Laid(batches, false) + bundle
      && Small(Flat(if onWire then wire + [bundle] else wire)) == Laid(laid, true)
  {
    LaidAppend(batches, Batch(bundle, onWire));
    FlatAppend(wire, bundle);
    SmallConcat(Flat(wire), bundle);
    SmallKeepsSmall(bundle);
  }

  lemma OversizeKeepsInv(s: Sender, m: Message, o: Outcome)
    requires Inv(s) && |m| > MAX_MEMBER
    ensures Inv(SentAlone(s, m, o).0)
  {
    if o == Sent {
      FlatAppend(s.wire, [m]);
      SmallAppend(Flat(s.wire), m);
      SmallAppend(s.accepted, m);
    }
  }

  lemma JoinKeepsInv(s: Sender, m: Message, now: int)
    requires Inv(s) && 0 < |m| <= MAX_MEMBER && HasRoom(s, m)
    ensures Inv(Joined(s, m, now).0) && Joined(s, m, now).1 == Ok
  {
    assert Framed([]) == [] && Fits([], |m|);
    FramedAppend(s.bundle, m);
    SmallAppend(s.accepted, m);
    assert Laid(s.batches, false) + s.bundle + [m] == Laid(s.batches, false) + (s.bundle + [m]);
  }

  predicate HasRoom(s: Sender, m: Message) { s.bundle == [] || Fits(s.bundle, |m|) }

  // The paths transmit can take with bundling on.
  lemma TransmitPaths(s: Sender, m: Message, now: int, flush: Outcome, send: Outcome)
    requires s.bundling
    ensures var t, f := Transmitted(s, m, now, flush, send), Flushed(s, flush);
      || (m == [] && t == (s, InvalidArgument))
      || (|m| > MAX_MEMBER && t == SentAlone(f, m, send))
      || (0 < |m| <= MAX_MEMBER && t.0 == f && t.1.Refused?)
      || (0 < |m| <= MAX_MEMBER && HasRoom(s, m) && t == Joined(s, m, now))
      || (0 < |m| <= MAX_MEMBER && HasRoom(f, m) && t == Joined(f, m, now))
  {
  }

  /** Transmit accepts every non-empty message or reports the socket's refusal; its append never fails. */
  lemma TransmitKeepsInv(s: Sender, m: Message, now: int, flush: Outcome, send: Outcome)
    requires Inv(s)
    ensures Inv(Transmitted(s, m, now, flush, send).0)
    ensures Transmitted(s, m, now, flush, send).1 == InvalidArgument <==> m == []
  {
    var f := Flushed(s, flush);
    FlushKeepsInv(s, flush);
    TransmitPaths(s, m, now, flush, send);
    if |m| > MAX_MEMBER {
      OversizeKeepsInv(f, m, send);
    } else if m != [] {
      if HasRoom(s, m) {
        JoinKeepsInv(s, m, now);
      }
      if HasRoom(f, m) {
        JoinKeepsInv(f, m, now);
      }
    }
  }

  lemma StepKeepsInv(s: Sender, ev: Event)
    requires Inv(s)
    ensures Inv(Next(s, ev))
  {
    match ev
    case Transmit(m, now, flush, send) => TransmitKeepsInv(s, m, now, flush, send);
    case FlushExpired(_, o) => FlushKeepsInv(s, o);
    case FlushSends(o) => FlushKeepsInv(s, o);
  }

  lemma {:induction false} RunKeepsInv(s: Sender, evs: seq<Event>)
    requires Inv(s)
    ensures Inv(After(s, evs))
    decreases |evs|
  {
    if evs != [] {
      StepKeepsInv(s, evs[0]);
      RunKeepsInv(Next(s, evs[0]), evs[1..]);
    }
  }

  /**
   With bundling on, whatever the socket answers: every message counted as sent is on the wire,
   pending or counted as dropped; and the messages small enough to bundle are on the wire, then
   pending, in the order they were accepted, with nothing missing but whole dropped bundles.
   */
  lemma NothingIsLostOrReordered(windowMs: int, evs: seq<Event>)
    ensures var s := After(Started(true, windowMs), evs);
      && s.stats.messagesSent == |s.accepted|
      && s.stats.messagesSent == |Flat(s.wire)| + |s.bundle| + s.stats.messagesDropped
      && Small(s.accepted) == Laid(s.batches, false) + s.bundle
      && Small(Flat(s.wire)) == Laid(s.batches, true)
  {
    RunKeepsInv(Started(true, windowMs), evs);
  }

  // ---- the code ----

  class Connection {
    const bundling: bool
    const windowMs: int
    var bundle: seq<Message>
    var openedMs: int
    var stats: Stats
    ghost var wire: seq<seq<Message>>
    ghost var accepted: seq<Message>
    ghost var batches: seq<Batch>

    ghost function View(): Sender
      reads this
    {
      Sender(bundling, windowMs, bundle, openedMs, stats, wire, accepted, batches)
    }

    constructor (bundling: bool, windowMs: int)
      ensures View() == Started(bundling, windowMs)
    {
      this.bundling, this.windowMs := bundling, windowMs;
      bundle, openedMs, stats := [], 0, Stats(0, 0, 0, 0, 0, 0, 0);
      wire, accepted, batches := [], [], [];
    }

    method SendDatagram(ms: seq<Message>, o: Outcome)
      modifies this
      ensures View() == DatagramSent(old(View()), ms, o)
    {
      match o {
        case Sent =>
          stats := stats.(datagramsSent := stats.datagramsSent + 1, bytesSent := stats.bytesSent + |Datagram(ms)|);
          wire := wire + [ms];
        case WouldBlock => stats := stats.(sendsDeferred := stats.sendsDeferred + 1);
        case Fault => stats := stats.(sendsFailed := stats.sendsFailed + 1);
      }
    }

    method CountMessageSent(m: Message)
      modifies this
      ensures View() == Counted(old(View()), m)
    {
      stats := stats.(messagesSent := stats.messagesSent + 1);
      accepted := accepted + [m];
    }

    method FlushBundleLocked(o: Outcome) returns (st: Status)
      modifies this
      ensures View() == Flushed(old(View()), o)
      ensures st == FlushStatus(old(View()), o)
    {
      if bundle == [] {
        return Ok;
      }
      var wrapped := |bundle| > 1;
      SendDatagram(bundle, o);
      if o == Sent {
        if wrapped {
          stats := stats.(bundlesSent := stats.bundlesSent + 1);
        }
        batches := batches + [Batch(bundle, true)];
        bundle := [];
        return Ok;
      }
      if o != WouldBlock {
        stats := stats.(messagesDropped := stats.messagesDropped + |bundle|);
        batches := batches + [Batch(bundle, false)];
        bundle := [];
      }
      return Refused(o);
    }

    method SendAlone(m: Message, o: Outcome) returns (st: Status)
      modifies this
      ensures (View(), st) == SentAlone(old(View()), m, o)
    {
      SendDatagram([m], o);
      if o == Sent {
        CountMessageSent(m);
        return Ok;
      }
      return Refused(o);
    }

    /** Only an empty message is an invalid argument: the append to a bundle with room never fails. */
    method Transmit(m: Message, now: int, flush: Outcome, send: Outcome) returns (st: Status)
      modifies this
      ensures (View(), st) == Transmitted(old(View()), m, now, flush, send)
      ensures Inv(old(View())) ==> Inv(View()) && (st == InvalidArgument <==> m == [])
    {
      if Inv(View()) { TransmitKeepsInv(View(), m, now, flush, send); }
      if |m| == 0 {
        return InvalidArgument;
      }
      if !bundling {
        st := SendAlone(m, send);
        return;
      }
      if |m| > MAX_MEMBER {
        if bundle != [] {
          st := FlushBundleLocked(flush);
        }
        st := SendAlone(m, send);
        return;
      }
      var expired := windowMs > 0 && now - openedMs >= windowMs;
      if bundle != [] && (expired || !Fits(bundle, |m|)) {
        st := FlushBundleLocked(flush);
        if st != Ok && !Fits(bundle, |m|) {
          return;
        }
      }
      st := Join(m, now);
    }

    method Join(m: Message, now: int) returns (st: Status)
      modifies this
      ensures (View(), st) == Joined(old(View()), m, now)
    {
      if bundle == [] {
        openedMs := now;
      }
      if !Fits(bundle, |m|) {
        return InvalidArgument;
      }
      bundle := bundle + [m];
      CountMessageSent(m);
      return Ok;
    }
  }
}
