/**
 The ck-exec connection (src/domains/exec.cpp, ExecConnection::Impl): requests waiting for a reply,
 connection generations, one retry after a loss or a Moved, and the dial and reconnect flags.

 Each critical section is one step. A request gets a ticket when it is made, and the ticket counts
 how often its frame was queued and which replies its callback was given. The pending table is kept
 in the order requests were made, which is the order of its keys until the 32-bit rid wraps.
 */
module Exec {
  import opened Options
  import opened Sequences

  datatype Kind = Call | Subscribe | Unsubscribe | Ping
  datatype Status =
    | Ok | AppError | Busy | Moved | NotFound | DeadlineExceeded | Denied | RateLimited | Unavailable
    | Internal | Trapped | BadRequest | AppPaused

  type Topic = string

  // `topic` is that of a subscribe or unsubscribe; a frame with a name too long is not `encodable`.
  datatype Frame = Frame(kind: Kind, topic: Topic, encodable: bool)

  // A request not yet answered: sent on connection `gen`, or waiting for one (gen 0).
  datatype Entry = Entry(
    rid: nat, ticket: nat, frame: Frame, deadline: int, gen: nat, retried: bool, internal: bool)

  datatype Ticket = Ticket(kind: Kind, callback: bool, sends: nat, requeued: bool, answers: seq<Status>)

  // ---- one pass over the pending table ----

  // What a loop over the table does with one entry: keep it (changed), or erase it and reply.
  datatype Verdict = Verdict(keep: Option<Entry>, reply: Option<Status>, sent: bool, requeued: bool)

  function Keep(e: Entry): Verdict { Verdict(Some(e), None, false, false) }
  function Erase(reply: Option<Status>): Verdict { Verdict(None, reply, false, false) }

  function Kept(pending: seq<Entry>, f: Entry -> Verdict): seq<Entry> {
    if pending == [] then []
    else
      var keep := f(pending[0]).keep;
      (if keep.Some? then [keep.value] else []) + Kept(pending[1..], f)
  }

  function Updated(t: Ticket, v: Verdict): Ticket {
    Ticket(t.kind, t.callback, if v.sent then t.sends + 1 else t.sends, t.requeued || v.requeued,
           if t.callback && v.reply.Some? then t.answers + [v.reply.value] else t.answers)
  }

  function Marked(tickets: seq<Ticket>, pending: seq<Entry>, f: Entry -> Verdict): (r: seq<Ticket>)
    ensures |r| == |tickets|
    decreases |pending|
  {
    if pending == [] then tickets
    else
      var e := pending[0];
      var first := if e.ticket < |tickets| then tickets[e.ticket := Updated(tickets[e.ticket], f(e))] else tickets;
      Marked(first, pending[1..], f)
  }

  // One turn of the loop.
  lemma PassStep(tickets: seq<Ticket>, pending: seq<Entry>, f: Entry -> Verdict, i: nat, kept: seq<Entry>)
    requires i < |pending|
    ensures var e := pending[i];
      && kept + Kept(pending[i..], f) ==
         (if f(e).keep.Some? then kept + [f(e).keep.value] else kept) + Kept(pending[i + 1..], f)
      && Marked(tickets, pending[i..], f) ==
         Marked(if e.ticket < |tickets| then tickets[e.ticket := Updated(tickets[e.ticket], f(e))] else tickets,
                pending[i + 1..], f)
  {
    assert pending[i..][1..] == pending[i + 1..] && pending[i..][0] == pending[i];
  }

  // ---- what the table and the tickets promise together ----

  predicate IsPending(pending: seq<Entry>, t: nat) {
    exists i :: 0 <= i < |pending| && pending[i].ticket == t
  }

  // How often the frame of `e` may have been queued by now.
  function Budget(e: Entry): nat { (if e.gen == 0 then 0 else 1) + (if e.retried then 1 else 0) }

  predicate Good(e: Entry, tickets: seq<Ticket>) {
    && e.ticket < |tickets|
    && var t := tickets[e.ticket];
      t.kind == e.frame.kind && t.answers == [] && t.sends <= Budget(e) && t.requeued == e.retried
      && (e.internal ==> !t.callback)
  }

  /** A callback gets at most one reply; a frame is queued once, a requeued call's at most twice. */
  predicate Fair(t: Ticket) {
    && |t.answers| <= (if t.callback then 1 else 0)
    && t.sends <= (if t.requeued then 2 else 1)
    && (t.requeued ==> t.kind == Call)
  }

  predicate OwnIds(pending: seq<Entry>) {
    forall i, j :: 0 <= i < j < |pending| ==> pending[i].ticket != pending[j].ticket && pending[i].rid != pending[j].rid
  }

  ghost predicate Tracked(pending: seq<Entry>, tickets: seq<Ticket>) {
    && (forall i :: 0 <= i < |pending| ==> Good(pending[i], tickets))
    && OwnIds(pending)
    && (forall t :: 0 <= t < |tickets| ==> Fair(tickets[t]))
    && (forall t :: 0 <= t < |tickets| && tickets[t].callback ==> (IsPending(pending, t) <==> tickets[t].answers == []))
  }

  predicate Legal(e: Entry, v: Verdict) {
    match v.keep
    case None => !v.sent && !v.requeued && (v.reply.None? ==> e.internal)
    case Some(k) =>
      && v.reply.None? && k.ticket == e.ticket && k.rid == e.rid && k.frame == e.frame && k.internal == e.internal
      && if v.sent then !v.requeued && e.gen == 0 && k.gen > 0 && k.retried == e.retried
         else if v.requeued then !e.retried && e.frame.kind == Call && k.retried && k.gen == 0
         else k.retried == e.retried && (k.gen == 0 <==> e.gen == 0)
  }

  ghost predicate AllLegal(pending: seq<Entry>, f: Entry -> Verdict) {
    forall i :: 0 <= i < |pending| ==> Legal(pending[i], f(pending[i]))
  }

  lemma RestIsPending(pending: seq<Entry>, t: nat)
    requires pending != []
    ensures IsPending(pending[1..], t) ==> IsPending(pending, t)
  {
    if IsPending(pending[1..], t) {
      var i :| 0 <= i < |pending[1..]| && pending[1..][i].ticket == t;
      assert pending[i + 1].ticket == t;
    }
  }

  lemma {:induction false} MarkedTickets(tickets: seq<Ticket>, pending: seq<Entry>, f: Entry -> Verdict)
    requires OwnIds(pending)
    ensures forall t :: 0 <= t < |tickets| && !IsPending(pending, t) ==> Marked(tickets, pending, f)[t] == tickets[t]
    ensures forall i :: 0 <= i < |pending| && pending[i].ticket < |tickets| ==>
      Marked(tickets, pending, f)[pending[i].ticket] == Updated(tickets[pending[i].ticket], f(pending[i]))
    decreases |pending|
  {
    if pending != [] {
      var e, rest := pending[0], pending[1..];
      var first := if e.ticket < |tickets| then tickets[e.ticket := Updated(tickets[e.ticket], f(e))] else tickets;
      MarkedTickets(first, rest, f);
      assert !IsPending(rest, e.ticket);
      forall t | 0 <= t < |tickets| && !IsPending(pending, t) ensures Marked(tickets, pending, f)[t] == tickets[t] {
        RestIsPending(pending, t);
        assert t != e.ticket;
      }
      forall i | 0 <= i < |pending| && pending[i].ticket < |tickets|
        ensures Marked(tickets, pending, f)[pending[i].ticket] == Updated(tickets[pending[i].ticket], f(pending[i]))
      {
        if i > 0 { assert rest[i - 1] == pending[i]; }
      }
    }
  }

  // Each kept entry comes from one of the table, in order.
  lemma {:induction false} KeptEntries(pending: seq<Entry>, f: Entry -> Verdict)
    ensures forall k :: k in Kept(pending, f) <==> exists i :: 0 <= i < |pending| && f(pending[i]).keep == Some(k)
    decreases |pending|
  {
    if pending != [] {
      var rest := pending[1..];
      KeptEntries(rest, f);
      forall k ensures k in Kept(pending, f) <==> exists i :: 0 <= i < |pending| && f(pending[i]).keep == Some(k) {
        if k in Kept(rest, f) {
          var i :| 0 <= i < |rest| && f(rest[i]).keep == Some(k);
          assert f(pending[i + 1]).keep == Some(k);
        }
        if i :| 0 <= i < |pending| && f(pending[i]).keep == Some(k) {
          if i > 0 { assert f(rest[i - 1]).keep == Some(k); }
        }
      }
    }
  }

  // A kept entry has the rid and the ticket of the one it was.
  lemma KeptFrom(pending: seq<Entry>, f: Entry -> Verdict, j: nat) returns (i: nat)
    requires j < |Kept(pending, f)| && AllLegal(pending, f)
    ensures i < |pending| && f(pending[i]).keep == Some(Kept(pending, f)[j])
    ensures pending[i].ticket == Kept(pending, f)[j].ticket && pending[i].rid == Kept(pending, f)[j].rid
  {
    KeptEntries(pending, f);
    assert Kept(pending, f)[j] in Kept(pending, f);
    i :| 0 <= i < |pending| && f(pending[i]).keep == Some(Kept(pending, f)[j]);
    assert Legal(pending[i], f(pending[i]));
  }

  lemma {:induction false} KeptDistinct(pending: seq<Entry>, f: Entry -> Verdict)
    requires OwnIds(pending) && AllLegal(pending, f)
    ensures OwnIds(Kept(pending, f))
    decreases |pending|
  {
    if pending != [] {
      var rest := pending[1..];
      KeptDistinct(rest, f);
      if f(pending[0]).keep.Some? {
        var keep, kept := f(pending[0]).keep.value, Kept(rest, f);
        assert Legal(pending[0], f(pending[0])) && Kept(pending, f) == [keep] + kept;
        forall j | 0 <= j < |kept| ensures keep.ticket != kept[j].ticket && keep.rid != kept[j].rid {
          var i := KeptFrom(rest, f, j);
          assert rest[i] == pending[i + 1];
        }
      } else {
        assert Kept(pending, f) == Kept(rest, f);
      }
    }
  }

  lemma KeptWasPending(pending: seq<Entry>, f: Entry -> Verdict, t: nat)
    requires AllLegal(pending, f)
    ensures IsPending(Kept(pending, f), t) ==> IsPending(pending, t)
  {
    if IsPending(Kept(pending, f), t) {
      var j :| 0 <= j < |Kept(pending, f)| && Kept(pending, f)[j].ticket == t;
      var i := KeptFrom(pending, f, j);
    }
  }

  lemma KeptIsPending(pending: seq<Entry>, f: Entry -> Verdict, i: nat)
    requires i < |pending| && OwnIds(pending) && AllLegal(pending, f)
    ensures IsPending(Kept(pending, f), pending[i].ticket) <==> f(pending[i]).keep.Some?
  {
    KeptEntries(pending, f);
    var kept, t := Kept(pending, f), pending[i].ticket;
    assert Legal(pending[i], f(pending[i]));
    if f(pending[i]).keep.Some? {
      var k := f(pending[i]).keep.value;
      assert k in kept;
      var j :| 0 <= j < |kept| && kept[j] == k;
      assert kept[j].ticket == t;
    }
    if IsPending(kept, t) {
      var j :| 0 <= j < |kept| && kept[j].ticket == t;
      var m := KeptFrom(pending, f, j);
      assert pending[m].ticket == t;
    }
  }

  /** A pass whose verdicts are legal keeps every promise: no reply is lost, repeated or late. */
  lemma PassKeepsTracked(pending: seq<Entry>, tickets: seq<Ticket>, f: Entry -> Verdict)
    requires Tracked(pending, tickets) && AllLegal(pending, f)
    ensures Tracked(Kept(pending, f), Marked(tickets, pending, f))
  {
    var kept, marked := Kept(pending, f), Marked(tickets, pending, f);
    MarkedTickets(tickets, pending, f);
    KeptEntries(pending, f);
    KeptDistinct(pending, f);
    forall j | 0 <= j < |kept| ensures Good(kept[j], marked) {
      assert kept[j] in kept;
      var i :| 0 <= i < |pending| && f(pending[i]).keep == Some(kept[j]);
      assert Good(pending[i], tickets) && Legal(pending[i], f(pending[i]));
    }
    forall t | 0 <= t < |tickets|
      ensures Fair(marked[t]) && (marked[t].callback ==> (IsPending(kept, t) <==> marked[t].answers == []))
    {
      TicketAfterPass(pending, tickets, f, t);
    }
  }

  lemma TicketAfterPass(pending: seq<Entry>, tickets: seq<Ticket>, f: Entry -> Verdict, t: nat)
    requires Tracked(pending, tickets) && AllLegal(pending, f) && t < |tickets|
    ensures var m := Marked(tickets, pending, f)[t];
      Fair(m) && (m.callback ==> (IsPending(Kept(pending, f), t) <==> m.answers == []))
  {
    MarkedTickets(tickets, pending, f);
    assert Fair(tickets[t]);
    if IsPending(pending, t) {
      var i :| 0 <= i < |pending| && pending[i].ticket == t;
      assert Good(pending[i], tickets) && Legal(pending[i], f(pending[i]));
      KeptIsPending(pending, f, i);
    } else {
      KeptWasPending(pending, f, t);
    }
  }

  // ---- the connection ----

  datatype Sub = Sub(encodable: bool, handlers: set<nat>)

  // The socket, the dial and the reconnect. `waiters` counts the connect callbacks waiting, `dials`
  // the dialer's answers still to come, and `sockets` are the generations given to sockets.
  datatype Link = Link(
    ws: bool, gen: nat, open: bool, dialing: bool, closed: bool, everOpened: bool, due: bool,
    waiters: nat, dials: nat, sockets: set<nat>)

  // The next rid, the pending requests, and every request so far by its ticket.
  datatype Table = Table(rid: nat, pending: seq<Entry>, tickets: seq<Ticket>)

  datatype Topics = Topics(subs: map<Topic, Sub>, handles: map<nat, Topic>, last: nat)

  datatype State = State(link: Link, table: Table, topics: Topics)

  function Initial(): State {
    State(Link(false, 0, false, false, false, false, false, 0, 0, {}), Table(1, [], []), Topics(map[], map[], 0))
  }

  function NextRid(rid: nat): nat { if rid == 0xffff_ffff then 1 else rid + 1 }

  predicate HasRid(pending: seq<Entry>, rid: nat) {
    exists i :: 0 <= i < |pending| && pending[i].rid == rid
  }

  function Find(pending: seq<Entry>, rid: nat): Option<Entry> {
    if pending == [] then None
    else if pending[0].rid == rid then Some(pending[0])
    else Find(pending[1..], rid)
  }

  // The loops over the table, each by what it does with one entry.
  function Failing(status: Status): Entry -> Verdict { (e: Entry) => Erase(Some(status)) }

  function Sent(e: Entry, gen: nat): Verdict {
    if e.frame.encodable then Verdict(Some(e.(gen := gen)), None, true, false) else Erase(Some(BadRequest))
  }

  function Sending(rid: nat, gen: nat): Entry -> Verdict {
    (e: Entry) => if e.rid == rid then Sent(e, gen) else Keep(e)
  }

  function SendingWaiting(gen: nat): Entry -> Verdict {
    (e: Entry) => if e.gen == 0 then Sent(e, gen) else Keep(e)
  }

  function Requeued(e: Entry): Verdict { Verdict(Some(e.(retried := true, gen := 0)), None, false, true) }

  function Requeueing(rid: nat): Entry -> Verdict {
    (e: Entry) => if e.rid == rid then Requeued(e) else Keep(e)
  }

  function Answering(rid: nat, status: Status): Entry -> Verdict {
    (e: Entry) => if e.rid == rid then Erase(Some(status)) else Keep(e)
  }

  function Losing(reconnect: bool, status: Status): Entry -> Verdict {
    (e: Entry) =>
      if e.gen == 0 then Keep(e)
      else if e.internal then Erase(None)
      else if reconnect && !e.retried && e.frame.kind == Call then Requeued(e)
      else Erase(Some(status))
  }

  function Expiring(now: int): Entry -> Verdict {
    (e: Entry) => if e.deadline > now then Keep(e) else Erase(Some(DeadlineExceeded))
  }

  function Passed(t: Table, f: Entry -> Verdict): Table {
    t.(pending := Kept(t.pending, f), tickets := Marked(t.tickets, t.pending, f))
  }

  function FailedAll(t: Table, status: Status): Table { Passed(t, Failing(status)) }

  function DialBegun(l: Link): Link { l.(dialing := true, dials := l.dials + 1) }

  // A new ticket; its entry is ignored when the table already holds its rid.
  function Emplaced(t: Table, frame: Frame, callback: bool, internal: bool, deadline: int): Table {
    var e := Entry(t.rid, |t.tickets|, frame, deadline, 0, false, internal);
    Table(NextRid(t.rid), if HasRid(t.pending, t.rid) then t.pending else t.pending + [e],
          t.tickets + [Ticket(frame.kind, callback, 0, false, [])])
  }

  // A connection with nothing under way dials.
  function DialledIfIdle(l: Link): Link { if !l.dialing && !l.ws then DialBegun(l) else l }

  function Requested(s: State, frame: Frame, callback: bool, internal: bool, deadline: int): State {
    if s.link.closed then
      s.(table := s.table.(tickets := s.table.tickets
           + [Ticket(frame.kind, callback, 0, false, if callback then [Unavailable] else [])]))
    else
      var t := Emplaced(s.table, frame, callback, internal, deadline);
      if s.link.ws && s.link.open then s.(table := Passed(t, Sending(s.table.rid, s.link.gen)))
      else s.(link := DialledIfIdle(s.link), table := t)
  }

  function Connected(l: Link, callback: bool): Link {
    if l.closed || (l.ws && l.open) then l
    else DialledIfIdle(if callback then l.(waiters := l.waiters + 1) else l)
  }

  function AttemptFailed(s: State, reconnect: bool): State {
    if s.link.everOpened && reconnect then s.(link := s.link.(due := true))
    else s.(link := s.link.(waiters := 0), table := FailedAll(s.table, Unavailable))
  }

  /** The dialer answered; `found` is false for no host, a refused gateway or no transport. */
  function EndpointGot(s: State, found: bool, reconnect: bool): State
    requires s.link.dials > 0
  {
    var l := s.link.(dials := s.link.dials - 1);
    if l.closed then s.(link := l)
    else if !found then AttemptFailed(s.(link := l.(dialing := false)), reconnect)
    else s.(link := l.(gen := l.gen + 1, ws := true, open := false, sockets := l.sockets + {l.gen + 1}))
  }

  function RenewalOf(subs: map<Topic, Sub>, topic: Topic): Frame {
    Frame(Subscribe, topic, topic in subs && subs[topic].encodable)
  }

  function Renewed(t: Table, subs: map<Topic, Sub>, topics: seq<Topic>, deadline: int): Table
    decreases |topics|
  {
    if topics == [] then t
    else Renewed(Emplaced(t, RenewalOf(subs, topics[0]), false, true, deadline), subs, topics[1..], deadline)
  }

  function Opened(s: State, g: nat, topics: seq<Topic>, deadline: int): State {
    if g != s.link.gen || s.link.closed then s
    else
      var t := if s.link.everOpened then Renewed(s.table, s.topics.subs, topics, deadline) else s.table;
      s.(link := s.link.(open := true, dialing := false, everOpened := true, waiters := 0),
         table := Passed(t, SendingWaiting(s.link.gen)))
  }

  predicate NeverOpened(l: Link) { !l.everOpened && !l.open }

  function LinkLost(l: Link, reconnect: bool): Link {
    l.(ws := false, open := false, dialing := false, gen := l.gen + 1,
       waiters := if NeverOpened(l) then 0 else l.waiters, due := l.due || (reconnect && !NeverOpened(l)))
  }

  /** The socket is gone: its generation ends, and what waits for connects and requests is settled. */
  function Lost(s: State, status: Status, reconnect: bool): State {
    var t := Passed(s.table, Losing(reconnect, status));
    s.(link := LinkLost(s.link, reconnect),
       table := if NeverOpened(s.link) || !reconnect then FailedAll(t, status) else t)
  }

  function ReplyGot(s: State, g: nat, rid: nat, status: Status, reconnect: bool): State {
    var found := Find(s.table.pending, rid);
    if s.link.closed || found.None? then s
    else if status == Moved && found.value.frame.kind == Call && !found.value.retried && reconnect then
      var t := Passed(s.table, Requeueing(rid));
      if g == s.link.gen && s.link.ws then Lost(s.(table := t), Unavailable, reconnect)
      else if s.link.ws && s.link.open then s.(table := Passed(t, Sending(rid, s.link.gen)))
      else s.(table := t)
    else s.(table := Passed(s.table, Answering(rid, status)))
  }

  function Ended(s: State, status: Status): State {
    s.(link := s.link.(closed := true, ws := false, open := false, waiters := 0), table := FailedAll(s.table, status))
  }

  function Ticked(s: State, now: int, reached: bool): State {
    if s.link.closed then s
    else
      var l := s.link;
      s.(link := if l.due && reached && !l.ws && !l.dialing then DialBegun(l.(due := false)) else l,
         table := Passed(s.table, Expiring(now)))
  }

  function HandlerAdded(t: Topics, topic: Topic, encodable: bool): Topics {
    var h := t.last + 1;
    var held := if topic in t.subs then t.subs[topic].handlers else {};
    Topics(t.subs[topic := Sub(encodable, held + {h})], t.handles[h := topic], h)
  }

  function HandlerDropped(t: Topics, h: nat): Topics {
    if h !in t.handles then t
    else
      var topic := t.handles[h];
      var left := if topic in t.subs then t.subs[topic].handlers - {h} else {};
      Topics(if topic !in t.subs then t.subs
             else if left == {} then t.subs - {topic}
             else t.subs[topic := t.subs[topic].(handlers := left)],
             t.handles - {h}, t.last)
  }

  // ---- runs ----

  datatype Event =
    | Connect(callback: bool)
    | Request(frame: Frame, callback: bool, internal: bool, deadline: int)
    | AddHandler(topic: Topic, encodable: bool)
    | DropHandler(handle: nat)
    | Endpoint(found: bool)
    | Open(g: nat, topics: seq<Topic>, deadline: int)
    | Reply(g: nat, rid: nat, status: Status)
    | Lose(g: nat, status: Status)
    | AccessEnded(g: nat)
    | Tick(now: int, reached: bool)
    | Close

  // The topics are those held, each once.
  predicate Lists(topics: seq<Topic>, subs: map<Topic, Sub>) {
    Distinct(topics) && (forall k :: k in topics ==> k in subs) && (forall k :: k in subs ==> k in topics)
  }

  // Each rid the renewal hands out is free when its turn comes.
  predicate RidsFree(t: Table, subs: map<Topic, Sub>, topics: seq<Topic>, deadline: int)
    decreases |topics|
  {
    topics == [] ||
    (!HasRid(t.pending, t.rid)
     && RidsFree(Emplaced(t, RenewalOf(subs, topics[0]), false, true, deadline), subs, topics[1..], deadline))
  }

  /**
   Sockets only speak once created, the dialer answers each dial once, a rid is not reused while
   pending, and the only request nobody waits on is the unsubscribe of a dropped topic.
   */
  predicate Possible(s: State, ev: Event) {
    match ev
    case Request(frame, callback, internal, _) =>
      (internal ==> frame.kind == Unsubscribe && !callback) && (s.link.closed || !HasRid(s.table.pending, s.table.rid))
    case Endpoint(_) => s.link.dials > 0
    case Open(g, topics, deadline) =>
      g in s.link.sockets && Lists(topics, s.topics.subs) && RidsFree(s.table, s.topics.subs, topics, deadline)
    case Reply(g, _, _) => g in s.link.sockets
    case Lose(g, _) => g in s.link.sockets
    case AccessEnded(g) => g in s.link.sockets
    case _ => true
  }

  /** `reconnect` is the connection's option. */
  function Next(s: State, ev: Event, reconnect: bool): State
    requires Possible(s, ev)
  {
    match ev
    case Connect(callback) => s.(link := Connected(s.link, callback))
    case Request(frame, callback, internal, deadline) => Requested(s, frame, callback, internal, deadline)
    case AddHandler(topic, encodable) => s.(topics := HandlerAdded(s.topics, topic, encodable))
    case DropHandler(h) => s.(topics := HandlerDropped(s.topics, h))
    case Endpoint(found) => EndpointGot(s, found, reconnect)
    case Open(g, topics, deadline) => Opened(s, g, topics, deadline)
    case Reply(g, rid, status) => ReplyGot(s, g, rid, status, reconnect)
    case Lose(g, status) => if g != s.link.gen || s.link.closed then s else Lost(s, status, reconnect)
    case AccessEnded(g) =>
      if g != s.link.gen || s.link.closed then s
      else
        var e := Ended(s, Denied);
        e.(link := e.link.(dialing := false, due := false))
    case Tick(now, reached) => Ticked(s, now, reached)
    case Close => if s.link.closed then s else Ended(s, Unavailable)
  }

  predicate IsRun(s: State, evs: seq<Event>, reconnect: bool)
    decreases |evs|
  {
    evs == [] || (Possible(s, evs[0]) && IsRun(Next(s, evs[0], reconnect), evs[1..], reconnect))
  }

  function After(s: State, evs: seq<Event>, reconnect: bool): State
    requires IsRun(s, evs, reconnect)
    decreases |evs|
  {
    if evs == [] then s else After(Next(s, evs[0], reconnect), evs[1..], reconnect)
  }

  // The flags and the generations agree.
  ghost predicate FlagsAgree(l: Link, reconnect: bool) {
    && (l.open ==> l.ws && l.everOpened)
    && (l.ws ==> !l.closed && l.gen > 0 && l.gen in l.sockets)
    && (forall g :: g in l.sockets ==> g <= l.gen)
    && (!l.closed && !l.ws ==> l.gen !in l.sockets)
    && l.dials + (if l.ws then 1 else 0) <= 1
    && (!l.closed ==> (l.dialing <==> l.dials == 1 || (l.ws && !l.open)))
    && (l.due ==> l.everOpened && reconnect)
  }

  predicate ConnectsWait(l: Link, reconnect: bool) {
    l.waiters > 0 ==> !l.closed && !l.open && (reconnect ==> l.dialing || l.due)
  }

  // Every request waits on something: on the open connection, or for one that is under way.
  predicate WaitsAgree(l: Link, pending: seq<Entry>) {
    && (forall i :: 0 <= i < |pending| ==> pending[i].gen == if l.open then l.gen else 0)
    && (pending != [] ==> !l.closed && (l.open || l.dialing || l.due))
  }

  // A renewal is pending only while the connection it was made for is open.
  predicate IsRenewal(e: Entry) { e.internal && e.frame.kind == Subscribe }

  predicate RenewalsAgree(l: Link, pending: seq<Entry>) {
    !l.open ==> forall i :: 0 <= i < |pending| ==> !IsRenewal(pending[i])
  }

  // Handles and topics name each other, and no topic is held by nobody.
  ghost predicate SubsAgree(t: Topics) {
    && (forall h :: h in t.handles ==> h <= t.last && t.handles[h] in t.subs && h in t.subs[t.handles[h]].handlers)
    && (forall k :: k in t.subs ==> t.subs[k].handlers != {})
    && (forall k, h :: k in t.subs && h in t.subs[k].handlers ==> h in t.handles && t.handles[h] == k)
  }

  ghost predicate Inv(s: State, reconnect: bool) {
    && Tracked(s.table.pending, s.table.tickets) && FlagsAgree(s.link, reconnect) && ConnectsWait(s.link, reconnect)
    && WaitsAgree(s.link, s.table.pending) && RenewalsAgree(s.link, s.table.pending) && SubsAgree(s.topics)
  }

  // ---- the steps keep it ----

  // What the kept entries were says what they are.
  lemma KeptAre(pending: seq<Entry>, f: Entry -> Verdict, g: nat, renewals: bool)
    requires forall i :: 0 <= i < |pending| && f(pending[i]).keep.Some? ==>
      f(pending[i]).keep.value.gen == g && (IsRenewal(f(pending[i]).keep.value) ==> renewals)
    ensures forall j :: 0 <= j < |Kept(pending, f)| ==>
      Kept(pending, f)[j].gen == g && (IsRenewal(Kept(pending, f)[j]) ==> renewals)
  {
    KeptEntries(pending, f);
    var kept := Kept(pending, f);
    forall j | 0 <= j < |kept| ensures kept[j].gen == g && (IsRenewal(kept[j]) ==> renewals) {
      assert kept[j] in kept;
    }
  }

  lemma {:induction false} FailingKeepsNone(pending: seq<Entry>, status: Status)
    ensures Kept(pending, Failing(status)) == []
    decreases |pending|
  {
    if pending != [] { FailingKeepsNone(pending[1..], status); }
  }

  lemma FailAllEmpties(t: Table, status: Status)
    requires Tracked(t.pending, t.tickets)
    ensures var t' := FailedAll(t, status); t'.pending == [] && Tracked(t'.pending, t'.tickets)
  {
    FailingKeepsNone(t.pending, status);
    PassKeepsTracked(t.pending, t.tickets, Failing(status));
  }

  lemma AppendIsPending(pending: seq<Entry>, e: Entry, t: nat)
    ensures IsPending(pending + [e], t) <==> IsPending(pending, t) || e.ticket == t
  {
    assert (pending + [e])[|pending|] == e;
    if IsPending(pending, t) {
      var i :| 0 <= i < |pending| && pending[i].ticket == t;
      assert (pending + [e])[i].ticket == t;
    }
  }

  lemma EmplaceKeepsTracked(t: Table, frame: Frame, callback: bool, internal: bool, deadline: int)
    requires Tracked(t.pending, t.tickets) && !(callback && internal)
    requires callback ==> !HasRid(t.pending, t.rid)
    ensures var t' := Emplaced(t, frame, callback, internal, deadline); Tracked(t'.pending, t'.tickets)
  {
    var n, tickets := |t.tickets|, t.tickets + [Ticket(frame.kind, callback, 0, false, [])];
    var e := Entry(t.rid, n, frame, deadline, 0, false, internal);
    assert forall i :: 0 <= i < |t.pending| ==> Good(t.pending[i], t.tickets) && Good(t.pending[i], tickets);
    assert !IsPending(t.pending, n);
    if !HasRid(t.pending, t.rid) {
      assert Good(e, tickets) && OwnIds(t.pending + [e]);
      forall k | 0 <= k <= n ensures IsPending(t.pending + [e], k) <==> IsPending(t.pending, k) || k == n {
        AppendIsPending(t.pending, e, k);
      }
    }
  }

  lemma RequestKeepsInv(s: State, frame: Frame, callback: bool, internal: bool, deadline: int, reconnect: bool)
    requires Inv(s, reconnect) && Possible(s, Request(frame, callback, internal, deadline))
    ensures Inv(Requested(s, frame, callback, internal, deadline), reconnect)
  {
    if s.link.closed {
      ClosedRequestKeepsTracked(s.table, frame, callback);
    } else {
      EmplaceKeepsTracked(s.table, frame, callback, internal, deadline);
      if s.link.open { SentRequestKeepsTable(s, frame, callback, internal, deadline, reconnect); }
    }
  }

  lemma ClosedRequestKeepsTracked(t: Table, frame: Frame, callback: bool)
    requires Tracked(t.pending, t.tickets)
    ensures Tracked(t.pending,
      t.tickets + [Ticket(frame.kind, callback, 0, false, if callback then [Unavailable] else [])])
  {
    var tickets := t.tickets + [Ticket(frame.kind, callback, 0, false, if callback then [Unavailable] else [])];
    assert tickets[..|t.tickets|] == t.tickets;
    assert forall i :: 0 <= i < |t.pending| ==> Good(t.pending[i], t.tickets);
    assert !IsPending(t.pending, |t.tickets|);
  }

  lemma SentRequestKeepsTable(s: State, frame: Frame, callback: bool, internal: bool, deadline: int, reconnect: bool)
    requires Inv(s, reconnect) && Possible(s, Request(frame, callback, internal, deadline)) && s.link.open
    ensures var s' := Requested(s, frame, callback, internal, deadline);
      Tracked(s'.table.pending, s'.table.tickets) && WaitsAgree(s.link, s'.table.pending)
  {
    var t, f := Emplaced(s.table, frame, callback, internal, deadline), Sending(s.table.rid, s.link.gen);
    EmplaceKeepsTracked(s.table, frame, callback, internal, deadline);
    assert AllLegal(t.pending, f);
    PassKeepsTracked(t.pending, t.tickets, f);
    KeptAre(t.pending, f, s.link.gen, true);
  }

  lemma EndpointKeepsInv(s: State, found: bool, reconnect: bool)
    requires Inv(s, reconnect) && s.link.dials > 0
    ensures Inv(EndpointGot(s, found, reconnect), reconnect)
  {
    if !s.link.closed && !found && !(s.link.everOpened && reconnect) { FailAllEmpties(s.table, Unavailable); }
  }

  // Entries that are new to the table are renewals that wait with generation 0.
  ghost predicate OnlyAddsRenewals(before: seq<Entry>, after: seq<Entry>) {
    forall i :: 0 <= i < |after| ==> (after[i].gen == 0 && IsRenewal(after[i])) || after[i] in before
  }

  lemma AddsTwice(a: seq<Entry>, b: seq<Entry>, c: seq<Entry>)
    requires OnlyAddsRenewals(a, b) && OnlyAddsRenewals(b, c)
    ensures OnlyAddsRenewals(a, c)
  {
    forall i | 0 <= i < |c| && c[i] in b ensures (c[i].gen == 0 && IsRenewal(c[i])) || c[i] in a {
      var j :| 0 <= j < |b| && b[j] == c[i];
    }
  }

  lemma {:induction false} RenewKeepsTracked(t: Table, subs: map<Topic, Sub>, topics: seq<Topic>, deadline: int)
    requires Tracked(t.pending, t.tickets)
    ensures var t' := Renewed(t, subs, topics, deadline);
      Tracked(t'.pending, t'.tickets) && OnlyAddsRenewals(t.pending, t'.pending)
    decreases |topics|
  {
    if topics != [] {
      var t1 := Emplaced(t, RenewalOf(subs, topics[0]), false, true, deadline);
      EmplaceKeepsTracked(t, RenewalOf(subs, topics[0]), false, true, deadline);
      RenewKeepsTracked(t1, subs, topics[1..], deadline);
      AddsTwice(t.pending, t1.pending, Renewed(t1, subs, topics[1..], deadline).pending);
    }
  }

  // The pass of onOpen sends what waits; what is already on this generation stays so.
  lemma SendWaitingKeepsTracked(pending: seq<Entry>, tickets: seq<Ticket>, gen: nat)
    requires Tracked(pending, tickets) && gen > 0
    requires forall i :: 0 <= i < |pending| ==> pending[i].gen == 0 || pending[i].gen == gen
    ensures var kept := Kept(pending, SendingWaiting(gen));
      && Tracked(kept, Marked(tickets, pending, SendingWaiting(gen)))
      && forall j :: 0 <= j < |kept| ==> kept[j].gen == gen
  {
    assert AllLegal(pending, SendingWaiting(gen));
    PassKeepsTracked(pending, tickets, SendingWaiting(gen));
    KeptAre(pending, SendingWaiting(gen), gen, true);
  }

  lemma OpenKeepsInv(s: State, g: nat, topics: seq<Topic>, deadline: int, reconnect: bool)
    requires Inv(s, reconnect) && g in s.link.sockets
    ensures Inv(Opened(s, g, topics, deadline), reconnect)
  {
    if g == s.link.gen && !s.link.closed {
      var t := if s.link.everOpened then Renewed(s.table, s.topics.subs, topics, deadline) else s.table;
      RenewKeepsTracked(s.table, s.topics.subs, topics, deadline);
      SendWaitingKeepsTracked(t.pending, t.tickets, s.link.gen);
    }
  }

  lemma LosingKeepsTracked(pending: seq<Entry>, tickets: seq<Ticket>, reconnect: bool, status: Status)
    requires Tracked(pending, tickets)
    requires forall i :: 0 <= i < |pending| && IsRenewal(pending[i]) ==> pending[i].gen > 0
    ensures var kept := Kept(pending, Losing(reconnect, status));
      && Tracked(kept, Marked(tickets, pending, Losing(reconnect, status)))
      && forall j :: 0 <= j < |kept| ==> kept[j].gen == 0 && !IsRenewal(kept[j])
  {
    var f := Losing(reconnect, status);
    assert AllLegal(pending, f);
    PassKeepsTracked(pending, tickets, f);
    KeptAre(pending, f, 0, false);
  }

  // A loss leaves every request waiting with generation 0, whatever it found in the table.
  lemma LostKeepsInv(s: State, status: Status, reconnect: bool)
    requires Tracked(s.table.pending, s.table.tickets) && FlagsAgree(s.link, reconnect)
      && SubsAgree(s.topics) && s.link.ws
    requires s.link.waiters > 0 ==> !s.link.open
    requires forall i :: 0 <= i < |s.table.pending| && IsRenewal(s.table.pending[i]) ==> s.table.pending[i].gen > 0
    ensures Inv(Lost(s, status, reconnect), reconnect)
  {
    LosingKeepsTracked(s.table.pending, s.table.tickets, reconnect, status);
    if (!s.link.everOpened && !s.link.open) || !reconnect {
      FailAllEmpties(Passed(s.table, Losing(reconnect, status)), status);
    }
  }

  lemma {:induction false} FindFinds(pending: seq<Entry>, rid: nat)
    requires OwnIds(pending)
    ensures forall i :: 0 <= i < |pending| && pending[i].rid == rid ==> Find(pending, rid) == Some(pending[i])
    decreases |pending|
  {
    if pending != [] {
      FindFinds(pending[1..], rid);
      forall i | 0 <= i < |pending| && pending[i].rid == rid ensures Find(pending, rid) == Some(pending[i]) {
        if i > 0 { assert pending[1..][i - 1] == pending[i]; }
      }
    }
  }

  // The moved call waits again, and the others are as they were.
  lemma RequeueKeepsTracked(t: Table, rid: nat)
    requires Tracked(t.pending, t.tickets)
    requires var found := Find(t.pending, rid); found.Some? && found.value.frame.kind == Call && !found.value.retried
    ensures var t' := Passed(t, Requeueing(rid));
      && Tracked(t'.pending, t'.tickets)
      && forall j :: 0 <= j < |t'.pending| ==>
           if t'.pending[j].rid == rid then t'.pending[j].gen == 0 && !IsRenewal(t'.pending[j])
           else t'.pending[j] in t.pending
  {
    var f, t' := Requeueing(rid), Passed(t, Requeueing(rid));
    FindFinds(t.pending, rid);
    assert AllLegal(t.pending, f);
    PassKeepsTracked(t.pending, t.tickets, f);
    forall j | 0 <= j < |t'.pending|
      ensures if t'.pending[j].rid == rid then t'.pending[j].gen == 0 && !IsRenewal(t'.pending[j])
        else t'.pending[j] in t.pending
    {
      var i := KeptFrom(t.pending, f, j);
    }
  }

  lemma MovedKeepsInv(s: State, g: nat, rid: nat, reconnect: bool)
    requires Inv(s, reconnect) && !s.link.closed && reconnect
    requires var found := Find(s.table.pending, rid);
      found.Some? && found.value.frame.kind == Call && !found.value.retried
    ensures Inv(ReplyGot(s, g, rid, Moved, reconnect), reconnect)
  {
    var t := Passed(s.table, Requeueing(rid));
    RequeueKeepsTracked(s.table, rid);
    if g == s.link.gen && s.link.ws {
      LostKeepsInv(s.(table := t), Unavailable, reconnect);
    } else if s.link.open {
      assert AllLegal(t.pending, Sending(rid, s.link.gen));
      PassKeepsTracked(t.pending, t.tickets, Sending(rid, s.link.gen));
      KeptAre(t.pending, Sending(rid, s.link.gen), s.link.gen, true);
    }
  }

  // A pass that only erases or keeps entries as they are.
  lemma ErasingKeepsTable(l: Link, t: Table, f: Entry -> Verdict)
    requires Tracked(t.pending, t.tickets) && WaitsAgree(l, t.pending) && RenewalsAgree(l, t.pending)
    requires forall i :: 0 <= i < |t.pending| ==>
      f(t.pending[i]) == Keep(t.pending[i])
        || (f(t.pending[i]).reply.Some? && f(t.pending[i]) == Erase(f(t.pending[i]).reply))
    ensures var t' := Passed(t, f);
      Tracked(t'.pending, t'.tickets) && WaitsAgree(l, t'.pending) && RenewalsAgree(l, t'.pending)
  {
    assert AllLegal(t.pending, f);
    PassKeepsTracked(t.pending, t.tickets, f);
    KeptAre(t.pending, f, if l.open then l.gen else 0, l.open);
  }

  lemma ReplyKeepsInv(s: State, g: nat, rid: nat, status: Status, reconnect: bool)
    requires Inv(s, reconnect)
    ensures Inv(ReplyGot(s, g, rid, status, reconnect), reconnect)
  {
    var found := Find(s.table.pending, rid);
    if !s.link.closed && found.Some? {
      if status == Moved && found.value.frame.kind == Call && !found.value.retried && reconnect {
        MovedKeepsInv(s, g, rid, reconnect);
      } else {
        ErasingKeepsTable(s.link, s.table, Answering(rid, status));
      }
    }
  }

  lemma LoseKeepsInv(s: State, g: nat, status: Status, reconnect: bool)
    requires Inv(s, reconnect) && g in s.link.sockets
    ensures Inv(Next(s, Lose(g, status), reconnect), reconnect)
  {
    if g == s.link.gen && !s.link.closed { LostKeepsInv(s, status, reconnect); }
  }

  lemma EndKeepsInv(s: State, ev: Event, reconnect: bool)
    requires Inv(s, reconnect) && Possible(s, ev) && (ev.Close? || ev.AccessEnded?)
    ensures Inv(Next(s, ev, reconnect), reconnect)
  {
    FailAllEmpties(s.table, if ev.Close? then Unavailable else Denied);
  }

  lemma AddKeepsSubs(t: Topics, topic: Topic, encodable: bool)
    requires SubsAgree(t)
    ensures SubsAgree(HandlerAdded(t, topic, encodable))
  {
    var t', h' := HandlerAdded(t, topic, encodable), t.last + 1;
    assert h' !in t.handles;
    forall k, h | k in t'.subs && h in t'.subs[k].handlers ensures h in t'.handles && t'.handles[h] == k {
      assert h == h' || h in t.subs[k].handlers;
    }
  }

  lemma DropKeepsSubs(t: Topics, h: nat)
    requires SubsAgree(t)
    ensures SubsAgree(HandlerDropped(t, h))
  {
    if h in t.handles {
      var t', topic := HandlerDropped(t, h), t.handles[h];
      var left := t.subs[topic].handlers - {h};
      assert t'.handles == t.handles - {h};
      forall x | x in t'.handles ensures t'.handles[x] in t'.subs && x in t'.subs[t'.handles[x]].handlers {
        assert x in t.handles && x != h;
        if t.handles[x] == topic { assert x in left; }
      }
      forall k, x | k in t'.subs && x in t'.subs[k].handlers ensures x in t'.handles && t'.handles[x] == k {
        assert x in t.subs[k].handlers && x != h;
      }
    }
  }

  lemma TickKeepsInv(s: State, now: int, reached: bool, reconnect: bool)
    requires Inv(s, reconnect)
    ensures Inv(Ticked(s, now, reached), reconnect)
  {
    ErasingKeepsTable(s.link, s.table, Expiring(now));
  }

  lemma StepKeepsInv(s: State, ev: Event, reconnect: bool)
    requires Inv(s, reconnect) && Possible(s, ev)
    ensures Inv(Next(s, ev, reconnect), reconnect)
  {
    match ev
    case Connect(callback) => ConnectKeepsInv(s, callback, reconnect);
    case Request(frame, callback, internal, deadline) =>
      RequestKeepsInv(s, frame, callback, internal, deadline, reconnect);
    case AddHandler(topic, encodable) => AddKeepsSubs(s.topics, topic, encodable);
    case DropHandler(h) => DropKeepsSubs(s.topics, h);
    case Endpoint(found) => EndpointKeepsInv(s, found, reconnect);
    case Open(g, topics, deadline) => OpenKeepsInv(s, g, topics, deadline, reconnect);
    case Reply(g, rid, status) => ReplyKeepsInv(s, g, rid, status, reconnect);
    case Lose(g, status) => LoseKeepsInv(s, g, status, reconnect);
    case Tick(now, reached) => TickKeepsInv(s, now, reached, reconnect);
    case AccessEnded(_) => EndKeepsInv(s, ev, reconnect);
    case Close => EndKeepsInv(s, ev, reconnect);
  }

  lemma ConnectKeepsInv(s: State, callback: bool, reconnect: bool)
    requires Inv(s, reconnect)
    ensures Inv(s.(link := Connected(s.link, callback)), reconnect)
  {
  }

  lemma {:induction false} RunKeepsInv(s: State, evs: seq<Event>, reconnect: bool)
    requires Inv(s, reconnect) && IsRun(s, evs, reconnect)
    ensures Inv(After(s, evs, reconnect), reconnect)
    decreases |evs|
  {
    if evs != [] {
      StepKeepsInv(s, evs[0], reconnect);
      RunKeepsInv(Next(s, evs[0], reconnect), evs[1..], reconnect);
    }
  }

  // ---- what holds in every run ----

  /**
   In every run: while open, every pending request was queued on the current generation, and while
   not, every one waits with generation 0; a pending request has an open connection, a dial or a
   due reconnect to wait for; none is pending once closed; and there is at most one dial or live
   socket at a time.
   */
  lemma PendingRequestsAreUnderWay(reconnect: bool, evs: seq<Event>)
    requires IsRun(Initial(), evs, reconnect)
    ensures var s := After(Initial(), evs, reconnect);
      && (forall e :: e in s.table.pending ==> e.gen == if s.link.open then s.link.gen else 0)
      && (s.table.pending != [] ==> s.link.open || s.link.dialing || s.link.due)
      && (s.link.closed ==> s.table.pending == [])
      && s.link.dials + (if s.link.ws then 1 else 0) <= 1
  {
    RunKeepsInv(Initial(), evs, reconnect);
  }

  /**
   In every run: a request with a callback is pending or answered and never both, and answered at
   most once; a frame is queued at most once, except a call's after a Moved or a loss, at most twice.
   */
  lemma EveryRequestIsAnsweredOnce(reconnect: bool, evs: seq<Event>, t: nat)
    requires IsRun(Initial(), evs, reconnect) && t < |After(Initial(), evs, reconnect).table.tickets|
    ensures var s := After(Initial(), evs, reconnect);
      && (s.table.tickets[t].callback ==>
        |s.table.tickets[t].answers| == if IsPending(s.table.pending, t) then 0 else 1)
      && s.table.tickets[t].sends <= (if s.table.tickets[t].requeued then 2 else 1)
      && (s.table.tickets[t].requeued ==> s.table.tickets[t].kind == Call)
  {
    RunKeepsInv(Initial(), evs, reconnect);
    assert Fair(After(Initial(), evs, reconnect).table.tickets[t]);
  }

  /**
   In every run the handles and the topics name each other: a handle's topic is held and has that
   handler, a topic's handlers have live handles on it, and no topic is held by nobody.
   */
  lemma TopicsAreHeldByHandlers(reconnect: bool, evs: seq<Event>, h: nat, topic: Topic)
    requires IsRun(Initial(), evs, reconnect)
    ensures var t := After(Initial(), evs, reconnect).topics;
      && ((h in t.handles && t.handles[h] == topic) <==> (topic in t.subs && h in t.subs[topic].handlers))
      && (topic in t.subs ==> t.subs[topic].handlers != {})
  {
    RunKeepsInv(Initial(), evs, reconnect);
  }

  // ---- renewal ----

  // A subscribe for `topic` that can be sent; a renewal, or anyone's.
  predicate Subscribes(e: Entry, topic: Topic, renewal: bool) {
    e.frame == Frame(Subscribe, topic, true) && (renewal ==> e.internal)
  }

  // How many are pending.
  function Subscribing(pending: seq<Entry>, topic: Topic, renewal: bool): nat {
    if pending == [] then 0
    else One(Subscribes(pending[0], topic, renewal)) + Subscribing(pending[1..], topic, renewal)
  }

  lemma {:induction false} SubscribingMore(pending: seq<Entry>, e: Entry, topic: Topic, renewal: bool)
    ensures Subscribing(pending + [e], topic, renewal) ==
      Subscribing(pending, topic, renewal) + One(Subscribes(e, topic, renewal))
    decreases |pending|
  {
    if pending != [] {
      SubscribingMore(pending[1..], e, topic, renewal);
      assert (pending + [e])[1..] == pending[1..] + [e];
    }
  }

  lemma {:induction false} RenewAddsOne(t: Table,
      subs: map<Topic, Sub>, topics: seq<Topic>, deadline: int, k: Topic, renewal: bool)
    requires Distinct(topics) && RidsFree(t, subs, topics, deadline)
    ensures Subscribing(Renewed(t, subs, topics, deadline).pending, k, renewal) ==
      Subscribing(t.pending, k, renewal) + One(k in topics && RenewalOf(subs, k).encodable)
    decreases |topics|
  {
    if topics != [] {
      var t1 := Emplaced(t, RenewalOf(subs, topics[0]), false, true, deadline);
      assert Distinct(topics[1..]);
      RenewAddsOne(t1, subs, topics[1..], deadline, k, renewal);
      SubscribingMore(t.pending, t1.pending[|t.pending|], k, renewal);
      FirstIsElsewhere(topics);
      assert k in topics <==> k == topics[0] || k in topics[1..];
    }
  }

  // Sending what waits loses none that can be sent.
  lemma {:induction false} SendingKeepsSubscribing(pending: seq<Entry>, gen: nat, k: Topic, renewal: bool)
    ensures Subscribing(Kept(pending, SendingWaiting(gen)), k, renewal) == Subscribing(pending, k, renewal)
    decreases |pending|
  {
    if pending != [] {
      var f := SendingWaiting(gen);
      var rest := Kept(pending[1..], f);
      SendingKeepsSubscribing(pending[1..], gen, k, renewal);
      if f(pending[0]).keep.Some? {
        assert ([f(pending[0]).keep.value] + rest)[1..] == rest;
      } else {
        assert Kept(pending, f) == rest;
      }
    }
  }

  lemma {:induction false} NoRenewals(pending: seq<Entry>, k: Topic)
    requires forall i :: 0 <= i < |pending| ==> !IsRenewal(pending[i])
    ensures Subscribing(pending, k, true) == 0
    decreases |pending|
  {
    if pending != [] { NoRenewals(pending[1..], k); }
  }

  /**
   When a connection opens again, each topic held has exactly one renewal pending, on the new
   generation, unless its name cannot be encoded; no other topic has one. Callers' own subscribes
   that waited are pending besides, so a topic has exactly one subscribe exactly if none waited.
   */
  lemma EachTopicIsRenewedOnce(reconnect: bool, evs: seq<Event>, g: nat, topics: seq<Topic>, deadline: int, k: Topic)
    requires IsRun(Initial(), evs, reconnect)
    requires var s := After(Initial(), evs, reconnect);
      Possible(s, Open(g, topics, deadline)) && g == s.link.gen && s.link.everOpened && !s.link.open && !s.link.closed
    ensures var s := After(Initial(), evs, reconnect);
      var after := Opened(s, g, topics, deadline).table.pending;
      var one := One(k in s.topics.subs && s.topics.subs[k].encodable);
      && Subscribing(after, k, true) == one
      && Subscribing(after, k, false) == one + Subscribing(s.table.pending, k, false)
      && (forall e :: e in after ==> e.gen == g)
  {
    RunKeepsInv(Initial(), evs, reconnect);
    var s := After(Initial(), evs, reconnect);
    OpenKeepsInv(s, g, topics, deadline, reconnect);
    RenewsOnce(s.table, s.topics.subs, topics, deadline, s.link.gen, k);
  }

  lemma RenewsOnce(t: Table, subs: map<Topic, Sub>, topics: seq<Topic>, deadline: int, gen: nat, k: Topic)
    requires Lists(topics, subs) && RidsFree(t, subs, topics, deadline)
    requires forall i :: 0 <= i < |t.pending| ==> !IsRenewal(t.pending[i])
    ensures var after := Kept(Renewed(t, subs, topics, deadline).pending, SendingWaiting(gen));
      var one := One(k in subs && subs[k].encodable);
      Subscribing(after, k, true) == one && Subscribing(after, k, false) == one + Subscribing(t.pending, k, false)
  {
    NoRenewals(t.pending, k);
    RenewAddsOne(t, subs, topics, deadline, k, true);
    RenewAddsOne(t, subs, topics, deadline, k, false);
    SendingKeepsSubscribing(Renewed(t, subs, topics, deadline).pending, gen, k, true);
    SendingKeepsSubscribing(Renewed(t, subs, topics, deadline).pending, gen, k, false);
  }

  // ---- where a request or a connect is lost ----

  /**
   The assumption on rids is exactly what tracking needs: a request made on an open or opening
   connection is pending or answered afterwards if and only if its rid was not pending before.
   */
  lemma RequestIsTrackedIffRidIsFree(s: State, frame: Frame, deadline: int, reconnect: bool)
    requires Inv(s, reconnect) && !s.link.closed
    ensures var s' := Requested(s, frame, true, false, deadline);
      var t := |s.table.tickets|;
      (IsPending(s'.table.pending, t) || s'.table.tickets[t].answers != []) <==> !HasRid(s.table.pending, s.table.rid)
  {
    if HasRid(s.table.pending, s.table.rid) {
      TakenRidLosesRequest(s, frame, deadline, reconnect);
    } else {
      RequestKeepsInv(s, frame, true, false, deadline, reconnect);
      RequestAddsTicket(s, frame, deadline, reconnect);
    }
  }

  lemma RequestAddsTicket(s: State, frame: Frame, deadline: int, reconnect: bool)
    requires Inv(s, reconnect) && !s.link.closed && !HasRid(s.table.pending, s.table.rid)
    ensures var s' := Requested(s, frame, true, false, deadline);
      |s'.table.tickets| == |s.table.tickets| + 1 && s'.table.tickets[|s.table.tickets|].callback
  {
    var t, n := Emplaced(s.table, frame, true, false, deadline), |s.table.tickets|;
    EmplaceKeepsTracked(s.table, frame, true, false, deadline);
    MarkedTickets(t.tickets, t.pending, Sending(s.table.rid, s.link.gen));
    assert t.pending[|s.table.pending|].ticket == n;
  }

  lemma TakenRidLosesRequest(s: State, frame: Frame, deadline: int, reconnect: bool)
    requires Inv(s, reconnect) && !s.link.closed && HasRid(s.table.pending, s.table.rid)
    ensures var s' := Requested(s, frame, true, false, deadline);
      var t := |s.table.tickets|;
      |s'.table.tickets| == t + 1 && !IsPending(s'.table.pending, t) && s'.table.tickets[t].answers == []
  {
    var t, n := Emplaced(s.table, frame, true, false, deadline), |s.table.tickets|;
    assert forall i :: 0 <= i < |t.pending| ==> Good(t.pending[i], s.table.tickets);
    assert !IsPending(t.pending, n);
    MarkedTickets(t.tickets, t.pending, Sending(s.table.rid, s.link.gen));
    SendingAddsNone(t.pending, s.table.rid, s.link.gen, n);
  }

  lemma SendingAddsNone(pending: seq<Entry>, rid: nat, gen: nat, t: nat)
    ensures IsPending(Kept(pending, Sending(rid, gen)), t) ==> IsPending(pending, t)
  {
    KeptEntries(pending, Sending(rid, gen));
    var kept := Kept(pending, Sending(rid, gen));
    if IsPending(kept, t) {
      var j :| 0 <= j < |kept| && kept[j].ticket == t;
      assert kept[j] in kept;
    }
  }

  /** And the request that has the rid is sent again, whatever it is and however often it was sent before. */
  lemma TakenRidSendsAgain(s: State, frame: Frame, deadline: int, reconnect: bool, i: nat)
    requires Inv(s, reconnect) && s.link.open && i < |s.table.pending|
    requires s.table.pending[i].rid == s.table.rid && s.table.pending[i].frame.encodable
    ensures var s' := Requested(s, frame, true, false, deadline);
      var t := s.table.pending[i].ticket;
      t < |s.table.tickets| < |s'.table.tickets| && s'.table.tickets[t].sends == s.table.tickets[t].sends + 1
  {
    var t := Emplaced(s.table, frame, true, false, deadline);
    assert HasRid(s.table.pending, s.table.rid) && Good(s.table.pending[i], s.table.tickets);
    MarkedTickets(t.tickets, t.pending, Sending(s.table.rid, s.link.gen));
  }

  // A connect callback waits, and nothing is under way that could answer it.
  predicate Hangs(l: Link) { l.waiters > 0 && !l.open && !l.dialing && !l.due }

  /** With reconnect on, no connect callback ever waits for nothing. */
  lemma ConnectsNeverHangWithReconnect(evs: seq<Event>)
    requires IsRun(Initial(), evs, true)
    ensures !Hangs(After(Initial(), evs, true).link)
  {
    RunKeepsInv(Initial(), evs, true);
  }

  /**
   With reconnect off, one begins to wait for nothing exactly when a socket made after the first
   open is lost, for whatever reason, before it opened.
   */
  lemma ConnectBeginsToHangIff(s: State, ev: Event, reconnect: bool)
    requires Inv(s, reconnect) && Possible(s, ev) && !Hangs(s.link)
    ensures Hangs(Next(s, ev, reconnect).link) <==>
      !reconnect && s.link.ws && s.link.everOpened && s.link.waiters > 0 && ev.Lose? && ev.g == s.link.gen
  {
    match ev
    case Reply(g, rid, status) => ReplyKeepsConnects(s, g, rid, status, reconnect);
    case _ =>
  }

  lemma ReplyKeepsConnects(s: State, g: nat, rid: nat, status: Status, reconnect: bool)
    requires Inv(s, reconnect)
    ensures Hangs(ReplyGot(s, g, rid, status, reconnect).link) <==> Hangs(s.link)
  {
  }

  ghost predicate Reaches(s: State, s': State, reconnect: bool) {
    exists evs :: IsRun(s, evs, reconnect) && After(s, evs, reconnect) == s'
  }

  lemma ReachesItself(s: State, reconnect: bool)
    ensures Reaches(s, s, reconnect)
  {
    assert IsRun(s, [], reconnect) && After(s, [], reconnect) == s;
  }

  lemma ReachesByStep(s: State, ev: Event, s': State, reconnect: bool)
    requires Possible(s, ev) && Reaches(Next(s, ev, reconnect), s', reconnect)
    ensures Reaches(s, s', reconnect)
  {
    var evs :| IsRun(Next(s, ev, reconnect), evs, reconnect) && After(Next(s, ev, reconnect), evs, reconnect) == s';
    var all := [ev] + evs;
    assert all[0] == ev && all[1..] == evs;
    assert IsRun(s, all, reconnect) && After(s, all, reconnect) == s';
  }

  // A connection with no request and no handler.
  function Bare(l: Link): State { Initial().(link := l) }

  // From idle to a socket that is not yet open, by a connect.
  lemma ReachesBySocket(l: Link, s': State, reconnect: bool)
    requires !l.closed && !l.ws && !l.open && !l.dialing && l.dials == 0
    requires var g := l.gen + 1;
      Reaches(Bare(l.(waiters := l.waiters + 1, dialing := true, ws := true, gen := g, sockets := l.sockets + {g})), s',
              reconnect)
    ensures Reaches(Bare(l), s', reconnect)
  {
    var dialing := Bare(DialBegun(l.(waiters := l.waiters + 1)));
    ReachesByStep(dialing, Endpoint(true), s', reconnect);
    ReachesByStep(Bare(l), Connect(true), s', reconnect);
  }

  // The first connection, open.
  const OPEN := Link(true, 1, true, false, false, true, false, 0, 0, {1})

  lemma ReachesOpen(s': State, reconnect: bool)
    requires Reaches(Bare(OPEN), s', reconnect)
    ensures Reaches(Initial(), s', reconnect)
  {
    var first := Initial().link.(waiters := 1, dialing := true, ws := true, gen := 1, sockets := {} + {1});
    assert Next(Bare(first), Open(1, [], 0), reconnect) == Bare(OPEN);
    ReachesByStep(Bare(first), Open(1, [], 0), s', reconnect);
    ReachesBySocket(Initial().link, s', reconnect);
  }

  lemma ReachesByLoss(l: Link, s': State, reconnect: bool)
    requires l.ws && l.everOpened && !l.closed && l.gen in l.sockets
      && Reaches(Bare(LinkLost(l, reconnect)), s', reconnect)
    ensures Reaches(Bare(l), s', reconnect)
  {
    assert Next(Bare(l), Lose(l.gen, Unavailable), reconnect) == Bare(LinkLost(l, reconnect));
    ReachesByStep(Bare(l), Lose(l.gen, Unavailable), s', reconnect);
  }

  /** It does happen: a second connect whose socket fails before it opens is never answered. */
  lemma WithoutReconnectAConnectCanHang()
    ensures exists s :: (
      && Reaches(Initial(), s, false) && Hangs(s.link) && !s.link.closed && !s.link.ws && s.link.dials == 0)
  {
    var idle := LinkLost(OPEN, false);
    var second := idle.(waiters := 1, dialing := true, ws := true, gen := 3, sockets := {1} + {3});
    var hung := Bare(LinkLost(second, false));
    ReachesItself(hung, false);
    ReachesByLoss(second, hung, false);
    ReachesBySocket(idle, hung, false);
    ReachesByLoss(OPEN, hung, false);
    ReachesOpen(hung, false);
  }

  // Disconnected, with one handler on `topic` whose first subscribe waits for the dial.
  function Resubscribing(topic: Topic): State {
    var frame := Frame(Subscribe, topic, true);
    State(DialBegun(LinkLost(OPEN, true)),
          Table(2, [Entry(1, 0, frame, 0, 0, false, false)], [Ticket(Subscribe, true, 0, false, [])]),
          Topics(map[topic := Sub(true, {1})], map[1 := topic], 1))
  }

  lemma ReachesResubscribing(topic: Topic, s': State)
    requires Reaches(Resubscribing(topic), s', true)
    ensures Reaches(Initial(), s', true)
  {
    var lost := Bare(LinkLost(OPEN, true));
    var handled := lost.(topics := Topics(map[topic := Sub(true, {1})], map[1 := topic], 1));
    var request := Request(Frame(Subscribe, topic, true), true, false, 0);
    assert Next(handled, request, true) == Resubscribing(topic);
    ReachesByStep(handled, request, s', true);
    assert {} + {1} == {1};
    assert Next(lost, AddHandler(topic, true), true) == handled;
    ReachesByStep(lost, AddHandler(topic, true), s', true);
    ReachesByLoss(OPEN, s', true);
    ReachesOpen(s', true);
  }

  /** A topic can have two: a first subscribe made while disconnected is sent, and its topic is renewed. */
  lemma ATopicCanBeSubscribedTwice(topic: Topic)
    ensures exists s :: Reaches(Initial(), s, true) && s.link.open && Subscribing(s.table.pending, topic, false) == 2
  {
    var waiting := Resubscribing(topic);
    var socket := EndpointGot(waiting, true, true);
    var event := Open(socket.link.gen, [topic], 0);
    var opened' := Next(socket, event, true);
    assert RidsFree(socket.table, socket.topics.subs, [topic], 0) by {
      var t := Emplaced(socket.table, RenewalOf(socket.topics.subs, topic), false, true, 0);
      assert [topic][1..] == [] && RidsFree(t, socket.topics.subs, [], 0);
    }
    ReachesItself(opened', true);
    ReachesByStep(socket, event, opened', true);
    ReachesByStep(waiting, Endpoint(true), opened', true);
    ReachesResubscribing(topic, opened');
    RenewsOnce(socket.table, socket.topics.subs, [topic], 0, socket.link.gen, topic);
    assert Subscribing(socket.table.pending[1..], topic, false) == 0;
  }

  // ---- a rid comes round ----

  const PING := Frame(Ping, "", true)

  // The first ping is still unanswered on an open connection, whatever else was asked and answered.
  const UNANSWERED := Entry(1, 0, PING, 0, 1, false, false)

  predicate OnePing(s: State) {
    && s.link == OPEN && s.table.pending == [UNANSWERED]
    && s.table.tickets != [] && s.table.tickets[0] == Ticket(Ping, true, 1, false, [])
  }

  // One more ping is asked and answered.
  lemma PingAndPong(s: State, reconnect: bool) returns (s': State)
    requires OnePing(s) && 2 <= s.table.rid <= 0xffff_ffff
    ensures OnePing(s') && s'.table.rid == NextRid(s.table.rid)
    ensures forall t :: Reaches(s', t, reconnect) ==> Reaches(s, t, reconnect)
  {
    var rid, n := s.table.rid, |s.table.tickets|;
    var request, reply := Request(PING, true, false, 0), Reply(1, rid, Ok);
    var asked := Next(s, request, reconnect);
    PingIsSent(s, reconnect);
    s' := Next(asked, reply, reconnect);
    PingIsAnswered(asked, rid, reconnect);
    forall t | Reaches(s', t, reconnect) ensures Reaches(s, t, reconnect) {
      ReachesByStep(asked, reply, t, reconnect);
      ReachesByStep(s, request, t, reconnect);
    }
  }

  lemma PingIsSent(s: State, reconnect: bool)
    requires OnePing(s) && 2 <= s.table.rid
    ensures var s' := Requested(s, PING, true, false, 0);
      && Possible(s, Request(PING, true, false, 0))
      && s'.link == OPEN && s'.table.rid == NextRid(s.table.rid)
      && s'.table.pending == [UNANSWERED, Entry(s.table.rid, |s.table.tickets|, PING, 0, 1, false, false)]
      && |s'.table.tickets| == |s.table.tickets| + 1 && s'.table.tickets[0] == s.table.tickets[0]
  {
    var t, f := Emplaced(s.table, PING, true, false, 0), Sending(s.table.rid, 1);
    var e := Entry(s.table.rid, |s.table.tickets|, PING, 0, 0, false, false);
    assert t.pending == [UNANSWERED, e] && t.pending[1..] == [e] && [e][1..] == [];
    assert Kept([e], f) == [e.(gen := 1)];
    MarkedTickets(t.tickets, t.pending, f);
    assert t.pending[0] == UNANSWERED && t.tickets[0] == Updated(t.tickets[0], f(UNANSWERED));
  }

  lemma PingIsAnswered(s: State, rid: nat, reconnect: bool)
    requires s.link == OPEN && rid >= 2 && |s.table.tickets| > 1
      && s.table.tickets[0] == Ticket(Ping, true, 1, false, [])
    requires s.table.pending == [UNANSWERED, Entry(rid, |s.table.tickets| - 1, PING, 0, 1, false, false)]
    ensures var s' := ReplyGot(s, 1, rid, Ok, reconnect); OnePing(s') && s'.table.rid == s.table.rid
  {
    var e, f := s.table.pending[1], Answering(rid, Ok);
    assert s.table.pending[1..] == [e] && [e][1..] == [];
    assert Find([e], rid) == Some(e);
    assert Kept([e], f) == [];
    MarkedTickets(s.table.tickets, s.table.pending, f);
    assert s.table.pending[0] == UNANSWERED && s.table.tickets[0] == Updated(s.table.tickets[0], f(UNANSWERED));
  }

  lemma {:induction false} RidComesRound(s: State, reconnect: bool) returns (s': State)
    requires OnePing(s) && 2 <= s.table.rid <= 0xffff_ffff
    ensures OnePing(s') && s'.table.rid == 1 && Reaches(s, s', reconnect)
    decreases 0xffff_ffff - s.table.rid
  {
    var next := PingAndPong(s, reconnect);
    if next.table.rid == 1 {
      s' := next;
      ReachesItself(s', reconnect);
    } else {
      s' := RidComesRound(next, reconnect);
    }
  }

  /**
   A rid can be pending when it is handed out again, after all the others were. The request made
   then is lost, and the one that has the rid is queued a second time with no loss and no Moved.
   */
  lemma ARidCanComeRound(reconnect: bool)
    ensures exists s :: (
      && Reaches(Initial(), s, reconnect) && s.link.open && HasRid(s.table.pending, s.table.rid)
      && var t, n := Requested(s, PING, true, false, 0).table, |s.table.tickets|;
         && |t.tickets| == n + 1 && n > 0
         && t.tickets[0].sends == 2 && !t.tickets[0].requeued
         && !IsPending(t.pending, n) && t.tickets[n].answers == [])
  {
    var first := State(OPEN, Table(2, [UNANSWERED], [Ticket(Ping, true, 1, false, [])]), Topics(map[], map[], 0));
    var e := UNANSWERED.(gen := 0);
    assert Kept([e], Sending(1, 1)) == [UNANSWERED];
    assert Next(Bare(OPEN), Request(PING, true, false, 0), reconnect) == first;
    var s := RidComesRound(first, reconnect);
    ReachesByStep(Bare(OPEN), Request(PING, true, false, 0), s, reconnect);
    ReachesOpen(s, reconnect);
    assert s.table.pending[0].rid == 1;
    var t, f := Emplaced(s.table, PING, true, false, 0), Sending(1, 1);
    assert t.pending == [UNANSWERED] && [UNANSWERED][1..] == [];
    assert Requested(s, PING, true, false, 0).table.pending == [UNANSWERED];
  }

  // ---- the handler code ----

  /** One loop over the pending table: the entries left, and the tickets with what was sent and answered. */
  method Sweep(pending: seq<Entry>, tickets: seq<Ticket>, f: Entry -> Verdict)
    returns (kept: seq<Entry>, marked: seq<Ticket>)
    ensures kept == Kept(pending, f) && marked == Marked(tickets, pending, f)
  {
    kept, marked := [], tickets;
    for i := 0 to |pending|
      invariant kept + Kept(pending[i..], f) == Kept(pending, f)
      invariant Marked(marked, pending[i..], f) == Marked(tickets, pending, f)
    {
      PassStep(marked, pending, f, i, kept);
      var v, t := f(pending[i]), pending[i].ticket;
      if v.keep.Some? {
        kept := kept + [v.keep.value];
      }
      if t < |marked| {
        marked := marked[t := Updated(marked[t], v)];
      }
    }
  }

  lemma {:induction false} FindIffHasRid(pending: seq<Entry>, rid: nat)
    ensures Find(pending, rid).Some? <==> HasRid(pending, rid)
    decreases |pending|
  {
    if pending != [] {
      var rest := pending[1..];
      FindIffHasRid(rest, rid);
      if HasRid(rest, rid) {
        var i :| 0 <= i < |rest| && rest[i].rid == rid;
        assert pending[i + 1].rid == rid;
      }
      if HasRid(pending, rid) {
        var i :| 0 <= i < |pending| && pending[i].rid == rid;
        if i > 0 { assert rest[i - 1].rid == rid; }
      }
    }
  }

  /** After a loss every request pending waits for the next connection, and none does without reconnect. */
  lemma LostSettles(s: State, status: Status, reconnect: bool)
    requires Inv(s, reconnect) && s.link.ws
    ensures var t := Lost(s, status, reconnect).table;
      (forall i :: 0 <= i < |t.pending| ==> t.pending[i].gen == 0) && (!reconnect ==> t.pending == [])
  {
    LostKeepsInv(s, status, reconnect);
    if !reconnect { FailingKeepsNone(Kept(s.table.pending, Losing(reconnect, status)), status); }
  }

  /** The handlers that go through the table. */
  class ExecConnection {
    const reconnect: bool
    var link: Link
    var topics: Topics
    var rid: nat
    var pending: seq<Entry>
    var tickets: seq<Ticket>

    ghost function View(): State
      reads this
    {
      State(link, Table(rid, pending, tickets), topics)
    }

    constructor (reconnect: bool)
      ensures View() == Initial() && this.reconnect == reconnect
    {
      this.reconnect := reconnect;
      link := Link(false, 0, false, false, false, false, false, 0, 0, {});
      rid, pending, tickets, topics := 1, [], [], Topics(map[], map[], 0);
    }

    method Pass(f: Entry -> Verdict)
      modifies this`pending, this`tickets
      ensures pending == Kept(old(pending), f) && tickets == Marked(old(tickets), old(pending), f)
    {
      pending, tickets := Sweep(pending, tickets, f);
    }

    method Emplace(frame: Frame, callback: bool, internal: bool, deadline: int)
      modifies this`rid, this`pending, this`tickets
      ensures View().table == Emplaced(old(View()).table, frame, callback, internal, deadline)
    {
      FindIffHasRid(pending, rid);
      if Find(pending, rid).None? {
        pending := pending + [Entry(rid, |tickets|, frame, deadline, 0, false, internal)];
      }
      tickets := tickets + [Ticket(frame.kind, callback, 0, false, [])];
      rid := if rid == 0xffff_ffff then 1 else rid + 1;
    }

    method Renew(held: seq<Topic>, deadline: int)
      modifies this`rid, this`pending, this`tickets
      ensures View().table == Renewed(old(View()).table, topics.subs, held, deadline)
    {
      for i := 0 to |held|
        invariant Renewed(View().table, topics.subs, held[i..], deadline)
          == Renewed(old(View()).table, topics.subs, held, deadline)
      {
        assert held[i..][1..] == held[i + 1..];
        var encodable := held[i] in topics.subs && topics.subs[held[i]].encodable;
        Emplace(Frame(Subscribe, held[i], encodable), false, true, deadline);
      }
    }

    /** Afterwards every request pending is on the generation that opened. */
    method OnOpen(g: nat, held: seq<Topic>, deadline: int)
      requires Inv(View(), reconnect) && g in link.sockets
      modifies this
      ensures Inv(View(), reconnect) && View() == Opened(old(View()), g, held, deadline)
      ensures g == link.gen && !link.closed ==> link.open && forall i :: 0 <= i < |pending| ==> pending[i].gen == g
    {
      OpenKeepsInv(View(), g, held, deadline, reconnect);
      if g != link.gen || link.closed {
        return;
      }
      var again := link.everOpened;
      link := link.(open := true, dialing := false, everOpened := true, waiters := 0);
      if again {
        Renew(held, deadline);
      }
      Pass(SendingWaiting(link.gen));
    }

    /** What this leaves is in LostSettles. */
    method LoseLocked(status: Status)
      modifies this`link, this`pending, this`tickets
      ensures View() == Lost(old(View()), status, reconnect)
    {
      var first := NeverOpened(link);
      link := LinkLost(link, reconnect);
      Pass(Losing(reconnect, status));
      if first || !reconnect {
        Pass(Failing(status));
      }
    }

    /** Afterwards nothing is pending, now or later. */
    method Close()
      requires Inv(View(), reconnect)
      modifies this
      ensures Inv(View(), reconnect) && link.closed && pending == []
      ensures View() == Next(old(View()), Event.Close, reconnect)
    {
      EndKeepsInv(View(), Event.Close, reconnect);
      if !link.closed {
        link := link.(closed := true, ws := false, open := false, waiters := 0);
        Pass(Failing(Unavailable));
      }
    }

    /** Afterwards nothing pending is past its deadline; `reached` says whether the reconnect time has come. */
    method TimerTick(now: int, reached: bool)
      requires Inv(View(), reconnect)
      modifies this
      ensures Inv(View(), reconnect) && View() == Ticked(old(View()), now, reached)
      ensures forall i :: 0 <= i < |pending| ==> pending[i].deadline > now
    {
      TickKeepsInv(View(), now, reached, reconnect);
      if link.closed {
        return;
      }
      KeptEntries(pending, Expiring(now));
      Pass(Expiring(now));
      assert forall i :: 0 <= i < |pending| ==> pending[i] in pending;
      if link.due && reached && !link.ws && !link.dialing {
        link := DialBegun(link.(due := false));
      }
    }
  }
}
