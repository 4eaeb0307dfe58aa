/**
 The kit runtime's subscriptions (src/kit/runtime.cpp, subscribe, unsubscribe, dropPending and close):
 handles are counted per topic, a topic's last unsubscribe is parked until the budget allows it,
 and close sweeps what is left.

 Each critical section, each look at `closed` and each call of the connection is one step; between
 them any other step may come.
 */
module KitSubscriptions {
  import opened Sequences

  const LIMIT: nat := 256

  type Topic = string

  // `ch` is the connection's number for the subscription, 0 until there is one.
  datatype Handle = Handle(topic: Topic, ch: nat)

  // Where one of the connection's subscriptions is.
  datatype Place =
    | Opening(h: nat)         // opened by the job of handle `h`, not yet recorded
    | Held(h: nat)
    | Forgotten(last: bool)   // its unsubscribe took the handle out, the `last` of the topic or not
    | Looking(last: bool)     // ... and has the connection
    | Parking                 // ... found the kit open and is about to park it
    | Parked
    | Out                     // handed over to be given back, or gone with the connection

  // `entering` counts subscribes past their first look at `closed`; the jobs of the handles in
  // `goes` are to run, those in `subscribing` are past their look at `closed`.
  datatype Subs = Subs(
    counts: map<Topic, nat>, handles: map<nat, Handle>, last: nat, entering: nat, goes: set<nat>, subscribing: set<nat>)

  // The subscriptions on their way back: those in `jobs` wait for the budget, those in `running`
  // are past the look at `closed` that follows, `giving` are about to be given back and `given`
  // were, `ended` went with the connection, and `twice` were swept while running.
  datatype Back = Back(
    jobs: set<nat>, running: set<nat>, giving: multiset<nat>, given: multiset<nat>, ended: set<nat>, twice: set<nat>)

  // The subscriptions opened are 1..made.
  datatype Kit = Kit(
    closed: bool, detached: bool, swept: bool, subs: Subs, made: nat, at: map<nat, Place>, parked: seq<nat>, back: Back)

  function Initial(): Kit {
    Kit(false, false, false, Subs(map[], map[], 0, 0, {}, {}), 0, map[], [],
        Back({}, {}, multiset{}, multiset{}, {}, {}))
  }

  // ---- the steps ----

  function Entered(k: Kit): Kit { if k.closed then k else k.(subs := k.subs.(entering := k.subs.entering + 1)) }

  function Count(counts: map<Topic, nat>, topic: Topic): nat { if topic in counts then counts[topic] else 0 }

  predicate Refused(counts: map<Topic, nat>, topic: Topic) { topic !in counts && |counts| >= LIMIT }

  function Added(k: Kit, topic: Topic): Kit
    requires k.subs.entering > 0
  {
    var left := k.subs.(entering := k.subs.entering - 1);
    if Refused(k.subs.counts, topic) then k.(subs := left)
    else
      var h := k.subs.last + 1;
      k.(subs := left.(counts := k.subs.counts[topic := Count(k.subs.counts, topic) + 1], last := h,
                       handles := k.subs.handles[h := Handle(topic, 0)], goes := k.subs.goes + {h}))
  }

  /** The job looks at `closed`; it also stops without a connection or when it was answered already. */
  function Checked(k: Kit, h: nat, proceeds: bool): Kit {
    var left := k.subs.(goes := k.subs.goes - {h});
    k.(subs := if k.closed || !proceeds then left else left.(subscribing := k.subs.subscribing + {h}))
  }

  function Opened(k: Kit, h: nat): Kit {
    k.(subs := k.subs.(subscribing := k.subs.subscribing - {h}),
       made := k.made + 1, at := k.at[k.made + 1 := Opening(h)])
  }

  function HandedOver(k: Kit, ch: nat): Kit {
    k.(at := k.at[ch := Out], back := k.back.(giving := k.back.giving + multiset{ch}))
  }

  function Recorded(k: Kit, ch: nat): Kit
    requires ch in k.at && k.at[ch].Opening?
  {
    var h := k.at[ch].h;
    if h in k.subs.handles && !k.closed then
      k.(subs := k.subs.(handles := k.subs.handles[h := k.subs.handles[h].(ch := ch)]), at := k.at[ch := Held(h)])
    else HandedOver(k, ch)
  }

  function Uncounted(counts: map<Topic, nat>, topic: Topic): map<Topic, nat> {
    if topic !in counts then counts
    else if counts[topic] <= 1 then counts - {topic}
    else counts[topic := counts[topic] - 1]
  }

  function TakenOut(k: Kit, h: nat): Kit {
    if h !in k.subs.handles then k
    else
      var ch := k.subs.handles[h].ch;
      var topic := k.subs.handles[h].topic;
      var k1 := k.(subs := k.subs.(counts := Uncounted(k.subs.counts, topic), handles := k.subs.handles - {h}));
      if ch == 0 then k1 else k1.(at := k.at[ch := Forgotten(topic in k.subs.counts && k.subs.counts[topic] <= 1)])
  }

  /** Unsubscribe reads the connection: there is none once close let go of the kit's own. */
  function ConnectionRead(k: Kit, ch: nat, shared: bool): Kit
    requires ch in k.at && k.at[ch].Forgotten?
  {
    if k.detached && !shared then k.(at := k.at[ch := Out], back := k.back.(ended := k.back.ended + {ch}))
    else k.(at := k.at[ch := Looking(k.at[ch].last)])
  }

  function Looked(k: Kit, ch: nat): Kit
    requires ch in k.at && k.at[ch].Looking?
  {
    if !k.at[ch].last || k.closed then HandedOver(k, ch) else k.(at := k.at[ch := Parking])
  }

  function PutAside(k: Kit, ch: nat): Kit {
    k.(at := k.at[ch := Parked], parked := k.parked + [ch], back := k.back.(jobs := k.back.jobs + {ch}))
  }

  /** A parked subscription's turn: dropped when closed, else run if there is budget. */
  function Paced(k: Kit, ch: nat, budget: bool): Kit {
    if k.closed then k.(back := k.back.(jobs := k.back.jobs - {ch}))
    else if budget then k.(back := k.back.(jobs := k.back.jobs - {ch}, running := k.back.running + {ch}))
    else k
  }

  function Dropped(parked: seq<nat>, ch: nat): seq<nat> {
    if parked == [] then []
    else if parked[0] == ch then parked[1..]
    else [parked[0]] + Dropped(parked[1..], ch)
  }

  function Ran(k: Kit, ch: nat): Kit {
    HandedOver(k.(parked := Dropped(k.parked, ch), back := k.back.(running := k.back.running - {ch})), ch)
  }

  function GivenBack(k: Kit, ch: nat): Kit
    requires k.back.giving[ch] > 0
  {
    k.(back := k.back.(giving := k.back.giving - multiset{ch}, given := k.back.given + multiset{ch}))
  }

  function AfterSweep(p: Place): Place { if p.Held? || p.Parked? then Out else p }

  /** `held` lists the subscriptions of the handles, in the order they are visited. */
  function Swept(k: Kit, held: seq<nat>): Kit {
    k.(swept := true, subs := k.subs.(counts := map[], handles := map[]), parked := [],
       at := map ch | ch in k.at :: AfterSweep(k.at[ch]),
       back := k.back.(giving := k.back.giving + multiset(k.parked) + multiset(held),
                       twice := set ch | ch in k.back.running && ch in k.parked))
  }

  // ---- runs ----

  datatype Event =
    | Enter | Add(topic: Topic)
    | Check(h: nat, proceeds: bool) | Open(h: nat) | Record(ch: nat)
    | Forget(h: nat) | ReadConnection(ch: nat) | Look(ch: nat) | Park(ch: nat)
    | Pace(ch: nat, budget: bool) | Run(ch: nat) | Give(ch: nat)
    | Flag | Detach | Sweep(held: seq<nat>)

  predicate Is(k: Kit, ch: nat, p: Place) { ch in k.at && k.at[ch] == p }

  /** Close goes through its steps once, in order; the other steps follow from those before them. */
  predicate Possible(k: Kit, ev: Event) {
    match ev
    case Enter => true
    case Add(_) => k.subs.entering > 0
    case Check(h, _) => h in k.subs.goes
    case Open(h) => h in k.subs.subscribing
    case Record(ch) => ch in k.at && k.at[ch].Opening?
    case Forget(_) => true
    case ReadConnection(ch) => ch in k.at && k.at[ch].Forgotten?
    case Look(ch) => ch in k.at && k.at[ch].Looking?
    case Park(ch) => Is(k, ch, Parking)
    case Pace(ch, _) => ch in k.back.jobs
    case Run(ch) => ch in k.back.running
    case Give(ch) => k.back.giving[ch] > 0
    case Flag => !k.closed
    case Detach => k.closed && !k.detached
    case Sweep(held) =>
      && k.detached && !k.swept && Distinct(held)
      && (forall ch :: ch in held ==> ch in k.at && k.at[ch].Held?)
      && (forall ch :: ch in k.at && k.at[ch].Held? ==> ch in held)
  }

  function Next(k: Kit, ev: Event, shared: bool): Kit
    requires Possible(k, ev)
  {
    match ev
    case Enter => Entered(k)
    case Add(topic) => Added(k, topic)
    case Check(h, proceeds) => Checked(k, h, proceeds)
    case Open(h) => Opened(k, h)
    case Record(ch) => Recorded(k, ch)
    case Forget(h) => TakenOut(k, h)
    case ReadConnection(ch) => ConnectionRead(k, ch, shared)
    case Look(ch) => Looked(k, ch)
    case Park(ch) => PutAside(k, ch)
    case Pace(ch, budget) => Paced(k, ch, budget)
    case Run(ch) => Ran(k, ch)
    case Give(ch) => GivenBack(k, ch)
    case Flag => k.(closed := true)
    case Detach => k.(detached := true)
    case Sweep(held) => Swept(k, held)
  }

  /** `shared` if the connection was handed in and outlives the kit. */
  predicate IsRun(k: Kit, evs: seq<Event>, shared: bool)
    decreases |evs|
  {
    evs == [] || (Possible(k, evs[0]) && IsRun(Next(k, evs[0], shared), evs[1..], shared))
  }

  function After(k: Kit, evs: seq<Event>, shared: bool): Kit
    requires IsRun(k, evs, shared)
    decreases |evs|
  {
    if evs == [] then k else After(Next(k, evs[0], shared), evs[1..], shared)
  }

  // ---- what every step keeps ----

  function On(handles: map<nat, Handle>, topic: Topic): set<nat> {
    set h | h in handles && handles[h].topic == topic
  }

  ghost predicate CountsAgree(counts: map<Topic, nat>, handles: map<nat, Handle>) {
    && |counts| <= LIMIT
    && (forall t :: t in counts ==> counts[t] > 0)
    && (forall t :: Count(counts, t) == |On(handles, t)|)
  }

  // A handle still waiting for its one job has no subscription.
  predicate Waiting(handles: map<nat, Handle>, last: nat, h: nat) {
    0 < h <= last && (h in handles ==> handles[h].ch == 0)
  }

  predicate JobsAgree(handles: map<nat, Handle>, last: nat, goes: set<nat>, subscribing: set<nat>) {
    && (forall h :: h in handles ==> 0 < h <= last)
    && (forall h :: h in goes ==> Waiting(handles, last, h) && h !in subscribing)
    && (forall h :: h in subscribing ==> Waiting(handles, last, h))
  }

  predicate OpeningsAgree(at: map<nat, Place>, handles: map<nat, Handle>, last: nat,
      goes: set<nat>, subscribing: set<nat>) {
    && (forall ch :: ch in at && at[ch].Opening? ==>
         Waiting(handles, last, at[ch].h) && at[ch].h !in goes && at[ch].h !in subscribing)
    && (forall a, b :: a in at && b in at && a != b && at[a].Opening? ==> at[b] != at[a])
  }

  // The handles hold exactly the subscriptions placed there.
  predicate HandlesAgree(at: map<nat, Place>, handles: map<nat, Handle>) {
    && (forall h :: h in handles && handles[h].ch > 0 ==> handles[h].ch in at && at[handles[h].ch] == Held(h))
    && (forall ch :: ch in at && at[ch].Held? ==> at[ch].h in handles && handles[at[ch].h].ch == ch)
  }

  ghost predicate PlacesAgree(at: map<nat, Place>, made: nat, parked: seq<nat>) {
    && (forall ch :: ch in at <==> 1 <= ch <= made)
    && Distinct(parked) && (forall ch :: ch in parked <==> ch in at && at[ch] == Parked)
  }

  // How often a subscription is given back, now or soon.
  function Gives(k: Kit, ch: nat): nat {
    if !Is(k, ch, Out) || ch in k.back.ended then 0 else 1 + One(ch in k.back.twice && ch !in k.back.running)
  }

  predicate Fits(k: Kit, ch: nat) {
    && k.back.giving[ch] + k.back.given[ch] == Gives(k, ch)
    && (ch in k.back.running ==>
         ch !in k.back.jobs && if ch in k.back.twice then Is(k, ch, Out) else Is(k, ch, Parked) && !k.swept)
    && (ch in k.back.jobs ==> Is(k, ch, Parked) || (Is(k, ch, Out) && k.closed))
    && (ch in k.back.twice ==> Is(k, ch, Out) && k.swept && ch !in k.back.jobs)
    && (ch in k.back.ended ==> Is(k, ch, Out) && ch !in k.back.running && ch !in k.back.jobs && ch !in k.back.twice)
  }

  ghost predicate GivesAgree(k: Kit) { forall ch: nat :: Fits(k, ch) }

  predicate ClosingAgrees(k: Kit, shared: bool) {
    && (k.swept ==> k.detached) && (k.detached ==> k.closed)
    && (k.swept ==> forall ch :: ch in k.at ==> !k.at[ch].Held?)
    && (k.back.ended != {} ==> k.detached && !shared)
  }

  ghost predicate Inv(k: Kit, shared: bool) {
    && JobsAgree(k.subs.handles, k.subs.last, k.subs.goes, k.subs.subscribing)
    && OpeningsAgree(k.at, k.subs.handles, k.subs.last, k.subs.goes, k.subs.subscribing)
    && HandlesAgree(k.at, k.subs.handles) && PlacesAgree(k.at, k.made, k.parked)
    && GivesAgree(k) && ClosingAgrees(k, shared)
  }

  // ---- the steps keep it: counts ----

  lemma OnAdded(handles: map<nat, Handle>, h: nat, new': Handle, t: Topic)
    requires h !in handles
    ensures |On(handles[h := new'], t)| == |On(handles, t)| + One(t == new'.topic)
  {
    var on := On(handles[h := new'], t);
    if t == new'.topic {
      assert on == On(handles, t) + {h};
    } else {
      assert on == On(handles, t);
    }
  }

  lemma OnRemoved(handles: map<nat, Handle>, h: nat, t: Topic)
    requires h in handles
    ensures |On(handles - {h}, t)| + One(t == handles[h].topic) == |On(handles, t)|
  {
    var on := On(handles - {h}, t);
    if t == handles[h].topic {
      assert On(handles, t) == on + {h};
    } else {
      assert On(handles, t) == on;
    }
  }

  lemma AddKeepsCounts(counts: map<Topic, nat>, handles: map<nat, Handle>, h: nat, topic: Topic)
    requires CountsAgree(counts, handles) && h !in handles && !Refused(counts, topic)
    ensures CountsAgree(counts[topic := Count(counts, topic) + 1], handles[h := Handle(topic, 0)])
  {
    var counts', handles' := counts[topic := Count(counts, topic) + 1], handles[h := Handle(topic, 0)];
    forall t ensures Count(counts', t) == |On(handles', t)| {
      OnAdded(handles, h, Handle(topic, 0), t);
    }
    assert counts'.Keys == counts.Keys + {topic};
  }

  lemma UncountKeepsCounts(counts: map<Topic, nat>, handles: map<nat, Handle>, h: nat)
    requires CountsAgree(counts, handles) && h in handles
    ensures CountsAgree(Uncounted(counts, handles[h].topic), handles - {h})
  {
    var topic := handles[h].topic;
    var counts' := Uncounted(counts, topic);
    assert h in On(handles, topic);
    assert topic in counts;
    assert counts'.Keys <= counts.Keys;
    Fewer(counts'.Keys, counts.Keys);
    forall t ensures Count(counts', t) == |On(handles - {h}, t)| {
      OnRemoved(handles, h, t);
    }
  }

  lemma RecordKeepsCounts(counts: map<Topic, nat>, handles: map<nat, Handle>, h: nat, ch: nat)
    requires CountsAgree(counts, handles) && h in handles
    ensures CountsAgree(counts, handles[h := handles[h].(ch := ch)])
  {
    forall t ensures On(handles[h := handles[h].(ch := ch)], t) == On(handles, t) {
    }
  }

  ghost predicate Counted(k: Kit) {
    CountsAgree(k.subs.counts, k.subs.handles) && forall h :: h in k.subs.handles ==> h <= k.subs.last
  }

  lemma StepKeepsCounts(k: Kit, ev: Event, shared: bool)
    requires Counted(k) && Possible(k, ev)
    ensures Counted(Next(k, ev, shared))
  {
    if ev.Add? || ev.Record? || ev.Forget? || ev.Sweep? {
      HandlesStepKeepsCounts(k, ev, shared);
    } else {
      OtherStepsKeepHandles(k, ev, shared);
    }
  }

  lemma OtherStepsKeepHandles(k: Kit, ev: Event, shared: bool)
    requires Possible(k, ev) && !ev.Add? && !ev.Record? && !ev.Forget? && !ev.Sweep?
    ensures var k' := Next(k, ev, shared);
      k'.subs.handles == k.subs.handles && k'.subs.counts == k.subs.counts && k'.subs.last == k.subs.last
  {
  }

  lemma HandlesStepKeepsCounts(k: Kit, ev: Event, shared: bool)
    requires Counted(k) && Possible(k, ev) && (ev.Add? || ev.Record? || ev.Forget? || ev.Sweep?)
    ensures Counted(Next(k, ev, shared))
  {
    match ev
    case Add(topic) =>
      if !Refused(k.subs.counts, topic) {
        AddKeepsCounts(k.subs.counts, k.subs.handles, k.subs.last + 1, topic);
      }
    case Record(ch) =>
      var h := k.at[ch].h;
      if h in k.subs.handles { RecordKeepsCounts(k.subs.counts, k.subs.handles, h, ch); }
    case Forget(h) => if h in k.subs.handles { UncountKeepsCounts(k.subs.counts, k.subs.handles, h); }
    case Sweep(_) => assert forall t :: On(map[], t) == {};
  }

  lemma {:induction false} RunKeepsCounts(k: Kit, evs: seq<Event>, shared: bool)
    requires Counted(k) && IsRun(k, evs, shared)
    ensures Counted(After(k, evs, shared))
    decreases |evs|
  {
    if evs != [] {
      StepKeepsCounts(k, evs[0], shared);
      RunKeepsCounts(Next(k, evs[0], shared), evs[1..], shared);
    }
  }

  // ---- the steps keep it: places ----

  lemma SubsStepKeepsInv(k: Kit, subs: Subs, shared: bool)
    requires Inv(k, shared)
    requires JobsAgree(subs.handles, subs.last, subs.goes, subs.subscribing)
    requires OpeningsAgree(k.at, subs.handles, subs.last, subs.goes, subs.subscribing)
      && HandlesAgree(k.at, subs.handles)
    ensures Inv(k.(subs := subs), shared)
  {
    FitsFrame(k, k.(subs := subs));
  }

  lemma AddKeepsInv(k: Kit, topic: Topic, shared: bool)
    requires Inv(k, shared) && k.subs.entering > 0
    ensures Inv(Added(k, topic), shared)
  {
    if !Refused(k.subs.counts, topic) {
      AddKeepsJobs(k.at, k.subs.handles, k.subs.last, k.subs.goes, k.subs.subscribing, topic);
    }
    SubsStepKeepsInv(k, Added(k, topic).subs, shared);
  }

  lemma AddKeepsJobs(at: map<nat, Place>, handles: map<nat, Handle>, last: nat,
      goes: set<nat>, subscribing: set<nat>, topic: Topic)
    requires JobsAgree(handles, last, goes, subscribing) && OpeningsAgree(at, handles, last, goes, subscribing)
    requires HandlesAgree(at, handles)
    ensures var handles', goes' := handles[last + 1 := Handle(topic, 0)], goes + {last + 1};
      && JobsAgree(handles', last + 1, goes', subscribing) && OpeningsAgree(at, handles', last + 1, goes', subscribing)
      && HandlesAgree(at, handles')
  {
    var handles', goes' := handles[last + 1 := Handle(topic, 0)], goes + {last + 1};
    assert forall h :: Waiting(handles, last, h) ==> Waiting(handles', last + 1, h);
    forall ch | ch in at && at[ch].Held? ensures at[ch].h in handles' && handles'[at[ch].h].ch == ch {
      assert at[ch].h in handles;
    }
  }

  // Nothing was moved, taken or given.
  lemma FitsFrame(k: Kit, k': Kit)
    requires GivesAgree(k) && k'.at == k.at && k'.back.giving == k.back.giving && k'.back.given == k.back.given
    requires k'.back.jobs == k.back.jobs && k'.back.running == k.back.running
      && k'.back.ended == k.back.ended && k'.back.twice == k.back.twice
    requires (k.closed ==> k'.closed) && k'.swept == k.swept
    ensures GivesAgree(k')
  {
    forall ch: nat ensures Fits(k', ch) {
      assert Fits(k, ch);
    }
  }

  lemma OpenKeepsInv(k: Kit, h: nat, shared: bool)
    requires Inv(k, shared) && h in k.subs.subscribing
    ensures Inv(Opened(k, h), shared)
  {
    var k' := Opened(k, h);
    assert k.made + 1 !in k.at && Fits(k, k.made + 1);
    OpenKeepsPlaces(k.at, k.made, k.parked, k.subs.handles, k.subs.last, k.subs.goes, k.subs.subscribing, h);
    forall c: nat ensures Fits(k', c) {
      assert Fits(k, c);
    }
  }

  lemma OpenKeepsPlaces(at: map<nat, Place>, made: nat, parked: seq<nat>,
      handles: map<nat, Handle>, last: nat, goes: set<nat>, subscribing: set<nat>, h: nat)
    requires JobsAgree(handles, last, goes, subscribing) && OpeningsAgree(at, handles, last, goes, subscribing)
    requires HandlesAgree(at, handles) && PlacesAgree(at, made, parked) && h in subscribing
    ensures var at', left := at[made + 1 := Opening(h)], subscribing - {h};
      && JobsAgree(handles, last, goes, left) && OpeningsAgree(at', handles, last, goes, left)
      && HandlesAgree(at', handles) && PlacesAgree(at', made + 1, parked)
  {
    var at' := at[made + 1 := Opening(h)];
    assert made + 1 !in at;
    assert forall ch :: ch in at' <==> ch in at || ch == made + 1;
  }

  lemma CheckKeepsInv(k: Kit, h: nat, proceeds: bool, shared: bool)
    requires Inv(k, shared) && h in k.subs.goes
    ensures Inv(Checked(k, h, proceeds), shared)
  {
    FitsFrame(k, Checked(k, h, proceeds));
  }

  // A subscription moves from one place to another, where no handle and no list is involved.
  lemma MoveKeepsInv(k: Kit, k': Kit, ch: nat, shared: bool)
    requires Inv(k, shared) && ch in k.at && !k.at[ch].Held? && !k.at[ch].Parked?
    requires ch in k'.at && k'.at == k.at[ch := k'.at[ch]]
      && !k'.at[ch].Held? && !k'.at[ch].Parked? && !k'.at[ch].Opening?
    requires k' == k.(at := k'.at, back := k.back.(giving := k'.back.giving, ended := k'.back.ended))
    requires Fits(k', ch)
    requires forall c: nat :: c != ch ==>
      k'.back.giving[c] == k.back.giving[c] && (c in k'.back.ended <==> c in k.back.ended)
    requires k'.back.ended != {} ==> k.detached && !shared
    ensures Inv(k', shared)
  {
    assert forall c: nat :: Fits(k, c) ==> Fits(k', c);
  }

  lemma RecordKeepsInv(k: Kit, ch: nat, shared: bool)
    requires Inv(k, shared) && ch in k.at && k.at[ch].Opening?
    ensures Inv(Recorded(k, ch), shared)
  {
    var k', h := Recorded(k, ch), k.at[ch].h;
    assert Fits(k, ch);
    if h in k.subs.handles && !k.closed {
      assert forall c: nat :: Fits(k, c) ==> Fits(k', c);
      } else {
      MoveKeepsInv(k, k', ch, shared);
    }
  }

  lemma ForgetKeepsInv(k: Kit, h: nat, shared: bool)
    requires Inv(k, shared)
    ensures Inv(TakenOut(k, h), shared)
  {
    if h in k.subs.handles {
      if k.subs.handles[h].ch == 0 {
        ForgetEmptyKeepsInv(k, h, shared);
      } else {
        ForgetHolderKeepsInv(k, h, shared);
      }
    }
  }

  lemma ForgetEmptyKeepsInv(k: Kit, h: nat, shared: bool)
    requires Inv(k, shared) && h in k.subs.handles && k.subs.handles[h].ch == 0
    ensures Inv(TakenOut(k, h), shared)
  {
    ForgetKeepsJobs(k.at, k.subs.handles, k.subs.last, k.subs.goes, k.subs.subscribing, h, k.at);
    FitsFrame(k, TakenOut(k, h));
    EmptyLeaves(k.at, k.subs.handles, h);
  }

  lemma ForgetHolderKeepsInv(k: Kit, h: nat, shared: bool)
    requires Inv(k, shared) && h in k.subs.handles && k.subs.handles[h].ch > 0
    ensures Inv(TakenOut(k, h), shared)
  {
    var k' := TakenOut(k, h);
    ForgetKeepsJobs(k.at, k.subs.handles, k.subs.last, k.subs.goes, k.subs.subscribing, h, k'.at);
    ForgetKeepsGives(k, h, shared);
    LeaveKeepsPlaces(k.at, k.made, k.parked, k.subs.handles, h, k'.at[k.subs.handles[h].ch].last);
  }

  lemma ForgetKeepsGives(k: Kit, h: nat, shared: bool)
    requires Inv(k, shared) && h in k.subs.handles && k.subs.handles[h].ch > 0
    ensures GivesAgree(TakenOut(k, h))
  {
    forall c: nat ensures Fits(TakenOut(k, h), c) {
      assert Fits(k, c);
    }
  }

  lemma ForgetKeepsJobs(at: map<nat, Place>, handles: map<nat, Handle>, last: nat,
      goes: set<nat>, subscribing: set<nat>, h: nat, at': map<nat, Place>)
    requires JobsAgree(handles, last, goes, subscribing) && OpeningsAgree(at, handles, last, goes, subscribing)
    requires at'.Keys == at.Keys && forall ch :: ch in at ==> at'[ch] == at[ch] || at'[ch].Forgotten?
    ensures JobsAgree(handles - {h}, last, goes, subscribing)
      && OpeningsAgree(at', handles - {h}, last, goes, subscribing)
  {
    assert forall g :: Waiting(handles, last, g) ==> Waiting(handles - {h}, last, g);
  }

  lemma EmptyLeaves(at: map<nat, Place>, handles: map<nat, Handle>, h: nat)
    requires HandlesAgree(at, handles) && h in handles && handles[h].ch == 0
    requires forall ch :: ch in at ==> ch > 0
    ensures HandlesAgree(at, handles - {h})
  {
    forall c | c in at && at[c].Held? ensures at[c].h in handles - {h} && (handles - {h})[at[c].h].ch == c {
      assert handles[at[c].h].ch == c;
    }
  }

  lemma LeaveKeepsPlaces(at: map<nat, Place>, made: nat, parked: seq<nat>,
      handles: map<nat, Handle>, h: nat, lastOne: bool)
    requires HandlesAgree(at, handles) && PlacesAgree(at, made, parked) && h in handles && handles[h].ch > 0
    ensures var at' := at[handles[h].ch := Forgotten(lastOne)];
      HandlesAgree(at', handles - {h}) && PlacesAgree(at', made, parked)
  {
    var ch, handles' := handles[h].ch, handles - {h};
    assert at[ch] == Held(h);
    forall g | g in handles' && handles'[g].ch > 0 ensures handles'[g].ch != ch {
      assert at[handles[g].ch] == Held(g);
    }
    forall c | c in at && c != ch && at[c].Held? ensures at[c].h in handles' && handles'[at[c].h].ch == c {
      assert at[c].h in handles && handles[at[c].h].ch == c;
    }
  }

  lemma LookKeepsInv(k: Kit, ch: nat, shared: bool)
    requires Inv(k, shared) && ch in k.at
    ensures k.at[ch].Forgotten? ==> Inv(ConnectionRead(k, ch, shared), shared)
    ensures k.at[ch].Looking? ==> Inv(Looked(k, ch), shared)
  {
    assert Fits(k, ch);
    if k.at[ch].Forgotten? { MoveKeepsInv(k, ConnectionRead(k, ch, shared), ch, shared); }
    if k.at[ch].Looking? { MoveKeepsInv(k, Looked(k, ch), ch, shared); }
  }

  lemma ParkKeepsInv(k: Kit, ch: nat, shared: bool)
    requires Inv(k, shared) && Is(k, ch, Parking)
    ensures Inv(PutAside(k, ch), shared)
  {
    var k' := PutAside(k, ch);
    assert Fits(k, ch) && ch !in k.parked;
    assert forall c: nat :: Fits(k, c) ==> Fits(k', c);
  }

  lemma PaceKeepsInv(k: Kit, ch: nat, budget: bool, shared: bool)
    requires Inv(k, shared) && ch in k.back.jobs
    ensures Inv(Paced(k, ch, budget), shared)
  {
    var k' := Paced(k, ch, budget);
    assert Fits(k, ch);
    assert forall c: nat :: Fits(k, c) ==> Fits(k', c);
  }

  lemma {:induction false} DropsOnly(parked: seq<nat>, ch: nat, c: nat)
    requires Distinct(parked)
    ensures c in Dropped(parked, ch) <==> c in parked && c != ch
    decreases |parked|
  {
    if parked != [] {
      var rest := parked[1..];
      DropsOnly(rest, ch, c);
      assert parked == [parked[0]] + rest;
      FirstIsElsewhere(parked);
    }
  }

  lemma {:induction false} DropsKeepDistinct(parked: seq<nat>, ch: nat)
    requires Distinct(parked)
    ensures Distinct(Dropped(parked, ch))
    decreases |parked|
  {
    if parked != [] && parked[0] != ch {
      var rest := Dropped(parked[1..], ch);
      DropsKeepDistinct(parked[1..], ch);
      DropsOnly(parked[1..], ch, parked[0]);
      FirstIsElsewhere(parked);
      forall j | 0 <= j < |rest| ensures rest[j] != parked[0] {
        assert rest[j] in rest;
      }
    }
  }

  lemma RunOneKeepsInv(k: Kit, ch: nat, shared: bool)
    requires Inv(k, shared) && ch in k.back.running
    ensures Inv(Ran(k, ch), shared)
  {
    var k' := Ran(k, ch);
    assert Fits(k, ch);
    DropsKeepDistinct(k.parked, ch);
    forall c: nat ensures c in k'.parked <==> Is(k', c, Parked) {
      DropsOnly(k.parked, ch, c);
    }
    assert forall c: nat :: Fits(k, c) ==> Fits(k', c);
  }

  lemma GiveKeepsInv(k: Kit, ch: nat, shared: bool)
    requires Inv(k, shared) && k.back.giving[ch] > 0
    ensures Inv(GivenBack(k, ch), shared)
  {
    var k' := GivenBack(k, ch);
    assert forall c: nat :: Fits(k, c) ==> Fits(k', c);
  }

  lemma CloseKeepsInv(k: Kit, ev: Event, shared: bool)
    requires Inv(k, shared) && Possible(k, ev) && (ev.Flag? || ev.Detach? || ev.Enter?)
    ensures Inv(Next(k, ev, shared), shared)
  {
    FitsFrame(k, Next(k, ev, shared));
  }

  lemma SweepKeepsInv(k: Kit, held: seq<nat>, shared: bool)
    requires Inv(k, shared) && Possible(k, Sweep(held))
    ensures Inv(Swept(k, held), shared)
  {
    var k' := Swept(k, held);
    forall c: nat ensures Fits(k', c) {
      SweepKeepsFits(k, held, shared, c);
    }
    assert forall h :: Waiting(k.subs.handles, k.subs.last, h) ==> Waiting(map[], k.subs.last, h);
    assert forall ch :: ch in k.at ==> k'.at[ch] == k.at[ch] || k'.at[ch] == Out;
  }

  lemma SweepKeepsFits(k: Kit, held: seq<nat>, shared: bool, c: nat)
    requires Inv(k, shared) && Possible(k, Sweep(held))
    ensures Fits(Swept(k, held), c)
  {
    assert Fits(k, c);
    CountInDistinct(k.parked, c);
    CountInDistinct(held, c);
  }

  lemma StepKeepsInv(k: Kit, ev: Event, shared: bool)
    requires Inv(k, shared) && Possible(k, ev)
    ensures Inv(Next(k, ev, shared), shared)
  {
    match ev
    case Add(topic) => AddKeepsInv(k, topic, shared);
    case Check(h, proceeds) => CheckKeepsInv(k, h, proceeds, shared);
    case Open(h) => OpenKeepsInv(k, h, shared);
    case Record(ch) => RecordKeepsInv(k, ch, shared);
    case Forget(h) => ForgetKeepsInv(k, h, shared);
    case ReadConnection(ch) => LookKeepsInv(k, ch, shared);
    case Look(ch) => LookKeepsInv(k, ch, shared);
    case Park(ch) => ParkKeepsInv(k, ch, shared);
    case Pace(ch, budget) => PaceKeepsInv(k, ch, budget, shared);
    case Run(ch) => RunOneKeepsInv(k, ch, shared);
    case Give(ch) => GiveKeepsInv(k, ch, shared);
    case Sweep(held) => SweepKeepsInv(k, held, shared);
    case _ => CloseKeepsInv(k, ev, shared);
  }

  lemma {:induction false} RunKeepsInv(k: Kit, evs: seq<Event>, shared: bool)
    requires Inv(k, shared) && IsRun(k, evs, shared)
    ensures Inv(After(k, evs, shared), shared)
    decreases |evs|
  {
    if evs != [] {
      StepKeepsInv(k, evs[0], shared);
      RunKeepsInv(Next(k, evs[0], shared), evs[1..], shared);
    }
  }

  lemma InitialInv(shared: bool)
    ensures Inv(Initial(), shared)
  {
  }

  // ---- what holds in every run ----

  /** Each topic's count is the number of live handles on it, and there are at most LIMIT topics. */
  lemma CountsAreLiveHandles(shared: bool, evs: seq<Event>, topic: Topic)
    requires IsRun(Initial(), evs, shared)
    ensures var k := After(Initial(), evs, shared);
      && Count(k.subs.counts, topic) == |On(k.subs.handles, topic)|
      && (topic in k.subs.counts <==> On(k.subs.handles, topic) != {})
      && |k.subs.counts| <= LIMIT
  {
    assert forall t :: On(map[], t) == {};
    RunKeepsCounts(Initial(), evs, shared);
    var k := After(Initial(), evs, shared);
    CountedIffOn(k.subs.counts, k.subs.handles, topic);
  }

  // With a thread: the job that opened it, or its unsubscribe.
  predicate InHand(p: Place) { p.Opening? || p.Forgotten? || p.Looking? || p.Parking? }

  /**
   Each subscription opened on the connection is in one place: with a thread, held by one handle,
   parked once, handed over to be given back, or gone with the kit's own connection. It is handed
   over at most once, except one that was swept while its parked job was running, at most twice.
   */
  lemma SubscriptionsAreInOnePlace(shared: bool, evs: seq<Event>, ch: nat)
    requires IsRun(Initial(), evs, shared)
    ensures var k := After(Initial(), evs, shared);
      var held := set h | h in k.subs.handles && k.subs.handles[h].ch == ch;
      && (ch in k.at <==> 1 <= ch <= k.made)
      && (ch in k.at ==>
            One(InHand(k.at[ch])) + |held| + multiset(k.parked)[ch]
              + One(k.back.giving[ch] + k.back.given[ch] > 0) + One(ch in k.back.ended) == 1)
      && k.back.giving[ch] + k.back.given[ch] <= (if ch in k.back.twice then 2 else 1)
      && (ch in k.back.ended ==> k.detached && !shared)
  {
    InitialInv(shared);
    RunKeepsInv(Initial(), evs, shared);
    OnePlace(After(Initial(), evs, shared), shared, ch);
  }

  lemma OnePlace(k: Kit, shared: bool, ch: nat)
    requires Inv(k, shared)
    ensures var held := set h | h in k.subs.handles && k.subs.handles[h].ch == ch;
      && (ch in k.at ==>
            One(InHand(k.at[ch])) + |held| + multiset(k.parked)[ch]
              + One(k.back.giving[ch] + k.back.given[ch] > 0) + One(ch in k.back.ended) == 1)
      && k.back.giving[ch] + k.back.given[ch] <= (if ch in k.back.twice then 2 else 1)
  {
    assert Fits(k, ch);
    CountInDistinct(k.parked, ch);
    if ch in k.at {
      var held := set h | h in k.subs.handles && k.subs.handles[h].ch == ch;
      assert held == if k.at[ch].Held? then {k.at[ch].h} else {};
    }
  }

  // Every thread has done what it was about to do.
  predicate Settled(k: Kit) {
    k.subs.subscribing == {} && k.back.running == {} && k.back.giving == multiset{}
    && forall ch :: ch in k.at ==> !InHand(k.at[ch])
  }

  predicate Aside(k: Kit, ch: nat) { Is(k, ch, Parking) || Is(k, ch, Parked) }

  // Gone with the kit's own connection, or taken out by an unsubscribe that will find none.
  predicate Forfeit(k: Kit, ch: nat, shared: bool) {
    ch in k.back.ended || (!shared && ch in k.at && k.at[ch].Forgotten?)
  }

  // After the sweep nothing new is parked but what an unsubscribe had decided to park before.
  lemma {:induction false} AfterTheSweep(k: Kit, evs: seq<Event>, shared: bool, ch: nat)
    requires Inv(k, shared) && k.swept && IsRun(k, evs, shared)
    ensures SameFate(k, After(k, evs, shared), shared, ch)
    decreases |evs|
  {
    if evs != [] {
      StepKeepsInv(k, evs[0], shared);
      StepAfterTheSweep(k, evs[0], shared, ch);
      AfterTheSweep(Next(k, evs[0], shared), evs[1..], shared, ch);
    }
  }

  // What close cannot change any more: the same before and after.
  ghost predicate SameFate(k: Kit, k': Kit, shared: bool, ch: nat) {
    && k'.swept && (ch in k'.back.twice <==> ch in k.back.twice) && (Aside(k', ch) <==> Aside(k, ch))
    && (Forfeit(k', ch, shared) <==> Forfeit(k, ch, shared))
  }

  lemma StepAfterTheSweep(k: Kit, ev: Event, shared: bool, ch: nat)
    requires Inv(k, shared) && k.swept && Possible(k, ev)
    ensures SameFate(k, Next(k, ev, shared), shared, ch)
  {
    match ev
    case Run(c) => RunAfterTheSweep(k, c, shared);
    case Open(h) => assert k.made + 1 !in k.at;
    case Forget(h) => ForgetAfterTheSweep(k, h, shared);
    case Record(c) => UnsubscribeAfterTheSweep(k, ev, shared, ch);
    case Look(c) => UnsubscribeAfterTheSweep(k, ev, shared, ch);
    case ReadConnection(c) => UnsubscribeAfterTheSweep(k, ev, shared, ch);
    case Park(c) => UnsubscribeAfterTheSweep(k, ev, shared, ch);
    case _ => QuietSteps(k, ev, shared);
  }

  lemma UnsubscribeAfterTheSweep(k: Kit, ev: Event, shared: bool, ch: nat)
    requires Inv(k, shared) && k.swept && Possible(k, ev)
    requires ev.Record? || ev.Look? || ev.ReadConnection? || ev.Park?
    ensures SameFate(k, Next(k, ev, shared), shared, ch)
  {
    match ev
    case Record(c) => assert Recorded(k, c) == HandedOver(k, c);
    case Look(c) => assert Looked(k, c) == HandedOver(k, c);
    case _ =>
  }

  lemma ForgetAfterTheSweep(k: Kit, h: nat, shared: bool)
    requires Inv(k, shared) && k.swept
    ensures TakenOut(k, h) == k.(subs := TakenOut(k, h).subs)
  {
    assert h in k.subs.handles ==> k.subs.handles[h].ch == 0;
  }

  lemma QuietSteps(k: Kit, ev: Event, shared: bool)
    requires Possible(k, ev) && k.swept
    requires ev.Enter? || ev.Add? || ev.Check? || ev.Pace? || ev.Give? || ev.Flag? || ev.Detach? || ev.Sweep?
    ensures var k' := Next(k, ev, shared);
      k'.at == k.at && k'.back.twice == k.back.twice && k'.back.ended == k.back.ended && k'.swept
  {
  }

  // A job that runs after the sweep finds its subscription handed over already.
  lemma RunAfterTheSweep(k: Kit, ch: nat, shared: bool)
    requires Inv(k, shared) && k.swept && ch in k.back.running
    ensures Is(k, ch, Out)
  {
    assert Fits(k, ch);
  }

  /**
   What close gives back, exactly. Once every thread is done, a subscription was given back once;
   but not at all if, when close swept, its unsubscribe had found the kit open and had yet to park
   it, twice if its parked job was then past its own look at `closed`, and not at all if it had
   then gone with the kit's own connection or its unsubscribe had yet to read that.
   */
  lemma CloseGivesBackOnceUnless(shared: bool, before: seq<Event>, held: seq<nat>, after: seq<Event>, ch: nat)
    requires IsRun(Initial(), before, shared) && Possible(After(Initial(), before, shared), Sweep(held))
    requires IsRun(Swept(After(Initial(), before, shared), held), after, shared)
    requires Settled(After(Swept(After(Initial(), before, shared), held), after, shared))
    ensures var k := After(Initial(), before, shared);
      var k' := After(Swept(k, held), after, shared);
      k'.back.given[ch] ==
        if !(1 <= ch <= k'.made) || Is(k, ch, Parking) || Forfeit(k, ch, shared) then 0
        else if ch in k.parked && ch in k.back.running then 2
        else 1
  {
    InitialInv(shared);
    RunKeepsInv(Initial(), before, shared);
    SweptGivesBack(After(Initial(), before, shared), held, after, shared, ch);
  }

  lemma SweptGivesBack(k: Kit, held: seq<nat>, evs: seq<Event>, shared: bool, ch: nat)
    requires Inv(k, shared) && Possible(k, Sweep(held)) && IsRun(Swept(k, held), evs, shared)
    requires Settled(After(Swept(k, held), evs, shared))
    ensures var k' := After(Swept(k, held), evs, shared);
      k'.back.given[ch] ==
        if !(1 <= ch <= k'.made) || Is(k, ch, Parking) || Forfeit(k, ch, shared) then 0
        else if ch in k.parked && ch in k.back.running then 2
        else 1
  {
    var k1 := Swept(k, held);
    var k' := After(k1, evs, shared);
    SweepKeepsInv(k, held, shared);
    RunKeepsInv(k1, evs, shared);
    AfterTheSweep(k1, evs, shared, ch);
    assert Fits(k', ch) && k'.back.giving[ch] == 0;
    assert Is(k1, ch, Parking) <==> Is(k, ch, Parking);
    assert !Is(k1, ch, Parked);
  }

  // ---- where it fails ----

  ghost predicate Reaches(k: Kit, k': Kit, shared: bool) {
    exists evs :: IsRun(k, evs, shared) && After(k, evs, shared) == k'
  }

  lemma ReachesItself(k: Kit, shared: bool)
    ensures Reaches(k, k, shared)
  {
    assert IsRun(k, [], shared) && After(k, [], shared) == k;
  }

  lemma ReachesByStep(k: Kit, ev: Event, k': Kit, shared: bool)
    requires Possible(k, ev) && Reaches(Next(k, ev, shared), k', shared)
    ensures Reaches(k, k', shared)
  {
    var evs :| IsRun(Next(k, ev, shared), evs, shared) && After(Next(k, ev, shared), evs, shared) == k';
    var all := [ev] + evs;
    assert all[0] == ev && all[1..] == evs;
    assert IsRun(k, all, shared) && After(k, all, shared) == k';
  }

  // One subscription, in one place, and nothing else going on.
  function Sole(p: Place): Kit { Initial().(subs := Initial().subs.(last := 1), made := 1, at := map[1 := p]) }

  function HeldAlone(topic: Topic): Kit {
    Sole(Held(1)).(subs := Subs(map[topic := 1], map[1 := Handle(topic, 1)], 1, 0, {}, {}))
  }

  // ... its handle still without a subscription.
  function Unopened(topic: Topic): Subs { Subs(map[topic := 1], map[1 := Handle(topic, 0)], 1, 0, {}, {}) }

  lemma ReachesSubscribing(topic: Topic, k': Kit, shared: bool)
    requires Reaches(Initial().(subs := Unopened(topic).(subscribing := {1})), k', shared)
    ensures Reaches(Initial(), k', shared)
  {
    var entered := Initial().(subs := Initial().subs.(entering := 1));
    var going := Initial().(subs := Unopened(topic).(goes := {1}));
    assert Checked(going, 1, true) == Initial().(subs := Unopened(topic).(subscribing := {1}));
    ReachesByStep(going, Check(1, true), k', shared);
    assert Added(entered, topic) == going;
    ReachesByStep(entered, Add(topic), k', shared);
    ReachesByStep(Initial(), Enter, k', shared);
  }

  lemma ReachesHeldAlone(topic: Topic, k': Kit, shared: bool)
    requires Reaches(HeldAlone(topic), k', shared)
    ensures Reaches(Initial(), k', shared)
  {
    var subscribing := Initial().(subs := Unopened(topic).(subscribing := {1}));
    var opening := Initial().(subs := Unopened(topic), made := 1, at := map[1 := Opening(1)]);
    assert Recorded(opening, 1) == HeldAlone(topic);
    ReachesByStep(opening, Record(1), k', shared);
    assert Opened(subscribing, 1) == opening;
    ReachesByStep(subscribing, Open(1), k', shared);
    ReachesSubscribing(topic, k', shared);
  }

  // The unsubscribe of the last handle has found the kit open.
  lemma ReachesParking(topic: Topic, k': Kit, shared: bool)
    requires Reaches(Sole(Parking), k', shared)
    ensures Reaches(Initial(), k', shared)
  {
    assert Looked(Sole(Looking(true)), 1) == Sole(Parking);
    ReachesByStep(Sole(Looking(true)), Look(1), k', shared);
    assert ConnectionRead(Sole(Forgotten(true)), 1, shared) == Sole(Looking(true));
    ReachesByStep(Sole(Forgotten(true)), ReadConnection(1), k', shared);
    assert TakenOut(HeldAlone(topic), 1) == Sole(Forgotten(true));
    ReachesByStep(HeldAlone(topic), Forget(1), k', shared);
    ReachesHeldAlone(topic, k', shared);
  }

  // Close from end to end.
  function Ended(k: Kit): Kit { Swept(k.(closed := true, detached := true), []) }

  lemma ReachesByClose(k: Kit, k': Kit, shared: bool)
    requires !k.closed && !k.detached && !k.swept && (forall ch :: ch in k.at ==> !k.at[ch].Held?)
    requires Reaches(Ended(k), k', shared)
    ensures Reaches(k, k', shared)
  {
    var k1 := k.(closed := true);
    ReachesByStep(k1.(detached := true), Sweep([]), k', shared);
    ReachesByStep(k1, Detach, k', shared);
    ReachesByStep(k, Flag, k', shared);
  }

  /** A connection handed in can keep a subscription for good: the unsubscribe parks it after the sweep. */
  lemma ASubscriptionCanBeLost(shared: bool)
    ensures exists k ::
      Reaches(Initial(), k, shared) && k.swept && Settled(k) && k.back.jobs == {}
      && k.made == 1 && k.back.given[1] == 0 && k.back.ended == {}
  {
    var swept := Ended(Sole(Parking));
    var parked := PutAside(swept, 1);
    var lost := Paced(parked, 1, true);
    assert swept.at == map[1 := Parking];
    ReachesItself(lost, shared);
    ReachesByStep(parked, Pace(1, true), lost, shared);
    ReachesByStep(swept, Park(1), lost, shared);
    ReachesByClose(Sole(Parking), lost, shared);
    ReachesParking("t", lost, shared);
  }

  // Both of two gives are made.
  lemma ReachesByGives(k: Kit, k': Kit, shared: bool)
    requires k.back.giving == multiset{1, 1} && k.back.given == multiset{}
    requires k' == k.(back := k.back.(giving := multiset{}, given := multiset{1, 1}))
    ensures Reaches(k, k', shared)
  {
    var once := k.(back := k.back.(giving := multiset{1}, given := multiset{1}));
    ReachesItself(k', shared);
    assert GivenBack(once, 1) == k';
    ReachesByStep(once, Give(1), k', shared);
    assert GivenBack(k, 1) == once;
    ReachesByStep(k, Give(1), k', shared);
  }

  // The parked job is past its look at `closed`.
  function Running(): Kit { Sole(Parked).(parked := [1], back := Back({}, {1}, multiset{}, multiset{}, {}, {})) }

  lemma ReachesRunning(topic: Topic, k': Kit, shared: bool)
    requires Reaches(Running(), k', shared)
    ensures Reaches(Initial(), k', shared)
  {
    var parked := Sole(Parked).(parked := [1], back := Back({1}, {}, multiset{}, multiset{}, {}, {}));
    assert Paced(parked, 1, true) == Running();
    ReachesByStep(parked, Pace(1, true), k', shared);
    assert PutAside(Sole(Parking), 1) == parked;
    ReachesByStep(Sole(Parking), Park(1), k', shared);
    ReachesParking(topic, k', shared);
  }

  lemma SweptWhileRunning()
    ensures Ended(Running()) == Sole(Out).(
      closed := true, detached := true, swept := true, back := Back({}, {1}, multiset{1}, multiset{}, {}, {1}))
  {
    var swept := Ended(Running());
    assert swept.at == map[1 := Out] && swept.back.giving == multiset{1} && swept.back.twice == {1};
  }

  /** A subscription can be given back twice: by the sweep and by its parked job. */
  lemma ASubscriptionCanBeGivenBackTwice(shared: bool)
    ensures exists k :: Reaches(Initial(), k, shared) && k.swept && Settled(k) && k.back.given[1] == 2
  {
    SweptWhileRunning();
    var swept := Ended(Running());
    var ran := swept.(back := Back({}, {}, multiset{1, 1}, multiset{}, {}, {1}));
    var done := ran.(back := Back({}, {}, multiset{}, multiset{1, 1}, {}, {1}));
    ReachesByGives(ran, done, shared);
    assert Ran(swept, 1) == ran;
    ReachesByStep(swept, Run(1), done, shared);
    ReachesByClose(Running(), done, shared);
    ReachesRunning("t", done, shared);
  }

  // ---- the code ----

  // No subscription is held twice or both held and parked.
  predicate OneEach(handles: map<nat, Handle>, last: nat, parked: seq<nat>) {
    && (forall h :: h in handles ==> 0 < h <= last) && Distinct(parked) && 0 !in parked
    && (forall g, h :: g in handles && h in handles && g != h && handles[g].ch > 0 ==> handles[g].ch != handles[h].ch)
    && (forall h :: h in handles ==> handles[h].ch !in parked)
  }

  lemma CountedIffOn(counts: map<Topic, nat>, handles: map<nat, Handle>, topic: Topic)
    requires CountsAgree(counts, handles)
    ensures topic in counts <==> On(handles, topic) != {}
  {
    assert Count(counts, topic) == |On(handles, topic)|;
  }

  lemma AddKeepsOneEach(handles: map<nat, Handle>, last: nat, parked: seq<nat>, topic: Topic)
    requires OneEach(handles, last, parked)
    ensures OneEach(handles[last + 1 := Handle(topic, 0)], last + 1, parked)
  {
  }

  /** The table of handles and the parked entries, under one lock. */
  class Table {
    var counts: map<Topic, nat>
    var handles: map<nat, Handle>
    var last: nat
    var parked: seq<nat>

    ghost predicate Valid()
      reads this
    {
      CountsAgree(counts, handles) && OneEach(handles, last, parked)
    }

    constructor ()
      ensures Valid() && handles == map[] && parked == []
    {
      counts, handles, last, parked := map[], map[], 0, [];
      assert forall t :: On(map[], t) == {};
    }

    /** A handle for the topic, 0 for one topic too many; `first` if no other handle is on the topic. */
    method Add(topic: Topic) returns (handle: nat, first: bool)
      requires Valid()
      modifies this`counts, this`handles, this`last
      ensures Valid()
      ensures handle == 0 <==> Refused(old(counts), topic)
      ensures handle > 0 ==> handle !in old(handles) && handles == old(handles)[handle := Handle(topic, 0)]
      ensures handle == 0 ==> handles == old(handles)
      ensures first <==> handle > 0 && topic !in old(counts)
    {
      if topic !in counts && |counts| >= LIMIT {
        return 0, false;
      }
      AddKeepsCounts(counts, handles, last + 1, topic);
      AddKeepsOneEach(handles, last, parked, topic);
      first, handle := topic !in counts, last + 1;
      Insert(topic, handle);
    }

    method Insert(topic: Topic, h: nat)
      modifies this`counts, this`handles, this`last
      ensures counts == old(counts)[topic := Count(old(counts), topic) + 1]
      ensures handles == old(handles)[h := Handle(topic, 0)] && last == h
    {
      counts := counts[topic := (if topic in counts then counts[topic] else 0) + 1];
      handles := handles[h := Handle(topic, 0)];
      last := h;
    }

    /** The subscription of a handle taken out, and whether it was the last on its topic. */
    method TakeOut(h: nat) returns (ch: nat, lastOne: bool)
      requires Valid() && h in handles
      modifies this`counts, this`handles
      ensures Valid() && handles == old(handles) - {h} && ch == old(handles)[h].ch
      ensures lastOne <==> On(old(handles), old(handles)[h].topic) == {h}
    {
      var topic := handles[h].topic;
      ghost var on := On(handles, topic);
      assert Count(counts, topic) == |on| && h in on;
      assert |on - {h}| == |on| - 1;
      UncountKeepsCounts(counts, handles, h);
      ch, lastOne := handles[h].ch, counts[topic] <= 1;
      counts := if lastOne then counts - {topic} else counts[topic := counts[topic] - 1];
      handles := handles - {h};
    }

    /** dropPending: the entry for `ch` goes, if there is one. */
    method DropPending(ch: nat)
      requires Valid()
      modifies this`parked
      ensures Valid() && parked == Dropped(old(parked), ch)
      ensures forall c :: c in parked <==> c in old(parked) && c != ch
    {
      forall c ensures c in Dropped(parked, ch) <==> c in parked && c != ch {
        DropsOnly(parked, ch, c);
      }
      DropsKeepDistinct(parked, ch);
      for i := 0 to |parked|
        invariant parked == old(parked)
        invariant Dropped(parked, ch) == parked[..i] + Dropped(parked[i..], ch)
      {
        DroppedFrom(parked, i, ch);
        if parked[i] == ch {
          parked := parked[..i] + parked[i + 1..];
          return;
        }
      }
      assert parked[..|parked|] + [] == parked;
    }

    /** The sweep of close: what was parked or held, each once. */
    method TakeAll() returns (all: seq<nat>)
      requires Valid()
      modifies this`counts, this`handles, this`parked
      ensures Valid() && handles == map[] && parked == [] && Distinct(all)
      ensures forall ch :: ch in all <==>
        ch in old(parked) || (ch > 0 && exists h :: h in old(handles) && old(handles)[h].ch == ch)
    {
      var held := HeldOf(handles);
      all := parked + held;
      assert forall ch :: ch in held ==> ch !in parked;
      DistinctTogether(parked, held);
      counts, handles, parked := map[], map[], [];
      assert forall t :: On(map[], t) == {};
    }
  }

  // One turn of dropPending's loop.
  lemma DroppedFrom(parked: seq<nat>, i: nat, ch: nat)
    requires i < |parked|
    ensures parked[..i] + Dropped(parked[i..], ch) ==
      if parked[i] == ch then parked[..i] + parked[i + 1..] else parked[..i + 1] + Dropped(parked[i + 1..], ch)
  {
    var rest := parked[i..];
    assert rest[1..] == parked[i + 1..] && rest[0] == parked[i];
    if parked[i] != ch {
      Reassociate(parked[..i], [parked[i]], Dropped(rest[1..], ch));
      assert parked[..i + 1] == parked[..i] + [parked[i]];
    }
  }

  method HeldOf(handles: map<nat, Handle>) returns (held: seq<nat>)
    requires forall g, h ::
      g in handles && h in handles && g != h && handles[g].ch > 0 ==> handles[g].ch != handles[h].ch
    ensures Distinct(held)
    ensures forall ch :: ch in held <==> ch > 0 && exists h :: h in handles && handles[h].ch == ch
  {
    held := [];
    var todo := handles.Keys;
    while todo != {}
      invariant todo <= handles.Keys && Distinct(held)
      invariant forall ch :: ch in held ==> ch > 0 && exists h :: h in handles && h !in todo && handles[h].ch == ch
      invariant forall h :: h in handles && h !in todo && handles[h].ch > 0 ==> handles[h].ch in held
    {
      var h :| h in todo;
      assert handles[h].ch > 0 ==> handles[h].ch !in held;
      if handles[h].ch != 0 {
        held := held + [handles[h].ch];
      }
      todo := todo - {h};
    }
  }
}
