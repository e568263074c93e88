/** Whole runs of the fair queue: conservation of requests, the fairness bound, invisible refusals. */
module RequestFairness {
  import opened Options
  import opened Sums
  import opened RequestScheduler

  /** A request arrives (`slot`: where equal tags put it in the backlog), or a serving guard is dropped. */
  datatype Event = Arrive(flow: FlowId, weight: nat, slot: nat) | Finish(flow: FlowId, actualCost: nat)

  /** The queue, the guards handed out and not yet dropped, and the history of both. */
  datatype World = World(
    q: Queue,
    guards: multiset<FlowId>,
    dispatched: seq<Request>,
    finished: seq<Finished>)

  datatype Finished = Finished(flow: FlowId, cost: nat)

  function Initial(backlogCap: nat, depth: nat): World
  {
    World(Empty(backlogCap, depth), multiset{}, [], [])
  }

  predicate Enabled(w: World, e: Event)
  {
    && w.q.backlogCap >= 1
    && match e
       case Arrive(f, weight, slot) =>
         Waits(w.q, f, weight) ==> ValidSlot(MakeRoom(w.q, f, weight).backlog, StartTag(w.q, f), slot)
       case Finish(f, _) => f in w.guards
  }

  /** The request that gets its guard in this event, if any. */
  function Starts(w: World, e: Event): Option<Request>
    requires Enabled(w, e)
  {
    match e
    case Arrive(f, weight, slot) =>
      if Rejects(w.q, f) || Waits(w.q, f, weight) then None else Some(NewRequest(w.q, f, weight))
    case Finish(_, _) =>
      if w.q.backlog == [] then None else Some(w.q.backlog[0])
  }

  function Next(w: World, e: Event): World
    requires Enabled(w, e)
  {
    var w' := match e
      case Arrive(f, weight, slot) => w.(q := Acquired(w.q, f, weight, slot))
      case Finish(f, cost) =>
        w.(q := Released(w.q, f, cost), guards := w.guards - multiset{f}, finished := w.finished + [Finished(f, cost)]);
    match Starts(w, e)
    case None => w'
    case Some(r) => w'.(guards := w'.guards + multiset{r.flow}, dispatched := w.dispatched + [r])
  }

  predicate Legal(w: World, es: seq<Event>)
    decreases |es|
  {
    es == [] || (Enabled(w, es[0]) && Legal(Next(w, es[0]), es[1..]))
  }

  function Run(w: World, es: seq<Event>): World
    requires Legal(w, es)
    decreases |es|
  {
    if es == [] then w else Run(Next(w, es[0]), es[1..])
  }

  /* ---------- what the histories say about one flow ---------- */

  function Served(rs: seq<Request>, f: FlowId): int
  {
    if rs == [] then 0
    else Served(rs[..|rs| - 1], f) + if Last(rs).flow == f then Last(rs).cost else 0
  }

  function LargestServed(rs: seq<Request>, f: FlowId): (m: int)
    ensures m >= 0
  {
    if rs == [] then 0
    else Max(LargestServed(rs[..|rs| - 1], f), if Last(rs).flow == f then Last(rs).cost else 0)
  }

  function FinishedCount(hs: seq<Finished>, f: FlowId): nat
  {
    if hs == [] then 0
    else FinishedCount(hs[..|hs| - 1], f) + if hs[|hs| - 1].flow == f then 1 else 0
  }

  function FinishedTime(hs: seq<Finished>, f: FlowId): nat
  {
    if hs == [] then 0
    else FinishedTime(hs[..|hs| - 1], f) + if hs[|hs| - 1].flow == f then hs[|hs| - 1].cost else 0
  }

  lemma {:induction false} ServedConcat(a: seq<Request>, b: seq<Request>, f: FlowId)
    ensures Served(a + b, f) == Served(a, f) + Served(b, f)
  {
    if b == [] {
      assert a + b == a;
    } else {
      assert (a + b)[..|a + b| - 1] == a + b[..|b| - 1];
      ServedConcat(a, b[..|b| - 1], f);
    }
  }

  /* ---------- invariants of every run ---------- */

  /** A flow is never further ahead of virtual time than the largest cost it has had dispatched. */
  predicate NotFarAhead(w: World, f: FlowId)
  {
    Head(w.q, f) <= w.q.virtualTime + LargestServed(w.dispatched, f)
  }

  /** One flow's counters account for each of its requests and all its time. */
  predicate Accounted(w: World, f: FlowId)
  {
    var counters := FlowOf(w.q, f).counters;
    && counters.total == counters.dropped + |Waiting(w.q.backlog, f)| + w.guards[f] + FinishedCount(w.finished, f)
    && counters.time == FinishedTime(w.finished, f)
  }

  function TotalOf(f: Flow): int { f.counters.total }
  function DroppedOf(f: Flow): int { f.counters.dropped }
  function TimeOf(f: Flow): int { f.counters.time }

  /** The global counters are the sums of the flows' counters. */
  ghost predicate SumsAgree(q: Queue)
  {
    && q.counters.total == MapSum(q.flows, TotalOf)
    && q.counters.dropped == MapSum(q.flows, DroppedOf)
    && q.counters.time == MapSum(q.flows, TimeOf)
  }

  /** And they account for every request. */
  ghost predicate GloballyAccounted(w: World)
  {
    && SumsAgree(w.q)
    && w.q.counters.total == w.q.counters.dropped + |w.q.backlog| + w.q.serving + |w.finished|
  }

  ghost predicate WorldInv(w: World)
  {
    && Inv(w.q)
    && w.q.serving == |w.guards|
    && (forall f :: NotFarAhead(w, f))
    && (forall f :: Accounted(w, f))
    && GloballyAccounted(w)
  }

  lemma {:induction false} GuardsBelongToFlows(w: World, f: FlowId)
    requires WorldInv(w) && f in w.guards
    ensures f in w.q.flows && w.q.serving >= 1
  {
    assert Accounted(w, f);
    assert |w.guards| == |w.guards - multiset{f}| + 1;
  }

  lemma {:induction false} LargestServedAppend(rs: seq<Request>, r: Request, f: FlowId)
    ensures LargestServed(rs + [r], f) == Max(LargestServed(rs, f), if r.flow == f then r.cost else 0)
    ensures Served(rs + [r], f) == Served(rs, f) + if r.flow == f then r.cost else 0
  {
    assert (rs + [r])[..|rs + [r]| - 1] == rs;
  }

  lemma {:induction false} NotFarAheadKept(w: World, e: Event, f: FlowId)
    requires Inv(w.q) && NotFarAhead(w, f) && Enabled(w, e)
    ensures NotFarAhead(Next(w, e), f)
  {
    if Starts(w, e).Some? {
      LargestServedAppend(w.dispatched, Starts(w, e).value, f);
    }
    match e
    case Arrive(g, weight, slot) =>
      HeadAfterAcquire(w.q, g, weight, slot, f);
    case Finish(g, cost) =>
      HeadAfterRelease(w.q, g, cost, f);
  }

  lemma {:induction false} FinishedAppend(hs: seq<Finished>, h: Finished, f: FlowId)
    ensures FinishedCount(hs + [h], f) == FinishedCount(hs, f) + if h.flow == f then 1 else 0
    ensures FinishedTime(hs + [h], f) == FinishedTime(hs, f) + if h.flow == f then h.cost else 0
  {
    assert (hs + [h])[..|hs + [h]| - 1] == hs;
  }

  /** The requests an acquire turns away: the arriving one, or the evicted one. */
  function DroppedFlow(q: Queue, f: FlowId): Option<FlowId>
    requires q.backlogCap >= 1
  {
    if Rejects(q, f) then Some(f) else if Full(q) then Some(Last(q.backlog).flow) else None
  }

  lemma {:induction false} CountersAfterAcquire(q: Queue, f: FlowId, weight: nat, slot: nat, g: FlowId)
    requires Inv(q)
    requires Waits(q, f, weight) ==> ValidSlot(MakeRoom(q, f, weight).backlog, StartTag(q, f), slot)
    ensures var c, c' := FlowOf(q, g).counters, FlowOf(Acquired(q, f, weight, slot), g).counters;
      && c'.total == c.total + (if g == f then 1 else 0)
      && c'.dropped == c.dropped + (if DroppedFlow(q, f) == Some(g) then 1 else 0)
      && c'.time == c.time
  {
    if Full(q) && !Rejects(q, f) {
      EvictionUndoes(q, f);
    }
  }

  lemma {:induction false} AccountedArrival(w: World, f: FlowId, weight: nat, slot: nat, g: FlowId)
    requires Inv(w.q) && Accounted(w, g) && Enabled(w, Arrive(f, weight, slot))
    ensures Accounted(Next(w, Arrive(f, weight, slot)), g)
  {
    AcquiredEffect(w.q, f, weight, slot, g);
    CountersAfterAcquire(w.q, f, weight, slot, g);
  }

  lemma {:induction false} AfterRelease(q: Queue, f: FlowId, cost: nat, g: FlowId)
    requires f in q.flows
    ensures var q' := Released(q, f, cost);
      var c, c' := FlowOf(q, g).counters, FlowOf(q', g).counters;
      && c'.total == c.total && c'.dropped == c.dropped && c'.time == c.time + (if g == f then cost else 0)
      && q'.backlog == if q.backlog == [] then [] else q.backlog[1..]
  {
  }

  lemma {:induction false} AccountedFinish(w: World, f: FlowId, cost: nat, g: FlowId)
    requires Accounted(w, g) && Enabled(w, Finish(f, cost)) && f in w.q.flows
    ensures Accounted(Next(w, Finish(f, cost)), g)
  {
    AfterRelease(w.q, f, cost, g);
    FinishedAppend(w.finished, Finished(f, cost), g);
    if w.q.backlog != [] {
      WaitingWithoutFirst(w.q.backlog, g);
    }
  }

  /** Replacing one flow's entry moves the three sums by that flow's differences. */
  lemma {:induction false} SumsSet(flows: map<FlowId, Flow>, f: FlowId, flow: Flow)
    ensures var before := if f in flows then flows[f] else Flow(0, 0, Counters(0, 0, 0));
      && MapSum(flows[f := flow], TotalOf) == MapSum(flows, TotalOf) + TotalOf(flow) - TotalOf(before)
      && MapSum(flows[f := flow], DroppedOf) == MapSum(flows, DroppedOf) + DroppedOf(flow) - DroppedOf(before)
      && MapSum(flows[f := flow], TimeOf) == MapSum(flows, TimeOf) + TimeOf(flow) - TimeOf(before)
  {
    MapSumSet(flows, TotalOf, f, flow);
    MapSumSet(flows, DroppedOf, f, flow);
    MapSumSet(flows, TimeOf, f, flow);
  }

  lemma {:induction false} SumsAfterAdmit(q: Queue, f: FlowId, weight: nat)
    requires SumsAgree(q)
    ensures SumsAgree(Admitted(q, f, weight))
  {
    SumsSet(q.flows, f, FlowOf(Admitted(q, f, weight), f));
  }

  lemma {:induction false} SumsAfterRollBack(q: Queue, f: FlowId, cost: int)
    requires SumsAgree(q)
    ensures SumsAgree(RolledBack(q, f, cost))
  {
    if f in q.flows {
      SumsSet(q.flows, f, FlowOf(RolledBack(q, f, cost), f));
    }
  }

  lemma {:induction false} SumsAfterCharge(q: Queue, f: FlowId, cost: nat)
    requires SumsAgree(q) && f in q.flows
    ensures SumsAgree(Charged(q, f, cost))
  {
    SumsSet(q.flows, f, FlowOf(Charged(q, f, cost), f));
  }

  lemma {:induction false} SumsAfterAcquire(q: Queue, f: FlowId, weight: nat, slot: nat)
    requires Inv(q) && SumsAgree(q)
    requires Waits(q, f, weight) ==> ValidSlot(MakeRoom(q, f, weight).backlog, StartTag(q, f), slot)
    ensures SumsAgree(Acquired(q, f, weight, slot))
  {
    var r := NewRequest(q, f, weight);
    var admitted := Admitted(q, f, weight);
    SumsAfterAdmit(q, f, weight);
    if Rejects(q, f) {
      SumsAfterRollBack(admitted, f, r.cost);
    } else if Full(q) {
      var victim := Last(q.backlog);
      SumsAfterRollBack(admitted.(backlog := q.backlog[..|q.backlog| - 1]), victim.flow, victim.cost);
    }
  }

  lemma {:induction false} GloballyAccountedKept(w: World, e: Event)
    requires WorldInv(w) && Enabled(w, e)
    ensures GloballyAccounted(Next(w, e))
  {
    match e
    case Arrive(f, weight, slot) =>
      SumsAfterAcquire(w.q, f, weight, slot);
      AcquiredEffect(w.q, f, weight, slot, f);
      assert Full(w.q) ==> Last(w.q.backlog).flow in Admitted(w.q, f, weight).flows;
    case Finish(f, cost) =>
      GuardsBelongToFlows(w, f);
      SumsAfterCharge(w.q, f, cost);
  }

  lemma {:induction false} GuardsMatchServing(w: World, e: Event)
    requires WorldInv(w) && Enabled(w, e)
    ensures Next(w, e).q.serving == |Next(w, e).guards|
  {
    match e
    case Arrive(f, weight, slot) =>
      AcquiredEffect(w.q, f, weight, slot, f);
    case Finish(f, cost) =>
      GuardsBelongToFlows(w, f);
  }

  lemma {:induction false} NextKeeps(w: World, e: Event)
    requires WorldInv(w) && Enabled(w, e)
    ensures WorldInv(Next(w, e)) && w.q.virtualTime <= Next(w, e).q.virtualTime
  {
    match e {
      case Arrive(f, weight, slot) =>
        AcquireKeeps(w.q, f, weight, slot);
      case Finish(f, cost) =>
        GuardsBelongToFlows(w, f);
        ReleaseKeeps(w.q, f, cost);
    }
    GuardsMatchServing(w, e);
    GloballyAccountedKept(w, e);
    forall f
      ensures NotFarAhead(Next(w, e), f) && Accounted(Next(w, e), f)
    {
      assert NotFarAhead(w, f) && Accounted(w, f);
      NotFarAheadKept(w, e, f);
      match e {
        case Arrive(g, weight, slot) => AccountedArrival(w, g, weight, slot, f);
        case Finish(g, cost) => AccountedFinish(w, g, cost, f);
      }
    }
  }

  /** In every run from an empty queue the tags, the counters and the slots agree, and virtual time only moves on. */
  lemma {:induction false} RunKeeps(w: World, es: seq<Event>)
    requires WorldInv(w) && Legal(w, es)
    ensures WorldInv(Run(w, es)) && w.q.virtualTime <= Run(w, es).q.virtualTime
    decreases |es|
  {
    if es != [] {
      NextKeeps(w, es[0]);
      RunKeeps(Next(w, es[0]), es[1..]);
    }
  }

  lemma {:induction false} HistoryGrows(w: World, es: seq<Event>)
    requires Legal(w, es)
    ensures w.dispatched <= Run(w, es).dispatched
    decreases |es|
  {
    if es != [] {
      HistoryGrows(Next(w, es[0]), es[1..]);
    }
  }

  lemma {:induction false} InitialHolds(backlogCap: nat, depth: nat)
    requires backlogCap >= 1
    ensures WorldInv(Initial(backlogCap, depth))
  {
  }

  /* ---------- fairness ---------- */

  /** `f` has a waiting request now and after every event of the stretch. */
  predicate AlwaysWaits(w: World, es: seq<Event>, f: FlowId)
    requires Legal(w, es)
    decreases |es|
  {
    && Waiting(w.q.backlog, f) != []
    && (es != [] ==> AlwaysWaits(Next(w, es[0]), es[1..], f))
  }

  /** While a flow keeps a request waiting, its head moves by exactly the cost dispatched for it. */
  lemma {:induction false} HeadFollowsService(w: World, e: Event, f: FlowId)
    requires WorldInv(w) && Enabled(w, e)
    requires Waiting(w.q.backlog, f) != [] && Waiting(Next(w, e).q.backlog, f) != []
    ensures Head(Next(w, e).q, f) - Head(w.q, f) == Served(Next(w, e).dispatched, f) - Served(w.dispatched, f)
  {
    if Starts(w, e).Some? {
      LargestServedAppend(w.dispatched, Starts(w, e).value, f);
    }
    match e
    case Arrive(g, weight, slot) =>
      HeadAfterAcquire(w.q, g, weight, slot, f);
    case Finish(g, cost) =>
      HeadAfterRelease(w.q, g, cost, f);
  }

  lemma {:induction false} HeadOverStretch(w: World, es: seq<Event>, f: FlowId)
    requires WorldInv(w) && Legal(w, es) && AlwaysWaits(w, es, f)
    ensures var w' := Run(w, es);
      && WorldInv(w')
      && Waiting(w'.q.backlog, f) != []
      && Head(w'.q, f) - Head(w.q, f) == Served(w'.dispatched, f) - Served(w.dispatched, f)
      && LargestServed(w.dispatched, f) <= LargestServed(w'.dispatched, f)
    decreases |es|
  {
    if es != [] {
      NextKeeps(w, es[0]);
      if Starts(w, es[0]).Some? {
        LargestServedAppend(w.dispatched, Starts(w, es[0]).value, f);
      }
      HeadFollowsService(w, es[0], f);
      HeadOverStretch(Next(w, es[0]), es[1..], f);
    }
  }

  /**
   The fairness bound. After any history, over any stretch in which two flows both always have a
   request waiting, the costs dispatched for them differ by at most the largest cost either has had.
   */
  lemma {:induction false} FairnessBound(backlogCap: nat, depth: nat, history: seq<Event>, stretch: seq<Event>,
                                         f: FlowId, g: FlowId)
    requires backlogCap >= 1
    requires Legal(Initial(backlogCap, depth), history)
    requires Legal(Run(Initial(backlogCap, depth), history), stretch)
    requires AlwaysWaits(Run(Initial(backlogCap, depth), history), stretch, f)
    requires AlwaysWaits(Run(Initial(backlogCap, depth), history), stretch, g)
    ensures var w := Run(Initial(backlogCap, depth), history);
      var w' := Run(w, stretch);
      && |w.dispatched| <= |w'.dispatched|
      && var served := w'.dispatched[|w.dispatched|..];
         var slack := LargestServed(w'.dispatched, f) + LargestServed(w'.dispatched, g);
         -slack <= Served(served, f) - Served(served, g) <= slack
  {
    InitialHolds(backlogCap, depth);
    RunKeeps(Initial(backlogCap, depth), history);
    var w := Run(Initial(backlogCap, depth), history);
    HistoryGrows(w, stretch);
    var w' := Run(w, stretch);
    HeadOverStretch(w, stretch, f);
    HeadOverStretch(w, stretch, g);
    HeadReached(w.q, f);
    HeadReached(w.q, g);
    HeadReached(w'.q, f);
    HeadReached(w'.q, g);
    assert NotFarAhead(w, f) && NotFarAhead(w, g) && NotFarAhead(w', f) && NotFarAhead(w', g);
    var served := w'.dispatched[|w.dispatched|..];
    assert w'.dispatched == w.dispatched + served;
    ServedConcat(w.dispatched, served, f);
    ServedConcat(w.dispatched, served, g);
  }

  /* ---------- a refused acquire is invisible ---------- */

  /** Two queues that give every later request the same tags and the same place. */
  ghost predicate Similar(p: Queue, q: Queue)
  {
    && p.backlog == q.backlog && p.backlogCap == q.backlogCap && p.depth == q.depth
    && p.serving == q.serving && p.virtualTime == q.virtualTime
    && forall f :: SameFuture(p, q, f)
  }

  predicate SameFuture(p: Queue, q: Queue, f: FlowId)
  {
    StartTag(p, f) == StartTag(q, f) && FlowOf(p, f).averageCost == FlowOf(q, f).averageCost
  }

  ghost predicate SimilarWorlds(v: World, w: World)
  {
    Similar(v.q, w.q) && v.guards == w.guards && v.dispatched == w.dispatched && v.finished == w.finished
  }

  lemma {:induction false} SimilarEnabled(v: World, w: World, e: Event)
    requires SimilarWorlds(v, w) && WorldInv(v) && WorldInv(w)
    ensures Enabled(v, e) <==> Enabled(w, e)
    ensures Enabled(v, e) ==> Starts(v, e) == Starts(w, e)
  {
    match e
    case Arrive(f, weight, slot) =>
      SimilarChoices(v.q, w.q, f, weight);
    case Finish(_, _) =>
  }

  /** The same choices are made in similar queues. */
  lemma {:induction false} SimilarChoices(p: Queue, q: Queue, f: FlowId, weight: nat)
    requires Similar(p, q) && Inv(p) && Inv(q)
    ensures NewRequest(p, f, weight) == NewRequest(q, f, weight)
    ensures Rejects(p, f) == Rejects(q, f) && Waits(p, f, weight) == Waits(q, f, weight)
    ensures MakeRoom(p, f, weight).backlog == MakeRoom(q, f, weight).backlog
  {
    assert SameFuture(p, q, f);
  }

  lemma {:induction false} SimilarAcquireFor(p: Queue, q: Queue, f: FlowId, weight: nat, slot: nat, g: FlowId)
    requires Similar(p, q) && Inv(p) && Inv(q)
    requires Waits(p, f, weight) ==> ValidSlot(MakeRoom(p, f, weight).backlog, StartTag(p, f), slot)
    requires Waits(q, f, weight) ==> ValidSlot(MakeRoom(q, f, weight).backlog, StartTag(q, f), slot)
    ensures SameFuture(Acquired(p, f, weight, slot), Acquired(q, f, weight, slot), g)
  {
    SimilarChoices(p, q, f, weight);
    assert SameFuture(p, q, g);
    AcquireKeeps(p, f, weight, slot);
    AcquiredEffect(p, f, weight, slot, g);
    AcquiredEffect(q, f, weight, slot, g);
  }

  lemma {:induction false} SimilarAcquire(p: Queue, q: Queue, f: FlowId, weight: nat, slot: nat)
    requires Similar(p, q) && Inv(p) && Inv(q)
    requires Waits(p, f, weight) ==> ValidSlot(MakeRoom(p, f, weight).backlog, StartTag(p, f), slot)
    requires Waits(q, f, weight) ==> ValidSlot(MakeRoom(q, f, weight).backlog, StartTag(q, f), slot)
    ensures Similar(Acquired(p, f, weight, slot), Acquired(q, f, weight, slot))
  {
    SimilarChoices(p, q, f, weight);
    forall g
      ensures SameFuture(Acquired(p, f, weight, slot), Acquired(q, f, weight, slot), g)
    {
      SimilarAcquireFor(p, q, f, weight, slot, g);
    }
  }

  lemma {:induction false} SimilarRelease(p: Queue, q: Queue, f: FlowId, cost: nat)
    requires Similar(p, q) && Inv(p) && Inv(q)
    requires f in p.flows && f in q.flows && p.serving >= 1
    ensures Similar(Released(p, f, cost), Released(q, f, cost))
  {
    var p', q' := Released(p, f, cost), Released(q, f, cost);
    ReleaseKeeps(p, f, cost);
    forall g
      ensures SameFuture(p', q', g)
    {
      assert SameFuture(p, q, g) && SameFuture(p, q, f);
    }
  }

  lemma {:induction false} SimilarNext(v: World, w: World, e: Event)
    requires SimilarWorlds(v, w) && WorldInv(v) && WorldInv(w) && Enabled(v, e) && Enabled(w, e)
    ensures SimilarWorlds(Next(v, e), Next(w, e))
  {
    SimilarEnabled(v, w, e);
    match e
    case Arrive(f, weight, slot) =>
      SimilarAcquire(v.q, w.q, f, weight, slot);
    case Finish(f, cost) =>
      GuardsBelongToFlows(v, f);
      GuardsBelongToFlows(w, f);
      SimilarRelease(v.q, w.q, f, cost);
  }

  lemma {:induction false} SimilarRuns(v: World, w: World, es: seq<Event>)
    requires SimilarWorlds(v, w) && WorldInv(v) && WorldInv(w)
    ensures Legal(v, es) <==> Legal(w, es)
    ensures Legal(v, es) ==> SimilarWorlds(Run(v, es), Run(w, es))
    decreases |es|
  {
    if es != [] {
      SimilarEnabled(v, w, es[0]);
      if Enabled(v, es[0]) {
        NextKeeps(v, es[0]);
        NextKeeps(w, es[0]);
        SimilarNext(v, w, es[0]);
        SimilarRuns(Next(v, es[0]), Next(w, es[0]), es[1..]);
      }
    }
  }

  /**
   A refused acquire leaves no trace in the schedule: whatever happens afterwards is possible exactly
   when it is possible without it, and ends with the same backlog, the same dispatches in the same
   order and the same start tag for every flow's next request.
   */
  lemma {:induction false} RefusalIsInvisible(w: World, f: FlowId, weight: nat, slot: nat, es: seq<Event>)
    requires WorldInv(w) && Rejects(w.q, f)
    ensures var v := Next(w, Arrive(f, weight, slot));
      && (Legal(v, es) <==> Legal(w, es))
      && (Legal(v, es) ==> SimilarWorlds(Run(v, es), Run(w, es)))
  {
    var v := Next(w, Arrive(f, weight, slot));
    NextKeeps(w, Arrive(f, weight, slot));
    AcquireKeeps(w.q, f, weight, slot);
    forall g
      ensures SameFuture(v.q, w.q, g)
    {
      AcquiredEffect(w.q, f, weight, slot, g);
    }
    SimilarRuns(v, w, es);
  }
}
