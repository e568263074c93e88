/** What one request is charged and where it goes, told in numbers: weights, averages, refusals and evictions. */
module RequestCosts {
  import opened Options
  import opened Quotients
  import opened RequestScheduler

  /* ---------- weights ---------- */

  /** What an accepted request moves its flow's finish tag past its start tag. */
  function ChargeOf(q: Queue, f: FlowId, weight: nat, slot: nat): int
    requires q.backlogCap >= 1
    requires Waits(q, f, weight) ==> ValidSlot(MakeRoom(q, f, weight).backlog, StartTag(q, f), slot)
  {
    FlowOf(Acquired(q, f, weight, slot), f).finishTag - Max(q.virtualTime, FlowOf(q, f).finishTag)
  }

  /** An accepted request is charged its flow's average cost divided by the weight, rounded down, and at least 1. */
  lemma {:induction false} ChargedByWeight(q: Queue, f: FlowId, weight: nat, slot: nat)
    requires Inv(q) && !Refused(q, f)
    requires Waits(q, f, weight) ==> ValidSlot(MakeRoom(q, f, weight).backlog, StartTag(q, f), slot)
    ensures var c, a, v := ChargeOf(q, f, weight, slot), FlowOf(q, f).averageCost, Max(weight, 1);
      c >= 1 && (c == 1 || c * v <= a) && a < (c + 1) * v
  {
    AcquiredEffect(q, f, weight, slot, f);
    RefusedIff(q, f);
    var a, v := FlowOf(q, f).averageCost, Max(weight, 1);
    var x := QuotientBounds(a, v);
    ProductGrows(x + 1, Max(x, 1) + 1, v);
  }

  /** A larger weight never costs more. */
  lemma {:induction false} HeavierIsCheaper(q: Queue, f: FlowId, weight: nat, slot: nat, more: nat, slot': nat)
    requires Inv(q) && !Refused(q, f) && weight <= more
    requires Waits(q, f, weight) ==> ValidSlot(MakeRoom(q, f, weight).backlog, StartTag(q, f), slot)
    requires Waits(q, f, more) ==> ValidSlot(MakeRoom(q, f, more).backlog, StartTag(q, f), slot')
    ensures ChargeOf(q, f, more, slot') <= ChargeOf(q, f, weight, slot)
  {
    AcquiredEffect(q, f, weight, slot, f);
    AcquiredEffect(q, f, more, slot', f);
    RefusedIff(q, f);
    SmallerDivisor(FlowOf(q, f).averageCost, Max(weight, 1), Max(more, 1));
  }

  /**
   A release moves the flow's average a fifth of the way to the actual cost, rounded down, so that it stays
   between the two; no other flow's average moves.
   */
  lemma {:induction false} AverageMoves(q: Queue, f: FlowId, cost: nat, g: FlowId)
    requires f in q.flows
    ensures var a, a' := FlowOf(q, g).averageCost, FlowOf(Released(q, f, cost), g).averageCost;
      if g != f then a' == a
      else 5 * a' <= 4 * a + cost < 5 * (a' + 1) && (a <= a' <= cost || cost <= a' <= a)
  {
  }

  /* ---------- refusal and eviction ---------- */

  /** The backlog is full and no waiting request starts later than the new one would. */
  predicate Refused(q: Queue, f: FlowId)
  {
    && |q.backlog| == q.backlogCap
    && forall i :: 0 <= i < |q.backlog| ==> q.backlog[i].startTag <= Max(q.virtualTime, FlowOf(q, f).finishTag)
  }

  lemma {:induction false} RefusedIff(q: Queue, f: FlowId)
    requires Inv(q)
    ensures Rejects(q, f) <==> Refused(q, f)
  {
    if |q.backlog| == q.backlogCap {
      assert Last(q.backlog) == q.backlog[|q.backlog| - 1];
    }
  }

  /** Some request that no other starts after. */
  predicate Latest(b: seq<Request>, victim: Request)
  {
    victim in b && forall i :: 0 <= i < |b| ==> b[i].startTag <= victim.startTag
  }

  /** A refused request changes no waiting request and no service, and is counted as dropped. */
  lemma {:induction false} RefusalOutcome(q: Queue, f: FlowId, weight: nat, slot: nat)
    requires Inv(q) && Refused(q, f)
    requires Waits(q, f, weight) ==> ValidSlot(MakeRoom(q, f, weight).backlog, StartTag(q, f), slot)
    ensures var q' := Acquired(q, f, weight, slot);
      && q'.backlog == q.backlog && q'.serving == q.serving && q'.virtualTime == q.virtualTime
      && q'.counters == q.counters.(total := q.counters.total + 1, dropped := q.counters.dropped + 1)
  {
    RefusedIff(q, f);
  }

  /** A request that is not refused starts at once if a place is free. */
  lemma {:induction false} StartOutcome(q: Queue, f: FlowId, weight: nat, slot: nat)
    requires Inv(q) && !Refused(q, f) && q.serving < q.depth
    requires Waits(q, f, weight) ==> ValidSlot(MakeRoom(q, f, weight).backlog, StartTag(q, f), slot)
    ensures var q' := Acquired(q, f, weight, slot);
      && q'.serving == q.serving + 1 && q'.virtualTime == Max(q.virtualTime, FlowOf(q, f).finishTag)
      && q'.backlog == q.backlog && q'.counters == q.counters.(total := q.counters.total + 1)
  {
    RefusedIff(q, f);
  }

  /** Otherwise it joins the waiting requests, if there is room for it. */
  lemma {:induction false} JoinOutcome(q: Queue, f: FlowId, weight: nat, slot: nat)
    requires Inv(q) && q.serving == q.depth && |q.backlog| < q.backlogCap
    requires Waits(q, f, weight) ==> ValidSlot(MakeRoom(q, f, weight).backlog, StartTag(q, f), slot)
    ensures var q' := Acquired(q, f, weight, slot);
      var r := Request(f, Max(q.virtualTime, FlowOf(q, f).finishTag), ChargeOf(q, f, weight, slot));
      && q'.serving == q.serving && q'.virtualTime == q.virtualTime
      && multiset(q'.backlog) == multiset(q.backlog) + multiset{r}
      && q'.counters == q.counters.(total := q.counters.total + 1)
  {
    RefusedIff(q, f);
    AcquiredEffect(q, f, weight, slot, f);
    InsertAdds(q.backlog, slot, NewRequest(q, f, weight));
  }

  /** If there is no room, a waiting request with the latest start tag makes way, and is counted as dropped. */
  lemma {:induction false} EvictOutcome(q: Queue, f: FlowId, weight: nat, slot: nat) returns (victim: Request)
    requires Inv(q) && !Refused(q, f) && |q.backlog| == q.backlogCap
    requires Waits(q, f, weight) ==> ValidSlot(MakeRoom(q, f, weight).backlog, StartTag(q, f), slot)
    ensures var q' := Acquired(q, f, weight, slot);
      var r := Request(f, Max(q.virtualTime, FlowOf(q, f).finishTag), ChargeOf(q, f, weight, slot));
      && Latest(q.backlog, victim) && r.startTag < victim.startTag
      && q'.serving == q.serving && q'.virtualTime == q.virtualTime
      && multiset(q'.backlog) + multiset{victim} == multiset(q.backlog) + multiset{r}
      && q'.counters == q.counters.(total := q.counters.total + 1, dropped := q.counters.dropped + 1)
  {
    victim := Last(q.backlog);
    EvictedState(q, f, weight, slot);
    ReplacesLast(q.backlog, slot, NewRequest(q, f, weight));
    LastIsLatest(q.backlog);
  }

  lemma {:induction false} EvictedState(q: Queue, f: FlowId, weight: nat, slot: nat)
    requires Inv(q) && !Refused(q, f) && |q.backlog| == q.backlogCap
    requires Waits(q, f, weight) ==> ValidSlot(MakeRoom(q, f, weight).backlog, StartTag(q, f), slot)
    ensures var q' := Acquired(q, f, weight, slot);
      && slot < |q.backlog| && StartTag(q, f) < Last(q.backlog).startTag
      && ChargeOf(q, f, weight, slot) == NewRequest(q, f, weight).cost
      && q'.serving == q.serving && q'.virtualTime == q.virtualTime
      && q'.backlog == Insert(q.backlog[..|q.backlog| - 1], slot, NewRequest(q, f, weight))
      && q'.counters == q.counters.(total := q.counters.total + 1, dropped := q.counters.dropped + 1)
  {
    RefusedIff(q, f);
    AcquiredEffect(q, f, weight, slot, f);
    assert q.backlog[|q.backlog| - 1].flow in q.flows;
  }

  lemma {:induction false} LastIsLatest(b: seq<Request>)
    requires b != [] && Sorted(b)
    ensures Latest(b, Last(b))
  {
  }

  lemma {:induction false} ReplacesLast(b: seq<Request>, slot: nat, r: Request)
    requires slot < |b|
    ensures multiset(Insert(b[..|b| - 1], slot, r)) + multiset{Last(b)} == multiset(b) + multiset{r}
  {
    InsertAdds(b[..|b| - 1], slot, r);
    assert b == b[..|b| - 1] + [Last(b)];
  }

  /** A waiting request that starts no later than any other. */
  predicate Earliest(b: seq<Request>, r: Request)
  {
    r in b && forall i :: 0 <= i < |b| ==> r.startTag <= b[i].startTag
  }

  /** A release with nobody waiting frees a place. */
  lemma {:induction false} IdleRelease(q: Queue, f: FlowId, cost: nat)
    requires Inv(q) && q.serving >= 1 && q.backlog == []
    ensures var q' := Released(q, f, cost);
      && q'.serving == q.serving - 1 && q'.virtualTime == q.virtualTime && q'.backlog == []
      && q'.counters == q.counters.(time := q.counters.time + cost)
  {
  }

  /** A release with requests waiting starts one with the earliest start tag in its place. */
  lemma {:induction false} ReleaseOutcome(q: Queue, f: FlowId, cost: nat) returns (r: Request)
    requires Inv(q) && q.serving >= 1 && q.backlog != []
    ensures var q' := Released(q, f, cost);
      && Earliest(q.backlog, r) && multiset(q'.backlog) + multiset{r} == multiset(q.backlog)
      && q'.serving == q.serving && q'.virtualTime == r.startTag
      && q'.counters == q.counters.(time := q.counters.time + cost)
  {
    r := q.backlog[0];
    assert q.backlog == [r] + q.backlog[1..];
  }

  lemma {:induction false} InsertAdds(b: seq<Request>, slot: nat, r: Request)
    requires slot <= |b|
    ensures multiset(Insert(b, slot, r)) == multiset(b) + multiset{r}
  {
    assert b == b[..slot] + b[slot..];
  }
}
