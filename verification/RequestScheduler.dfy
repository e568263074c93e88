/**
 The start-time fair queue: virtual time, one finish tag per flow, a bounded backlog that gives up
 its largest start tag, and roll-back of a finish tag by subtraction.
 */
module RequestScheduler {
  import opened Options

  type FlowId(==, !new)

  datatype Counters = Counters(total: nat, dropped: nat, time: nat)

  // Tags are `int`, so that "the subtraction never underflows" is something to prove.
  datatype Flow = Flow(finishTag: int, averageCost: nat, counters: Counters)

  datatype Request = Request(flow: FlowId, startTag: int, cost: int)

  // The backlog is a key-ordered multimap: a sequence sorted by start tag in which requests with
  // equal tags may stand in any order.
  datatype Queue = Queue(
    flows: map<FlowId, Flow>,
    backlog: seq<Request>,
    backlogCap: nat,
    depth: nat,
    serving: int,
    virtualTime: int,
    counters: Counters)

  function Empty(backlogCap: nat, depth: nat): (q: Queue)
  {
    Queue(map[], [], backlogCap, depth, 0, 0, Counters(0, 0, 0))
  }

  /* ---------- the operations, on values ---------- */

  function FlowOf(q: Queue, f: FlowId): Flow
  {
    if f in q.flows then q.flows[f] else Flow(0, 0, Counters(0, 0, 0))
  }

  function StartTag(q: Queue, f: FlowId): int
  {
    Max(q.virtualTime, FlowOf(q, f).finishTag)
  }

  function Cost(q: Queue, f: FlowId, weight: nat): (c: int)
    ensures c >= 1
  {
    Max(FlowOf(q, f).averageCost / Max(weight, 1), 1)
  }

  function NewRequest(q: Queue, f: FlowId, weight: nat): Request
  {
    Request(f, StartTag(q, f), Cost(q, f, weight))
  }

  /** The flow's entry (made if missing) with its finish tag moved past the new request. */
  function Admitted(q: Queue, f: FlowId, weight: nat): Queue
  {
    var flow := FlowOf(q, f);
    var finish := StartTag(q, f) + Cost(q, f, weight);
    var counters := flow.counters.(total := flow.counters.total + 1);
    q.(flows := q.flows[f := flow.(finishTag := finish, counters := counters)],
       counters := q.counters.(total := q.counters.total + 1))
  }

  /** Takes one request's cost back off its flow's finish tag and counts the request as dropped. */
  function RolledBack(q: Queue, f: FlowId, cost: int): Queue
  {
    if f !in q.flows then q
    else
      var flow := q.flows[f];
      var counters := flow.counters.(dropped := flow.counters.dropped + 1);
      q.(flows := q.flows[f := flow.(finishTag := flow.finishTag - cost, counters := counters)],
         counters := q.counters.(dropped := q.counters.dropped + 1))
  }

  function Last(b: seq<Request>): Request
    requires b != []
  {
    b[|b| - 1]
  }

  function Evicted(q: Queue): Queue
    requires q.backlog != []
  {
    var req := Last(q.backlog);
    RolledBack(q.(backlog := q.backlog[..|q.backlog| - 1]), req.flow, req.cost)
  }

  predicate Full(q: Queue)
  {
    |q.backlog| >= q.backlogCap
  }

  predicate Rejects(q: Queue, f: FlowId)
    requires q.backlogCap >= 1
  {
    Full(q) && StartTag(q, f) >= Last(q.backlog).startTag
  }

  /** The queue with the arriving request accounted for and a place free for it. */
  function MakeRoom(q: Queue, f: FlowId, weight: nat): Queue
    requires q.backlogCap >= 1
  {
    if Full(q) then Evicted(Admitted(q, f, weight)) else Admitted(q, f, weight)
  }

  function Dispatched(q: Queue, r: Request): Queue
  {
    q.(serving := q.serving + 1, virtualTime := r.startTag)
  }

  /** Where the ordered multimap may put `tag`: after every smaller tag, before every larger one. */
  predicate ValidSlot(b: seq<Request>, tag: int, slot: nat)
  {
    && slot <= |b|
    && (forall i :: 0 <= i < slot ==> b[i].startTag <= tag)
    && (forall i :: slot <= i < |b| ==> tag <= b[i].startTag)
  }

  function Insert(b: seq<Request>, slot: nat, r: Request): seq<Request>
    requires slot <= |b|
  {
    b[..slot] + [r] + b[slot..]
  }

  /** The request is held back, at `slot`. */
  predicate Waits(q: Queue, f: FlowId, weight: nat)
    requires q.backlogCap >= 1
  {
    !Rejects(q, f) && MakeRoom(q, f, weight).serving >= q.depth
  }

  function Acquired(q: Queue, f: FlowId, weight: nat, slot: nat): Queue
    requires q.backlogCap >= 1
    requires Waits(q, f, weight) ==> ValidSlot(MakeRoom(q, f, weight).backlog, StartTag(q, f), slot)
  {
    var req := NewRequest(q, f, weight);
    if Rejects(q, f) then RolledBack(Admitted(q, f, weight), f, req.cost)
    else
      var room := MakeRoom(q, f, weight);
      if room.serving < room.depth then Dispatched(room, req)
      else room.(backlog := Insert(room.backlog, slot, req))
  }

  function PickedUp(q: Queue): Queue
  {
    if q.backlog == [] then q else Dispatched(q.(backlog := q.backlog[1..]), q.backlog[0])
  }

  function Charged(q: Queue, f: FlowId, actualCost: nat): Queue
  {
    var q' := q.(counters := q.counters.(time := q.counters.time + actualCost));
    if f !in q.flows then q'
    else
      var flow := q.flows[f];
      var counters := flow.counters.(time := flow.counters.time + actualCost);
      q'.(flows := q.flows[f := flow.(averageCost := (flow.averageCost * 4 + actualCost) / 5, counters := counters)])
  }

  function Released(q: Queue, f: FlowId, actualCost: nat): Queue
  {
    PickedUp(Charged(q, f, actualCost).(serving := q.serving - 1))
  }

  /* ---------- the tag invariants ---------- */

  /** The waiting requests of one flow, in backlog order. */
  function Waiting(b: seq<Request>, f: FlowId): seq<Request>
  {
    if b == [] then [] else (if b[0].flow == f then [b[0]] else []) + Waiting(b[1..], f)
  }

  /** The requests stand end to end: the first starts at `from`, the last finishes at `to`. */
  predicate Chained(w: seq<Request>, from: int, to: int)
  {
    if w == [] then from == to
    else w[0].startTag == from && w[0].cost >= 1 && Chained(w[1..], from + w[0].cost, to)
  }

  /** The start tag of a flow's oldest waiting request, or its finish tag when none waits. */
  function Head(q: Queue, f: FlowId): int
  {
    var w := Waiting(q.backlog, f);
    if w == [] then FlowOf(q, f).finishTag else w[0].startTag
  }

  predicate Sorted(b: seq<Request>)
  {
    forall i, j :: 0 <= i < j < |b| ==> b[i].startTag <= b[j].startTag
  }

  predicate Shape(q: Queue)
  {
    && q.backlogCap >= 1
    && 0 <= q.serving <= q.depth
    && |q.backlog| <= q.backlogCap
    && (q.backlog != [] ==> q.serving == q.depth)
    && 0 <= q.virtualTime
    && Sorted(q.backlog)
    && (forall i :: 0 <= i < |q.backlog| ==> q.virtualTime <= q.backlog[i].startTag && q.backlog[i].flow in q.flows)
  }

  predicate Tagged(q: Queue, f: FlowId)
  {
    && 0 <= FlowOf(q, f).finishTag
    && Chained(Waiting(q.backlog, f), Head(q, f), FlowOf(q, f).finishTag)
  }

  ghost predicate Inv(q: Queue)
  {
    Shape(q) && forall f :: Tagged(q, f)
  }

  lemma {:induction false} WaitingConcat(a: seq<Request>, b: seq<Request>, f: FlowId)
    ensures Waiting(a + b, f) == Waiting(a, f) + Waiting(b, f)
  {
    if a == [] {
      assert a + b == b;
    } else {
      assert (a + b)[0] == a[0] && (a + b)[1..] == a[1..] + b;
      WaitingConcat(a[1..], b, f);
    }
  }

  lemma {:induction false} WaitingMember(b: seq<Request>, f: FlowId, i: nat)
    requires i < |b| && b[i].flow == f
    ensures b[i] in Waiting(b, f)
  {
    if i > 0 {
      WaitingMember(b[1..], f, i - 1);
    }
  }

  lemma {:induction false} WaitingOrigin(b: seq<Request>, f: FlowId, r: Request)
    requires r in Waiting(b, f)
    ensures r in b && r.flow == f
  {
    if !(b[0].flow == f && r == b[0]) {
      WaitingOrigin(b[1..], f, r);
    }
  }

  lemma {:induction false} ChainedBounds(w: seq<Request>, from: int, to: int)
    requires Chained(w, from, to)
    ensures from <= to
    ensures forall r :: r in w ==> from <= r.startTag && r.cost >= 1 && r.startTag + r.cost <= to
    ensures w != [] ==> Last(w).startTag + Last(w).cost == to
  {
    if w != [] {
      ChainedBounds(w[1..], from + w[0].cost, to);
    }
  }

  lemma {:induction false} ChainedDropLast(w: seq<Request>, from: int, to: int)
    requires w != [] && Chained(w, from, to)
    ensures Chained(w[..|w| - 1], from, Last(w).startTag)
  {
    if |w| > 1 {
      ChainedDropLast(w[1..], from + w[0].cost, to);
      assert w[..|w| - 1][1..] == w[1..][..|w| - 2];
    }
  }

  lemma {:induction false} ChainedAppend(w: seq<Request>, from: int, to: int, r: Request)
    requires Chained(w, from, to) && r.startTag == to && r.cost >= 1
    ensures Chained(w + [r], from, to + r.cost)
  {
    if w != [] {
      ChainedAppend(w[1..], from + w[0].cost, to, r);
      assert (w + [r])[1..] == w[1..] + [r];
    }
  }

  /** A waiting request lies strictly below its flow's finish tag. */
  lemma {:induction false} WaitingBelowFinish(q: Queue, i: nat)
    requires Inv(q) && i < |q.backlog|
    ensures q.backlog[i].cost >= 1
    ensures q.backlog[i].startTag + q.backlog[i].cost <= FlowOf(q, q.backlog[i].flow).finishTag
    ensures Head(q, q.backlog[i].flow) <= q.backlog[i].startTag
  {
    var f := q.backlog[i].flow;
    assert Tagged(q, f);
    WaitingMember(q.backlog, f, i);
    ChainedBounds(Waiting(q.backlog, f), Head(q, f), FlowOf(q, f).finishTag);
  }

  /** A flow with a waiting request is ahead of virtual time, so its next start tag is its finish tag. */
  lemma {:induction false} HeadReached(q: Queue, f: FlowId)
    requires Inv(q)
    ensures Waiting(q.backlog, f) != [] ==> q.virtualTime <= Head(q, f) < FlowOf(q, f).finishTag
    ensures Waiting(q.backlog, f) != [] ==> StartTag(q, f) == FlowOf(q, f).finishTag
  {
    var w := Waiting(q.backlog, f);
    if w != [] {
      WaitingOrigin(q.backlog, f, w[0]);
      var i :| 0 <= i < |q.backlog| && q.backlog[i] == w[0];
      WaitingBelowFinish(q, i);
    }
  }

  /** The backlog without its last request, seen from each flow. */
  lemma {:induction false} WaitingWithoutLast(q: Queue, f: FlowId)
    requires q.backlog != []
    ensures var w := Waiting(q.backlog, f);
      if f == Last(q.backlog).flow
      then w != [] && Last(w) == Last(q.backlog) && Waiting(Evicted(q).backlog, f) == w[..|w| - 1]
      else Waiting(Evicted(q).backlog, f) == w
  {
    var n := |q.backlog|;
    assert q.backlog == q.backlog[..n - 1] + [Last(q.backlog)];
    WaitingConcat(q.backlog[..n - 1], [Last(q.backlog)], f);
  }

  /**
   The eviction that makes room: the victim belongs to another flow, is the newest request its own
   flow has waiting, and its flow's finish tag comes back to exactly the victim's start tag.
   */
  lemma {:induction false} EvictionUndoes(q: Queue, f: FlowId)
    requires Inv(q) && Full(q) && !Rejects(q, f)
    ensures var victim := Last(q.backlog);
      var w := Waiting(q.backlog, victim.flow);
      && victim.flow != f
      && w != [] && victim == Last(w)
      && (forall r :: r in w[..|w| - 1] ==> r.startTag < victim.startTag)
      && FlowOf(Evicted(q), victim.flow).finishTag == victim.startTag >= q.virtualTime
  {
    var victim := Last(q.backlog);
    var g := victim.flow;
    WaitingBelowFinish(q, |q.backlog| - 1);
    WaitingWithoutLast(q, g);
    var w := Waiting(q.backlog, g);
    assert Tagged(q, g);
    ChainedBounds(w, Head(q, g), FlowOf(q, g).finishTag);
    ChainedDropLast(w, Head(q, g), FlowOf(q, g).finishTag);
    ChainedBounds(w[..|w| - 1], Head(q, g), victim.startTag);
  }

  /** Counting the arrival first and evicting second is the same as the other way round. */
  lemma {:induction false} EvictionCommutes(q: Queue, f: FlowId, weight: nat)
    requires q.backlog != [] && Last(q.backlog).flow != f
    ensures Evicted(Admitted(q, f, weight)) == Admitted(Evicted(q), f, weight)
    ensures NewRequest(Evicted(q), f, weight) == NewRequest(q, f, weight)
  {
    var g := Last(q.backlog).flow;
    if g in q.flows {
      assert q.flows[f := FlowOf(Admitted(q, f, weight), f)][g := FlowOf(Evicted(q), g)]
          == q.flows[g := FlowOf(Evicted(q), g)][f := FlowOf(Admitted(q, f, weight), f)];
    }
  }

  lemma {:induction false} EvictKeeps(q: Queue)
    requires Inv(q) && q.backlog != []
    ensures Inv(Evicted(q))
  {
    var q' := Evicted(q);
    forall f
      ensures Tagged(q', f)
    {
      assert Tagged(q, f);
      WaitingWithoutLast(q, f);
      if f == Last(q.backlog).flow {
        var w := Waiting(q.backlog, f);
        ChainedBounds(w, Head(q, f), FlowOf(q, f).finishTag);
        ChainedDropLast(w, Head(q, f), FlowOf(q, f).finishTag);
      }
    }
  }

  /** A refused request leaves the finish tag at the tag the next request would start from anyway. */
  lemma {:induction false} RejectKeeps(q: Queue, f: FlowId, weight: nat)
    requires Inv(q) && Rejects(q, f)
    ensures var q' := Acquired(q, f, weight, 0); Inv(q') && FlowOf(q', f).finishTag == StartTag(q, f)
  {
    var q' := Acquired(q, f, weight, 0);
    forall g
      ensures Tagged(q', g)
    {
      assert Tagged(q, g);
      HeadReached(q, g);
    }
  }

  lemma {:induction false} NoneAfterSlot(q: Queue, f: FlowId, slot: nat)
    requires Inv(q) && ValidSlot(q.backlog, StartTag(q, f), slot)
    ensures Waiting(q.backlog[slot..], f) == []
  {
    var w := Waiting(q.backlog[slot..], f);
    if w != [] {
      WaitingOrigin(q.backlog[slot..], f, w[0]);
      var i :| 0 <= i < |q.backlog[slot..]| && q.backlog[slot..][i] == w[0];
      WaitingBelowFinish(q, slot + i);
      assert false;
    }
  }

  /** A request joins the end of its flow's chain. */
  lemma {:induction false} WaitingAfterInsert(q: Queue, f: FlowId, weight: nat, slot: nat, g: FlowId)
    requires Inv(q) && ValidSlot(q.backlog, StartTag(q, f), slot)
    ensures Waiting(Insert(q.backlog, slot, NewRequest(q, f, weight)), g)
         == if g == f then Waiting(q.backlog, g) + [NewRequest(q, f, weight)] else Waiting(q.backlog, g)
  {
    var r := NewRequest(q, f, weight);
    var b := q.backlog;
    WaitingConcat(b[..slot], [r], g);
    WaitingConcat(b[..slot] + [r], b[slot..], g);
    WaitingConcat(b[..slot], b[slot..], g);
    assert b == b[..slot] + b[slot..];
    if g == f {
      NoneAfterSlot(q, f, slot);
    }
  }

  lemma {:induction false} EnqueueTags(q: Queue, f: FlowId, weight: nat, slot: nat, g: FlowId)
    requires Inv(q) && ValidSlot(q.backlog, StartTag(q, f), slot)
    ensures Tagged(Admitted(q, f, weight).(backlog := Insert(q.backlog, slot, NewRequest(q, f, weight))), g)
  {
    var r := NewRequest(q, f, weight);
    var q' := Admitted(q, f, weight).(backlog := Insert(q.backlog, slot, r));
    var w := Waiting(q.backlog, g);
    assert Tagged(q, g);
    WaitingAfterInsert(q, f, weight, slot, g);
    if g == f {
      HeadReached(q, f);
      if w != [] {
        ChainedAppend(w, Head(q, f), FlowOf(q, f).finishTag, r);
        assert Head(q', f) == Head(q, f);
      } else {
        assert w + [r] == [r];
        assert Chained([r], r.startTag, r.startTag + r.cost);
      }
    }
  }

  lemma {:induction false} EnqueueKeeps(q: Queue, f: FlowId, weight: nat, slot: nat)
    requires Inv(q) && !Full(q) && q.serving == q.depth
    requires ValidSlot(q.backlog, StartTag(q, f), slot)
    ensures Inv(Admitted(q, f, weight).(backlog := Insert(q.backlog, slot, NewRequest(q, f, weight))))
  {
    var q' := Admitted(q, f, weight).(backlog := Insert(q.backlog, slot, NewRequest(q, f, weight)));
    forall g
      ensures Tagged(q', g)
    {
      EnqueueTags(q, f, weight, slot, g);
    }
  }

  lemma {:induction false} StartKeeps(q: Queue, f: FlowId, weight: nat)
    requires Inv(q) && q.serving < q.depth
    ensures Inv(Dispatched(Admitted(q, f, weight), NewRequest(q, f, weight)))
  {
    var q' := Dispatched(Admitted(q, f, weight), NewRequest(q, f, weight));
    forall g
      ensures Tagged(q', g)
    {
      assert Tagged(q, g);
    }
  }

  lemma {:induction false} AcquireKeeps(q: Queue, f: FlowId, weight: nat, slot: nat)
    requires Inv(q)
    requires Waits(q, f, weight) ==> ValidSlot(MakeRoom(q, f, weight).backlog, StartTag(q, f), slot)
    ensures Inv(Acquired(q, f, weight, slot))
    ensures q.virtualTime <= Acquired(q, f, weight, slot).virtualTime
  {
    if Rejects(q, f) {
      RejectKeeps(q, f, weight);
    } else if Full(q) {
      EvictionUndoes(q, f);
      EvictionCommutes(q, f, weight);
      EvictKeeps(q);
      EnqueueKeeps(Evicted(q), f, weight, slot);
    } else if q.serving < q.depth {
      StartKeeps(q, f, weight);
    } else {
      EnqueueKeeps(q, f, weight, slot);
    }
  }

  /** The backlog without its first request, seen from each flow. */
  lemma {:induction false} WaitingWithoutFirst(b: seq<Request>, f: FlowId)
    requires b != []
    ensures var w := Waiting(b, f);
      if f == b[0].flow then w != [] && w[0] == b[0] && Waiting(b[1..], f) == w[1..] else Waiting(b[1..], f) == w
  {
  }

  lemma {:induction false} ReleaseKeeps(q: Queue, f: FlowId, actualCost: nat)
    requires Inv(q) && q.serving >= 1
    ensures Inv(Released(q, f, actualCost))
    ensures q.virtualTime <= Released(q, f, actualCost).virtualTime
  {
    var q' := Released(q, f, actualCost);
    forall g
      ensures Tagged(q', g)
    {
      assert Tagged(q, g);
      assert FlowOf(q', g).finishTag == FlowOf(q, g).finishTag;
      if q.backlog != [] {
        WaitingWithoutFirst(q.backlog, g);
        var w := Waiting(q.backlog, g);
        if g == q.backlog[0].flow {
          assert Chained(w[1..], w[0].startTag + w[0].cost, FlowOf(q, g).finishTag);
          assert Waiting(q'.backlog, g) == w[1..];
        } else {
          assert Waiting(q'.backlog, g) == w;
        }
      }
    }
  }

  /* ---------- what one acquire does to one flow ---------- */

  /** Every flow's waiting requests and finish tag after an acquire, branch by branch. */
  lemma {:induction false} AcquiredEffect(q: Queue, f: FlowId, weight: nat, slot: nat, g: FlowId)
    requires Inv(q)
    requires Waits(q, f, weight) ==> ValidSlot(MakeRoom(q, f, weight).backlog, StartTag(q, f), slot)
    ensures var q' := Acquired(q, f, weight, slot);
      var r := NewRequest(q, f, weight);
      var w, w' := Waiting(q.backlog, g), Waiting(q'.backlog, g);
      var fin, fin' := FlowOf(q, g).finishTag, FlowOf(q', g).finishTag;
      if Rejects(q, f) then
        q'.backlog == q.backlog && fin' == if g == f then r.startTag else fin
      else if Full(q) then
        var victim := Last(q.backlog);
        && victim.flow != f
        && |q'.backlog| == |q.backlog|
        && (g == f ==> w' == w + [r] && fin' == r.startTag + r.cost)
        && (g == victim.flow ==> w != [] && Last(w) == victim && w' == w[..|w| - 1] && fin' == victim.startTag)
        && (g != f && g != victim.flow ==> w' == w && fin' == fin)
      else if q.serving < q.depth then
        && q.backlog == [] && q'.backlog == []
        && fin' == if g == f then r.startTag + r.cost else fin
      else
        && |q'.backlog| == |q.backlog| + 1
        && (g == f ==> w' == w + [r] && fin' == r.startTag + r.cost)
        && (g != f ==> w' == w && fin' == fin)
  {
    if !Rejects(q, f) {
      if Full(q) {
        EvictionUndoes(q, f);
        EvictionCommutes(q, f, weight);
        EvictKeeps(q);
        WaitingWithoutLast(q, g);
        WaitingAfterInsert(Evicted(q), f, weight, slot, g);
      } else if q.serving >= q.depth {
        WaitingAfterInsert(q, f, weight, slot, g);
      }
    }
  }

  /** How an acquire moves the head of a flow: only a request started at once leaves virtual time behind. */
  lemma {:induction false} HeadAfterAcquire(q: Queue, f: FlowId, weight: nat, slot: nat, g: FlowId)
    requires Inv(q)
    requires Waits(q, f, weight) ==> ValidSlot(MakeRoom(q, f, weight).backlog, StartTag(q, f), slot)
    ensures var q' := Acquired(q, f, weight, slot);
      && (!Rejects(q, f) && !Waits(q, f, weight) ==>
            q'.virtualTime == StartTag(q, f) && Waiting(q.backlog, g) == []
            && Head(q', g) == if g == f then StartTag(q, f) + Cost(q, f, weight) else Head(q, g))
      && (Rejects(q, f) || Waits(q, f, weight) ==>
            q'.virtualTime == q.virtualTime && Head(q', g) <= Max(q.virtualTime, Head(q, g))
            && (Waiting(q.backlog, g) != [] && Waiting(q'.backlog, g) != [] ==> Head(q', g) == Head(q, g)))
  {
    AcquiredEffect(q, f, weight, slot, g);
    HeadReached(q, g);
    assert Tagged(q, g);
  }

  /** How a release moves the head of a flow: past the request it starts, or not at all. */
  lemma {:induction false} HeadAfterRelease(q: Queue, f: FlowId, actualCost: nat, g: FlowId)
    requires Inv(q)
    ensures var q' := Released(q, f, actualCost);
      if q.backlog != [] && g == q.backlog[0].flow
      then Head(q, g) == q.backlog[0].startTag == q'.virtualTime && Head(q', g) == q'.virtualTime + q.backlog[0].cost
      else Head(q', g) == Head(q, g)
  {
    var q' := Released(q, f, actualCost);
    assert Tagged(q, g);
    assert FlowOf(q', g).finishTag == FlowOf(q, g).finishTag;
    if q.backlog != [] {
      WaitingWithoutFirst(q.backlog, g);
      var w := Waiting(q.backlog, g);
      if g == q.backlog[0].flow {
        assert Chained(w[1..], w[0].startTag + w[0].cost, FlowOf(q, g).finishTag);
      }
    }
  }

  /* ---------- the queue object ---------- */

  datatype AcquireResult = Overloaded | Accepted(started: bool)

  class FairQueue {
    const backlogCap: nat
    const depth: nat
    var flows: map<FlowId, Flow>
    var backlog: seq<Request>
    var serving: int
    var virtualTime: int
    var counters: Counters

    ghost function View(): Queue
      reads this
    {
      Queue(flows, backlog, backlogCap, depth, serving, virtualTime, counters)
    }

    constructor (backlogCap: nat, depth: nat)
      ensures View() == Empty(backlogCap, depth)
      ensures backlogCap >= 1 ==> Inv(View())
    {
      this.backlogCap, this.depth := backlogCap, depth;
      flows, backlog, serving, virtualTime, counters := map[], [], 0, 0, Counters(0, 0, 0);
    }

    /** The ordered multimap's search for the place of a new key. */
    method FindSlot(tag: int) returns (slot: nat)
      requires Sorted(backlog)
      ensures ValidSlot(backlog, tag, slot)
    {
      slot := |backlog|;
      while slot > 0 && backlog[slot - 1].startTag > tag
        invariant slot <= |backlog|
        invariant forall i :: slot <= i < |backlog| ==> tag <= backlog[i].startTag
      {
        slot := slot - 1;
      }
    }

    /** Moves the flow's finish tag past a new request and counts it. */
    method Admit(f: FlowId, weight: nat) returns (request: Request)
      modifies this`flows, this`counters
      ensures View() == Admitted(old(View()), f, weight)
      ensures request == NewRequest(old(View()), f, weight)
    {
      var flow := if f in flows then flows[f] else Flow(0, 0, Counters(0, 0, 0));
      var startTag := Max(virtualTime, flow.finishTag);
      var cost := flow.averageCost / Max(weight, 1);
      cost := Max(cost, 1);
      flow := flow.(finishTag := startTag + cost, counters := flow.counters.(total := flow.counters.total + 1));
      flows := flows[f := flow];
      counters := counters.(total := counters.total + 1);
      request := Request(f, startTag, cost);
    }

    /** Takes a dropped request's cost off its flow again. */
    method RollBack(f: FlowId, cost: int)
      modifies this`flows, this`counters
      ensures View() == RolledBack(old(View()), f, cost)
    {
      if f in flows {
        var flow := flows[f];
        flows := flows[f := flow.(finishTag := flow.finishTag - cost,
                                  counters := flow.counters.(dropped := flow.counters.dropped + 1))];
        counters := counters.(dropped := counters.dropped + 1);
      }
    }

    method Acquire(f: FlowId, weight: nat) returns (result: AcquireResult, ghost slot: nat)
      requires Inv(View())
      modifies this
      ensures Waits(old(View()), f, weight) ==>
                ValidSlot(MakeRoom(old(View()), f, weight).backlog, StartTag(old(View()), f), slot)
      ensures View() == Acquired(old(View()), f, weight, slot)
      ensures Inv(View()) && old(virtualTime) <= virtualTime
      ensures result.Overloaded? <==> Rejects(old(View()), f)
      ensures result.Accepted? ==> result.started == !Waits(old(View()), f, weight)
    {
      ghost var q := View();
      slot := 0;
      var request := Admit(f, weight);
      if |backlog| >= backlogCap {
        if request.startTag >= backlog[|backlog| - 1].startTag {
          RollBack(f, request.cost);
          AcquireKeeps(q, f, weight, slot);
          return Overloaded, slot;
        }
        var victim := backlog[|backlog| - 1];
        backlog := backlog[..|backlog| - 1];
        RollBack(victim.flow, victim.cost);
      }
      assert View() == MakeRoom(q, f, weight);
      if serving < depth {
        Dispatch(request);
        result := Accepted(true);
      } else {
        var place := FindSlot(request.startTag);
        slot := place;
        backlog := backlog[..place] + [request] + backlog[place..];
        result := Accepted(false);
      }
      AcquireKeeps(q, f, weight, slot);
    }

    method Release(f: FlowId, actualCost: nat)
      requires Inv(View()) && serving >= 1
      modifies this
      ensures View() == Released(old(View()), f, actualCost)
      ensures Inv(View()) && old(virtualTime) <= virtualTime
    {
      ReleaseKeeps(View(), f, actualCost);
      if f in flows {
        var flow := flows[f];
        flows := flows[f := flow.(averageCost := (flow.averageCost * 4 + actualCost) / 5,
                                  counters := flow.counters.(time := flow.counters.time + actualCost))];
      }
      counters := counters.(time := counters.time + actualCost);
      serving := serving - 1;
      TryPickupNext();
    }

    method TryPickupNext()
      modifies this
      ensures View() == PickedUp(old(View()))
    {
      if backlog != [] {
        var request := backlog[0];
        backlog := backlog[1..];
        Dispatch(request);
      }
    }

    method Dispatch(request: Request)
      modifies this
      ensures View() == Dispatched(old(View()), request)
    {
      serving := serving + 1;
      virtualTime := request.startTag;
    }
  }
}
