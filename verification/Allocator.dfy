/**
 The counting allocator's peak: allocations raise `spike` with a compare-exchange loop while `stats` swaps
 it out and folds it into `peak`. One step of the machine is one atomic operation.
 */
module Allocator {
  import opened Options

  type ThreadId(==, !new, 0)

  /** An allocation in progress: added (its total known), or with the last value of `spike` it has seen. */
  datatype Alloc = Added(total: nat) | Seen(total: nat, spike: nat)

  /** A `stats` call in progress: `spike` swapped out, and then `peak` loaded too. */
  datatype Stats = Swapped(spike: nat) | LoadedPeak(spike: nat, peak: nat)

  datatype World = World(
    current: nat,
    spike: nat,
    peak: nat,
    allocs: map<ThreadId, Alloc>,
    stats: map<ThreadId, Stats>,
    // History: the totals reached, and those of the allocations that have finished.
    reached: set<nat>,
    finished: set<nat>)

  datatype Event =
    | FetchAdd(t: ThreadId, size: nat)
    | FetchSub(size: nat)
    | LoadSpike(t: ThreadId)
    | Exchange(t: ThreadId)
    | SwapSpike(t: ThreadId)
    | LoadPeak(t: ThreadId)
    | StorePeak(t: ThreadId)

  const INITIAL := World(0, 0, 0, map[], map[], {}, {})

  predicate Enabled(w: World, e: Event)
  {
    match e
    case FetchAdd(t, _) => t !in w.allocs
    case FetchSub(size) => size <= w.current
    case LoadSpike(t) => t in w.allocs && w.allocs[t].Added?
    case Exchange(t) => t in w.allocs && w.allocs[t].Seen?
    case SwapSpike(t) => t !in w.stats
    case LoadPeak(t) => t in w.stats && w.stats[t].Swapped?
    case StorePeak(t) => t in w.stats && w.stats[t].LoadedPeak?
  }

  function Done(w: World, t: ThreadId): World
    requires t in w.allocs
  {
    w.(allocs := w.allocs - {t}, finished := w.finished + {w.allocs[t].total})
  }

  function Next(w: World, e: Event): World
    requires Enabled(w, e)
  {
    match e
    case FetchAdd(t, size) =>
      var total := w.current + size;
      w.(current := total, allocs := w.allocs[t := Added(total)], reached := w.reached + {total})
    case FetchSub(size) => w.(current := w.current - size)
    case LoadSpike(t) => w.(allocs := w.allocs[t := Seen(w.allocs[t].total, w.spike)])
    case Exchange(t) =>
      var a := w.allocs[t];
      if a.total <= a.spike then Done(w, t)
      else if w.spike == a.spike then Done(w.(spike := a.total), t)
      else w.(allocs := w.allocs[t := a.(spike := w.spike)])
    case SwapSpike(t) => w.(spike := 0, stats := w.stats[t := Swapped(w.spike)])
    case LoadPeak(t) => w.(stats := w.stats[t := LoadedPeak(w.stats[t].spike, w.peak)])
    case StorePeak(t) =>
      var s := w.stats[t];
      w.(peak := Max(s.peak, s.spike), stats := w.stats - {t})
  }

  predicate Legal(w: World, es: seq<Event>)
    decreases |es|
  {
    es == [] || (Enabled(w, es[0]) && Legal(Next(w, es[0]), es[1..]))
  }

  function Run(w: World, es: seq<Event>): World
    requires Legal(w, es)
    decreases |es|
  {
    if es == [] then w else Run(Next(w, es[0]), es[1..])
  }

  /* ---------- what is allocated ---------- */

  /** What the events add to the bytes in use. */
  function Net(es: seq<Event>): int
    decreases |es|
  {
    if es == [] then 0
    else
      (match es[0]
       case FetchAdd(_, size) => size
       case FetchSub(size) => 0 - size
       case _ => 0) + Net(es[1..])
  }

  /** The bytes in use right after each allocation. */
  function Totals(start: int, es: seq<Event>): set<int>
    decreases |es|
  {
    if es == [] then {}
    else (if es[0].FetchAdd? then {start + es[0].size} else {}) + Totals(start + Net([es[0]]), es[1..])
  }

  /** `current` is the bytes allocated less the bytes freed, and the totals reached are its values on the way. */
  lemma {:induction false} CurrentIsNet(w: World, es: seq<Event>)
    requires Legal(w, es)
    ensures Run(w, es).current == w.current + Net(es)
    ensures forall n: nat :: n in Run(w, es).reached <==> n in w.reached || n in Totals(w.current, es)
    decreases |es|
  {
    if es != [] {
      var w' := Next(w, es[0]);
      assert [es[0]][1..] == [];
      assert w'.current == w.current + Net([es[0]]);
      CurrentIsNet(w', es[1..]);
      assert Totals(w.current, es)
          == (if es[0].FetchAdd? then {w.current + es[0].size} else {}) + Totals(w'.current, es[1..]);
    }
  }

  /** `realloc`: the difference is added or taken off. */
  function Resize(t: ThreadId, before: nat, after: nat): seq<Event>
  {
    if after > before then [FetchAdd(t, after - before)]
    else if after < before then [FetchSub(before - after)]
    else []
  }

  /** Allocating, resizing and freeing a block leave the bytes in use as they were. */
  lemma {:induction false} ResizeBalances(t: ThreadId, before: nat, after: nat)
    ensures before + Net(Resize(t, before, after)) == after
  {
    var es := Resize(t, before, after);
    if es != [] {
      assert es[1..] == [];
    }
  }

  /* ---------- one stats call at a time ---------- */

  /** The value a `stats` call has swapped out and not yet stored. */
  function InHand(w: World, caller: ThreadId): nat
  {
    if caller in w.stats then w.stats[caller].spike else 0
  }

  /** The largest of `peak`, `spike` and the value in hand. */
  function Recorded(w: World, caller: ThreadId): nat
  {
    Max(Max(w.peak, w.spike), InHand(w, caller))
  }

  /** Nobody but `caller` is in a `stats` call. */
  ghost predicate Inv(w: World, caller: ThreadId)
  {
    && w.stats.Keys <= {caller}
    && (caller in w.stats && w.stats[caller].LoadedPeak? ==> w.stats[caller].peak == w.peak)
    && (forall n :: n in {w.spike, w.peak, InHand(w, caller)} ==> n == 0 || n in w.reached)
    && (forall t :: t in w.allocs ==> w.allocs[t].total in w.reached)
    && (forall t :: t in w.allocs && w.allocs[t].Seen? ==> w.allocs[t].spike <= Recorded(w, caller))
    && (forall n :: n in w.finished ==> n <= Recorded(w, caller))
  }

  /** A `stats` call begins only when none is in progress. */
  predicate Alone(w: World, e: Event)
  {
    e.SwapSpike? ==> w.stats == map[]
  }

  predicate NoOverlap(w: World, es: seq<Event>)
    requires Legal(w, es)
    decreases |es|
  {
    es != [] ==> Alone(w, es[0]) && NoOverlap(Next(w, es[0]), es[1..])
  }

  /** Who is in a `stats` call after the event, if anyone is. */
  function Holder(e: Event, caller: ThreadId): ThreadId
  {
    if e.SwapSpike? then e.t else caller
  }

  lemma {:induction false} AllocKeeps(w: World, e: Event, caller: ThreadId)
    requires Inv(w, caller) && Enabled(w, e) && (e.FetchAdd? || e.FetchSub? || e.LoadSpike? || e.Exchange?)
    ensures Inv(Next(w, e), caller) && Recorded(w, caller) <= Recorded(Next(w, e), caller)
  {
  }

  lemma {:induction false} StatsKeeps(w: World, e: Event, caller: ThreadId)
    requires Inv(w, caller) && Enabled(w, e) && Alone(w, e) && (e.SwapSpike? || e.LoadPeak? || e.StorePeak?)
    ensures Inv(Next(w, e), Holder(e, caller)) && Recorded(w, caller) <= Recorded(Next(w, e), Holder(e, caller))
  {
    assert e.SwapSpike? ==> Inv(w, e.t) && Recorded(w, e.t) == Recorded(w, caller);
  }

  lemma {:induction false} NextKeeps(w: World, e: Event, caller: ThreadId)
    requires Inv(w, caller) && Enabled(w, e) && Alone(w, e)
    ensures Inv(Next(w, e), Holder(e, caller))
    ensures Recorded(w, caller) <= Recorded(Next(w, e), Holder(e, caller))
  {
    if e.SwapSpike? || e.LoadPeak? || e.StorePeak? {
      StatsKeeps(w, e, caller);
    } else {
      AllocKeeps(w, e, caller);
    }
  }

  /**
   The lock-free peak: in every interleaving in which `stats` calls do not overlap, each finished
   allocation's total is at most the largest of `peak`, `spike` and the value in hand; that value only
   grows, and it is zero or a total really reached.
   */
  lemma {:induction false} PeakOverRun(w: World, es: seq<Event>, caller: ThreadId) returns (holder: ThreadId)
    requires Inv(w, caller) && Legal(w, es) && NoOverlap(w, es)
    ensures var w' := Run(w, es);
      && Inv(w', holder)
      && Recorded(w, caller) <= Recorded(w', holder)
      && (Recorded(w', holder) == 0 || Recorded(w', holder) in w'.reached)
      && (forall n :: n in w'.finished ==> n <= Recorded(w', holder))
    decreases |es|
  {
    if es == [] {
      holder := caller;
    } else {
      NextKeeps(w, es[0], caller);
      holder := PeakOverRun(Next(w, es[0]), es[1..], Holder(es[0], caller));
    }
  }

  /** Between `stats` calls the larger of `peak` and `spike` covers every finished allocation. */
  lemma {:induction false} QuiescentPeak(es: seq<Event>, caller: ThreadId)
    requires Legal(INITIAL, es) && NoOverlap(INITIAL, es)
    requires Run(INITIAL, es).stats == map[]
    ensures var w := Run(INITIAL, es); forall n :: n in w.finished ==> n <= Max(w.peak, w.spike)
  {
    var _ := PeakOverRun(INITIAL, es, caller);
  }

  /** The calls of a single thread do not overlap. */
  lemma {:induction false} OneCallerNeverOverlaps(w: World, es: seq<Event>, caller: ThreadId)
    requires Legal(w, es) && w.stats.Keys <= {caller}
    requires forall i :: 0 <= i < |es| && es[i].SwapSpike? ==> es[i].t == caller
    ensures NoOverlap(w, es)
    decreases |es|
  {
    if es != [] {
      assert es[0].SwapSpike? ==> w.stats.Keys == {};
      OneCallerNeverOverlaps(Next(w, es[0]), es[1..], caller);
    }
  }

  /* ---------- two overlapping stats callers ---------- */

  lemma {:induction false} RunConcat(w: World, es: seq<Event>, es': seq<Event>)
    requires Legal(w, es) && Legal(Run(w, es), es')
    ensures Legal(w, es + es') && Run(w, es + es') == Run(Run(w, es), es')
    decreases |es|
  {
    if es == [] {
      assert es + es' == es';
    } else {
      assert (es + es')[0] == es[0] && (es + es')[1..] == es[1..] + es';
      RunConcat(Next(w, es[0]), es[1..], es');
    }
  }

  lemma {:induction false} OneStep(w: World, e: Event)
    requires Enabled(w, e)
    ensures Legal(w, [e]) && Run(w, [e]) == Next(w, e)
  {
    assert [e][1..] == [];
    assert Legal(Next(w, e), []);
  }

  lemma {:induction false} TwoSteps(w: World, e: Event, e': Event)
    requires Enabled(w, e) && Enabled(Next(w, e), e')
    ensures Legal(w, [e, e']) && Run(w, [e, e']) == Next(Next(w, e), e')
  {
    OneStep(w, e);
    OneStep(Next(w, e), e');
    RunConcat(w, [e], [e']);
    assert [e] + [e'] == [e, e'];
  }

  lemma {:induction false} ThreeSteps(w: World, e: Event, e': Event, e'': Event)
    requires Enabled(w, e) && Enabled(Next(w, e), e') && Enabled(Next(Next(w, e), e'), e'')
    ensures Legal(w, [e, e', e'']) && Run(w, [e, e', e'']) == Next(Next(Next(w, e), e'), e'')
  {
    TwoSteps(w, e, e');
    OneStep(Next(Next(w, e), e'), e'');
    RunConcat(w, [e, e'], [e'']);
    assert [e, e'] + [e''] == [e, e', e''];
  }

  /** An allocation from beginning to end, undisturbed, at a time when `spike` is zero. */
  lemma {:induction false} Undisturbed(w: World, t: ThreadId, size: nat)
    requires w.allocs == map[] && w.spike == 0 && size > 0
    ensures var es := [FetchAdd(t, size), LoadSpike(t), Exchange(t)];
      var total := w.current + size;
      && Legal(w, es)
      && Run(w, es)
         == w.(current := total, spike := total, reached := w.reached + {total}, finished := w.finished + {total})
  {
    ThreeSteps(w, FetchAdd(t, size), LoadSpike(t), Exchange(t));
  }

  /** A `stats` call from beginning to end, undisturbed, folds `spike` into `peak` and starts it again. */
  lemma {:induction false} QuietStats(w: World, t: ThreadId)
    requires t !in w.stats
    ensures var es := [SwapSpike(t), LoadPeak(t), StorePeak(t)];
      Legal(w, es) && Run(w, es) == w.(spike := 0, peak := if w.spike > w.peak then w.spike else w.peak)
  {
    ThreeSteps(w, SwapSpike(t), LoadPeak(t), StorePeak(t));
    var s := w.stats[t := LoadedPeak(w.spike, w.peak)];
    assert w.stats[t := Swapped(w.spike)][t := LoadedPeak(w.spike, w.peak)] == s;
    assert s - {t} == w.stats;
  }

  /** A `stats` call begun by `a`; an allocation; a whole `stats` call by `b`; and the end of the first one. */
  function OverlappingStats(a: ThreadId, b: ThreadId): seq<Event>
  {
    [FetchAdd(a, 5), LoadSpike(a), Exchange(a)] + [SwapSpike(a), LoadPeak(a)]
    + [FetchAdd(b, 5), LoadSpike(b), Exchange(b)] + [SwapSpike(b), LoadPeak(b), StorePeak(b)] + [StorePeak(a)]
  }

  /** With two callers the peak can be lost: the total 10 is finished and nothing above 5 is recorded. */
  lemma {:induction false} TwoCallersLoseThePeak(a: ThreadId, b: ThreadId)
    requires a != b
    ensures var es := OverlappingStats(a, b);
      && Legal(INITIAL, es)
      && var w := Run(INITIAL, es); w.stats == map[] && 10 in w.finished && w.peak == 5 && w.spike == 0
  {
    var e1 := [FetchAdd(a, 5), LoadSpike(a), Exchange(a)];
    var e2 := [SwapSpike(a), LoadPeak(a)];
    var e3 := [FetchAdd(b, 5), LoadSpike(b), Exchange(b)];
    var e4 := [SwapSpike(b), LoadPeak(b), StorePeak(b)];
    var w1 := World(5, 5, 0, map[], map[], {5}, {5});
    Undisturbed(INITIAL, a, 5);
    assert Run(INITIAL, e1) == w1;
    var w2 := World(5, 0, 0, map[], map[a := LoadedPeak(5, 0)], {5}, {5});
    TwoSteps(w1, SwapSpike(a), LoadPeak(a));
    assert Run(w1, e2) == w2;
    RunConcat(INITIAL, e1, e2);
    var w3 := World(10, 10, 0, map[], map[a := LoadedPeak(5, 0)], {5, 10}, {5, 10});
    Undisturbed(w2, b, 5);
    assert Run(w2, e3) == w3;
    RunConcat(INITIAL, e1 + e2, e3);
    SecondCaller(w3, a, b);
    var w4 := w3.(peak := 10, spike := 0);
    RunConcat(INITIAL, e1 + e2 + e3, e4);
    OneStep(w4, StorePeak(a));
    RunConcat(INITIAL, e1 + e2 + e3 + e4, [StorePeak(a)]);
  }

  lemma {:induction false} SecondCaller(w: World, a: ThreadId, b: ThreadId)
    requires a != b && w.stats == map[a := LoadedPeak(5, 0)] && w.spike == 10 && w.peak == 0
    ensures var es := [SwapSpike(b), LoadPeak(b), StorePeak(b)];
      Legal(w, es) && Run(w, es) == w.(peak := 10, spike := 0)
  {
    ThreeSteps(w, SwapSpike(b), LoadPeak(b), StorePeak(b));
    assert w.stats[b := LoadedPeak(10, 0)] - {b} == w.stats;
  }

  /* ---------- exactly one thread may ask ---------- */

  /** Only threads of `callers` ask for statistics. */
  predicate AskedBy(es: seq<Event>, callers: set<ThreadId>)
  {
    forall i :: 0 <= i < |es| && es[i].SwapSpike? ==> es[i].t in callers
  }

  /** Between `stats` calls, every finished allocation is covered by `peak` or `spike`. */
  ghost predicate PeakKept(callers: set<ThreadId>)
  {
    forall es ::
      Legal(INITIAL, es) && AskedBy(es, callers) && Run(INITIAL, es).stats == map[] ==> Covered(Run(INITIAL, es))
  }

  predicate Covered(w: World)
  {
    forall n :: n in w.finished ==> n <= Max(w.peak, w.spike)
  }

  lemma {:induction false} AtMostOne(callers: set<ThreadId>) returns (t: ThreadId)
    requires |callers| <= 1
    ensures callers <= {t}
  {
    if callers == {} {
      t := *;
    } else {
      t :| t in callers;
      assert |callers - {t}| == 0;
    }
  }

  lemma {:induction false} TwoOf(callers: set<ThreadId>) returns (a: ThreadId, b: ThreadId)
    requires |callers| > 1
    ensures a != b && a in callers && b in callers
  {
    a :| a in callers;
    assert |callers - {a}| > 0;
    b :| b in callers - {a};
  }

  /** In every interleaving no peak is lost if and only if at most one thread asks for statistics. */
  lemma {:induction false} PeakKeptIffOneCaller(callers: set<ThreadId>)
    ensures PeakKept(callers) <==> |callers| <= 1
  {
    if |callers| <= 1 {
      var t := AtMostOne(callers);
      forall es | Legal(INITIAL, es) && AskedBy(es, callers) && Run(INITIAL, es).stats == map[]
        ensures Covered(Run(INITIAL, es))
      {
        OneCallerNeverOverlaps(INITIAL, es, t);
        QuiescentPeak(es, t);
      }
    } else {
      var a, b := TwoOf(callers);
      TwoCallersLoseThePeak(a, b);
      assert AskedBy(OverlappingStats(a, b), callers);
    }
  }
}
