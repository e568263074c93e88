/**
 The in-process dispatcher: fan-out of numbered messages over topics into shared channels, and `select!`,
 which merges several receivers by the smallest number at their heads.
 */
module Dispatcher {
  import opened Options
  import opened Messages

  /** A message with its place in the dispatch order of the current period. */
  datatype Item = Item(sn: nat, message: Message)

  /** What `peek_ind` sees: the number at the head, an empty channel, or no sender left. */
  datatype Peek = Head(sn: nat) | Vacant | Gone

  /* ---------- the choice made by select ---------- */

  /** The running-minimum scan: a smaller number takes over, a channel without senders always does. */
  function Scan(peeks: seq<Peek>, k: nat, min: Option<nat>, chosen: nat): Option<nat>
    requires k <= |peeks|
    decreases |peeks| - k
  {
    if k == |peeks| then (if min.None? then None else Some(chosen))
    else match peeks[k]
      case Head(sn) =>
        if min.None? || sn < min.value then Scan(peeks, k + 1, Some(sn), k) else Scan(peeks, k + 1, min, chosen)
      case Gone => Scan(peeks, k + 1, Some(0), k)
      case Vacant => Scan(peeks, k + 1, min, chosen)
  }

  function Chosen(peeks: seq<Peek>): Option<nat>
  {
    Scan(peeks, 0, None, 0)
  }

  /** `chosen` is the first place among the first `k` with the smallest head. */
  predicate FirstSmallest(peeks: seq<Peek>, k: nat, chosen: nat)
    requires k <= |peeks|
  {
    && chosen < k && peeks[chosen].Head?
    && (forall j :: 0 <= j < k && peeks[j].Head? ==> peeks[chosen].sn <= peeks[j].sn)
    && (forall j :: 0 <= j < chosen && peeks[j].Head? ==> peeks[chosen].sn < peeks[j].sn)
  }

  lemma {:induction false} ScanFinds(peeks: seq<Peek>, k: nat, min: Option<nat>, chosen: nat)
    requires k <= |peeks| && forall j :: 0 <= j < |peeks| ==> !peeks[j].Gone?
    requires min.None? ==> forall j :: 0 <= j < k ==> peeks[j].Vacant?
    requires min.Some? ==> FirstSmallest(peeks, k, chosen) && peeks[chosen].sn == min.value
    ensures match Scan(peeks, k, min, chosen)
      case None => forall j :: 0 <= j < |peeks| ==> peeks[j].Vacant?
      case Some(i) => FirstSmallest(peeks, |peeks|, i)
    decreases |peeks| - k
  {
    if k < |peeks| {
      match peeks[k]
      case Head(sn) =>
        if min.None? || sn < min.value {
          ScanFinds(peeks, k + 1, Some(sn), k);
        } else {
          ScanFinds(peeks, k + 1, min, chosen);
        }
      case Vacant =>
        ScanFinds(peeks, k + 1, min, chosen);
    }
  }

  /** `i` is the last place whose senders are gone. */
  predicate LastGone(peeks: seq<Peek>, i: nat)
  {
    i < |peeks| && peeks[i].Gone? && forall j :: i < j < |peeks| ==> !peeks[j].Gone?
  }

  /** A channel without senders is never given up for a number, only for a later channel without senders. */
  lemma {:induction false} ScanFindsGone(peeks: seq<Peek>, k: nat, min: Option<nat>, chosen: nat)
    requires k <= |peeks|
    requires (exists j :: k <= j < |peeks| && peeks[j].Gone?)
      || (min == Some(0) && chosen < k && peeks[chosen].Gone? && forall j :: chosen < j < k ==> !peeks[j].Gone?)
    ensures Scan(peeks, k, min, chosen).Some? && LastGone(peeks, Scan(peeks, k, min, chosen).value)
    decreases |peeks| - k
  {
    if k < |peeks| {
      match peeks[k]
      case Head(sn) =>
        if min.None? || sn < min.value {
          ScanFindsGone(peeks, k + 1, Some(sn), k);
        } else {
          ScanFindsGone(peeks, k + 1, min, chosen);
        }
      case Gone =>
        ScanFindsGone(peeks, k + 1, Some(0), k);
      case Vacant =>
        ScanFindsGone(peeks, k + 1, min, chosen);
    }
  }

  /**
   What is chosen: the last channel whose senders are gone, if there is one; otherwise the first with the
   smallest number; and nothing exactly when all channels are empty and have senders.
   */
  lemma {:induction false} ChosenIsFirstSmallest(peeks: seq<Peek>)
    ensures match Chosen(peeks)
      case None => forall j :: 0 <= j < |peeks| ==> peeks[j].Vacant?
      case Some(i) =>
        if exists j :: 0 <= j < |peeks| && peeks[j].Gone? then LastGone(peeks, i) else FirstSmallest(peeks, |peeks|, i)
  {
    if exists j :: 0 <= j < |peeks| && peeks[j].Gone? {
      ScanFindsGone(peeks, 0, None, 0);
    } else {
      ScanFinds(peeks, 0, None, 0);
    }
  }

  lemma {:induction false} ScanChoosesPlace(peeks: seq<Peek>, k: nat, min: Option<nat>, chosen: nat)
    requires k <= |peeks| && (min.Some? ==> chosen < |peeks| && !peeks[chosen].Vacant?)
    ensures var r := Scan(peeks, k, min, chosen); r.Some? ==> r.value < |peeks| && !peeks[r.value].Vacant?
    decreases |peeks| - k
  {
    if k < |peeks| {
      match peeks[k]
      case Head(sn) =>
        if min.None? || sn < min.value {
          ScanChoosesPlace(peeks, k + 1, Some(sn), k);
        } else {
          ScanChoosesPlace(peeks, k + 1, min, chosen);
        }
      case Gone =>
        ScanChoosesPlace(peeks, k + 1, Some(0), k);
      case Vacant =>
        ScanChoosesPlace(peeks, k + 1, min, chosen);
    }
  }

  /* ---------- one period of dispatching and selecting ---------- */

  /** Live receivers on distinct topics, all messages dispatched, all items selected, and how far that reaches. */
  datatype World = World(topics: seq<Path>, queues: seq<seq<Item>>, log: seq<Message>, out: seq<Item>, reached: nat)

  datatype Event = Dispatch(m: Message) | Select

  function Start(topics: seq<Path>): World
  {
    World(topics, seq(|topics|, _ => []), [], [], 0)
  }

  function PeekQueue(q: seq<Item>): Peek
  {
    if q == [] then Vacant else Head(q[0].sn)
  }

  function Peeks(queues: seq<seq<Item>>): seq<Peek>
  {
    seq(|queues|, i requires 0 <= i < |queues| => PeekQueue(queues[i]))
  }

  function Delivered(topics: seq<Path>, queues: seq<seq<Item>>, item: Item): seq<seq<Item>>
    requires |topics| == |queues|
  {
    seq(|queues|, i requires 0 <= i < |queues| =>
      if topics[i] == item.message.destination then queues[i] + [item] else queues[i])
  }

  function Next(w: World, e: Event): World
    requires |w.topics| == |w.queues|
  {
    match e
    case Dispatch(m) =>
      w.(log := w.log + [m], queues := Delivered(w.topics, w.queues, Item(|w.log|, m)))
    case Select =>
      match Chosen(Peeks(w.queues))
      case None => w
      case Some(i) =>
        if i < |w.queues| && w.queues[i] != [] then
          var item := w.queues[i][0];
          w.(queues := w.queues[i := w.queues[i][1..]], out := w.out + [item], reached := item.sn + 1)
        else w
  }

  /** The messages of `log[lo..hi]` that went to one of the topics, in dispatch order, with their numbers. */
  function Picked(log: seq<Message>, lo: nat, hi: nat, topics: set<Path>): seq<Item>
    requires hi <= |log|
    decreases hi - lo
  {
    if lo >= hi then []
    else (if log[lo].destination in topics then [Item(lo, log[lo])] else []) + Picked(log, lo + 1, hi, topics)
  }

  function TopicSet(w: World): set<Path>
  {
    set t | t in w.topics
  }

  ghost predicate WorldInv(w: World)
  {
    && |w.topics| == |w.queues|
    && (forall i, j :: 0 <= i < j < |w.topics| ==> w.topics[i] != w.topics[j])
    && w.reached <= |w.log|
    && w.out == Picked(w.log, 0, w.reached, TopicSet(w))
    && (forall i :: 0 <= i < |w.queues| ==> w.queues[i] == Picked(w.log, w.reached, |w.log|, {w.topics[i]}))
  }

  lemma {:induction false} PickedExtends(log: seq<Message>, m: Message, lo: nat, hi: nat, topics: set<Path>)
    requires hi <= |log|
    ensures Picked(log + [m], lo, hi, topics) == Picked(log, lo, hi, topics)
    decreases hi - lo
  {
    if lo < hi {
      PickedExtends(log, m, lo + 1, hi, topics);
    }
  }

  lemma {:induction false} PickedSplits(log: seq<Message>, lo: nat, mid: nat, hi: nat, topics: set<Path>)
    requires lo <= mid <= hi <= |log|
    ensures Picked(log, lo, hi, topics) == Picked(log, lo, mid, topics) + Picked(log, mid, hi, topics)
    decreases mid - lo
  {
    if lo < mid {
      PickedSplits(log, lo + 1, mid, hi, topics);
    }
  }

  lemma {:induction false} PickedNumbers(log: seq<Message>, lo: nat, hi: nat, topics: set<Path>)
    requires hi <= |log|
    ensures var p := Picked(log, lo, hi, topics);
      p != [] ==> lo <= p[0].sn < hi && p[0] == Item(p[0].sn, log[p[0].sn]) && p[0].message.destination in topics
    ensures forall k :: lo <= k < hi && log[k].destination in topics ==>
      Picked(log, lo, hi, topics) != [] && Picked(log, lo, hi, topics)[0].sn <= k
    decreases hi - lo
  {
    if lo < hi {
      PickedNumbers(log, lo + 1, hi, topics);
    }
  }

  /** A stretch in which nothing went to the topics can be skipped. */
  lemma {:induction false} PickedNothing(log: seq<Message>, lo: nat, hi: nat, topics: set<Path>)
    requires hi <= |log| && forall k :: lo <= k < hi ==> log[k].destination !in topics
    ensures Picked(log, lo, hi, topics) == []
    decreases hi - lo
  {
    if lo < hi {
      PickedNothing(log, lo + 1, hi, topics);
    }
  }

  lemma {:induction false} DispatchKeeps(w: World, m: Message)
    requires WorldInv(w)
    ensures WorldInv(Next(w, Dispatch(m)))
  {
    var n := |w.log|;
    var w' := Next(w, Dispatch(m));
    PickedExtends(w.log, m, 0, w.reached, TopicSet(w));
    forall i | 0 <= i < |w.queues|
      ensures w'.queues[i] == Picked(w'.log, w.reached, n + 1, {w.topics[i]})
    {
      PickedExtends(w.log, m, w.reached, n, {w.topics[i]});
      PickedSplits(w'.log, w.reached, n, n + 1, {w.topics[i]});
    }
  }

  /** Nothing pending lies before the smallest head. */
  lemma {:induction false} SmallestHeadIsNext(w: World, i: nat)
    requires WorldInv(w) && i < |w.queues| && w.queues[i] != []
    requires forall j :: 0 <= j < |w.queues| && w.queues[j] != [] ==> w.queues[i][0].sn <= w.queues[j][0].sn
    ensures var item := w.queues[i][0];
      && w.reached <= item.sn < |w.log| && item == Item(item.sn, w.log[item.sn])
      && item.message.destination == w.topics[i]
      && forall k :: w.reached <= k < item.sn ==> w.log[k].destination !in TopicSet(w)
  {
    var n := |w.log|;
    PickedNumbers(w.log, w.reached, n, {w.topics[i]});
    var item := w.queues[i][0];
    forall k | w.reached <= k < item.sn
      ensures w.log[k].destination !in TopicSet(w)
    {
      if w.log[k].destination in w.topics {
        var j :| 0 <= j < |w.topics| && w.topics[j] == w.log[k].destination;
        PickedNumbers(w.log, w.reached, n, {w.topics[j]});
        assert false;
      }
    }
  }

  lemma {:induction false} SelectKeeps(w: World)
    requires WorldInv(w)
    ensures WorldInv(Next(w, Select))
    ensures Chosen(Peeks(w.queues)).None? <==> forall i :: 0 <= i < |w.queues| ==> w.queues[i] == []
    ensures Chosen(Peeks(w.queues)).Some? ==>
      |Next(w, Select).out| == |w.out| + 1 && w.reached < Next(w, Select).reached
  {
    var peeks := Peeks(w.queues);
    ChosenIsFirstSmallest(peeks);
    if Chosen(peeks).Some? {
      var i := Chosen(peeks).value;
      assert peeks[i].Head?;
      assert forall j :: 0 <= j < |w.queues| && w.queues[j] != [] ==> peeks[j] == Head(w.queues[j][0].sn);
      SmallestHeadIsNext(w, i);
      TakeKeeps(w, i);
    } else {
      assert forall j :: 0 <= j < |w.queues| ==> peeks[j] == PeekQueue(w.queues[j]);
    }
  }

  lemma {:induction false} TakeKeeps(w: World, i: nat)
    requires WorldInv(w) && i < |w.queues| && w.queues[i] != []
    requires var item := w.queues[i][0];
      && w.reached <= item.sn < |w.log| && item == Item(item.sn, w.log[item.sn])
      && item.message.destination == w.topics[i]
      && forall k :: w.reached <= k < item.sn ==> w.log[k].destination !in TopicSet(w)
    ensures var item := w.queues[i][0];
      WorldInv(w.(queues := w.queues[i := w.queues[i][1..]], out := w.out + [item], reached := item.sn + 1))
  {
    var n, item := |w.log|, w.queues[i][0];
    var s := item.sn;
    var w' := w.(queues := w.queues[i := w.queues[i][1..]], out := w.out + [item], reached := s + 1);
    PickedSplits(w.log, 0, w.reached, s + 1, TopicSet(w));
    PickedSplits(w.log, w.reached, s, s + 1, TopicSet(w));
    PickedNothing(w.log, w.reached, s, TopicSet(w));
    assert Picked(w.log, w.reached, s + 1, TopicSet(w)) == [item];
    forall j | 0 <= j < |w.queues|
      ensures w'.queues[j] == Picked(w.log, s + 1, n, {w.topics[j]})
    {
      PickedSplits(w.log, w.reached, s, n, {w.topics[j]});
      PickedSplits(w.log, s, s + 1, n, {w.topics[j]});
      PickedNothing(w.log, w.reached, s, {w.topics[j]});
      if j == i {
        assert w.queues[i] == [item] + Picked(w.log, s + 1, n, {w.topics[i]});
      }
    }
  }

  function Run(w: World, es: seq<Event>): World
    requires |w.topics| == |w.queues|
    decreases |es|
  {
    if es == [] then w else Run(Next(w, es[0]), es[1..])
  }

  /**
   Merge order: however dispatches and selects interleave, what has been selected is the beginning of the
   messages dispatched to the topics, each once and in dispatch order; and once a select finds nothing, it
   is all of them.
   */
  lemma {:induction false} MergeOrder(w: World, es: seq<Event>)
    requires WorldInv(w)
    ensures var w' := Run(w, es);
      && WorldInv(w')
      && w'.topics == w.topics
      && w'.out <= Picked(w'.log, 0, |w'.log|, TopicSet(w))
      && (Chosen(Peeks(w'.queues)).None? ==> w'.out == Picked(w'.log, 0, |w'.log|, TopicSet(w)))
    decreases |es|
  {
    if es == [] {
      PickedSplits(w.log, 0, w.reached, |w.log|, TopicSet(w));
      SelectKeeps(w);
      if Chosen(Peeks(w.queues)).None? {
        AllEmptyMeansDone(w);
      }
    } else {
      match es[0] {
        case Dispatch(m) => DispatchKeeps(w, m);
        case Select => SelectKeeps(w);
      }
      MergeOrder(Next(w, es[0]), es[1..]);
    }
  }

  lemma {:induction false} AllEmptyMeansDone(w: World)
    requires WorldInv(w) && forall i :: 0 <= i < |w.queues| ==> w.queues[i] == []
    ensures Picked(w.log, w.reached, |w.log|, TopicSet(w)) == []
  {
    forall k | w.reached <= k < |w.log|
      ensures w.log[k].destination !in TopicSet(w)
    {
      if w.log[k].destination in w.topics {
        var j :| 0 <= j < |w.topics| && w.topics[j] == w.log[k].destination;
        PickedNumbers(w.log, w.reached, |w.log|, {w.topics[j]});
        assert false;
      }
    }
    PickedNothing(w.log, w.reached, |w.log|, TopicSet(w));
  }

  lemma {:induction false} StartHolds(topics: seq<Path>)
    requires forall i, j :: 0 <= i < j < |topics| ==> topics[i] != topics[j]
    ensures WorldInv(Start(topics))
  {
  }

  /** Selecting again and again. */
  function Drained(w: World, n: nat): World
    requires |w.topics| == |w.queues|
    decreases n
  {
    if n == 0 then w else Drained(Next(w, Select), n - 1)
  }

  /** It ends: as many selects as messages dispatched are enough to see everything. */
  lemma {:induction false} DrainEnds(w: World, n: nat)
    requires WorldInv(w) && |w.log| - w.reached <= n
    ensures var w' := Drained(w, n);
      && WorldInv(w') && w'.log == w.log
      && w'.out == Picked(w.log, 0, |w.log|, TopicSet(w))
      && Chosen(Peeks(w'.queues)).None?
    decreases n
  {
    SelectKeeps(w);
    if Chosen(Peeks(w.queues)).None? {
      AllEmptyMeansDone(w);
      PickedSplits(w.log, 0, w.reached, |w.log|, TopicSet(w));
      DrainedStays(w, n);
    } else {
      SelectReaches(w);
      DrainEnds(Next(w, Select), n - 1);
    }
  }

  lemma {:induction false} SelectReaches(w: World)
    requires WorldInv(w) && Chosen(Peeks(w.queues)).Some?
    ensures w.reached < Next(w, Select).reached <= |w.log|
    ensures Next(w, Select).log == w.log && Next(w, Select).topics == w.topics
  {
    SelectKeeps(w);
  }

  lemma {:induction false} DrainedStays(w: World, n: nat)
    requires |w.topics| == |w.queues| && Chosen(Peeks(w.queues)).None?
    ensures Drained(w, n) == w
    decreases n
  {
    if n > 0 {
      DrainedStays(w, n - 1);
    }
  }
}
