/** The dispatcher's objects: shared channels with sender and receiver counts, fan-out, and `select!`. */
module DispatcherObjects {
  import opened Options
  import opened Messages
  import opened Sums
  import opened Dispatcher

  /** A channel shared by its sender and receiver ends. */
  class Channel {
    var deque: seq<Item>
    var senders: nat
    var receivers: nat

    constructor ()
      ensures deque == [] && senders == 1 && receivers == 1
    {
      deque, senders, receivers := [], 1, 1;
    }

    function Peeked(): Peek
      reads this
    {
      if deque != [] then Head(deque[0].sn) else if senders == 0 then Gone else Vacant
    }

    method Send(item: Item) returns (ok: bool)
      modifies this`deque
      ensures ok <==> receivers > 0
      ensures deque == if ok then old(deque) + [item] else old(deque)
    {
      ok := receivers != 0;
      if ok {
        deque := deque + [item];
      }
    }

    method Clear() returns (count: nat)
      modifies this`deque
      ensures deque == [] && count == |old(deque)|
    {
      count := |deque|;
      deque := [];
    }

    method TryNext() returns (item: Option<Item>, senderGone: bool)
      modifies this`deque
      ensures match old(Peeked())
        case Head(_) => item == Some(old(deque)[0]) && deque == old(deque)[1..] && !senderGone
        case Gone => item == None && deque == old(deque) && senderGone
        case Vacant => item == None && deque == old(deque) && !senderGone
    {
      if deque != [] {
        item, senderGone := Some(deque[0]), false;
        deque := deque[1..];
      } else {
        item, senderGone := None, senders == 0;
      }
    }
  }

  function AllPeeks(rxs: seq<Channel>): seq<Peek>
    reads set c | c in rxs
  {
    seq(|rxs|, i requires 0 <= i < |rxs| reads (set c | c in rxs) => rxs[i].Peeked())
  }

  datatype Selection = Nothing | Got(index: nat, item: Item) | SenderGone(index: nat)

  method ChooseReceiver(rxs: seq<Channel>) returns (chosen: Option<nat>)
    ensures chosen == Chosen(AllPeeks(rxs))
    ensures chosen.Some? ==> chosen.value < |rxs| && !rxs[chosen.value].Peeked().Vacant?
  {
    ghost var peeks := AllPeeks(rxs);
    var min: Option<nat> := None;
    var minInd := 0;
    for ind := 0 to |rxs|
      invariant Scan(peeks, ind, min, minInd) == Chosen(peeks)
    {
      assert peeks[ind] == rxs[ind].Peeked();
      var peek := rxs[ind].Peeked();
      match peek {
        case Head(sn) =>
          if min == None || sn < min.value {
            min, minInd := Some(sn), ind;
          }
        case Gone =>
          min, minInd := Some(0), ind;
        case Vacant =>
      }
    }
    ScanChoosesPlace(peeks, 0, None, 0);
    chosen := if min.Some? then Some(minInd) else None;
  }

  /** One `select!` over the receivers. */
  method Select(rxs: seq<Channel>) returns (r: Selection)
    requires Distinct(rxs)
    modifies (set c | c in rxs)`deque
    ensures var peeks := old(AllPeeks(rxs));
      match Chosen(peeks)
      case None => r == Nothing && forall c :: c in rxs ==> c.deque == old(c.deque)
      case Some(i) =>
        && i < |rxs|
        && (forall j :: 0 <= j < |rxs| && j != i ==> rxs[j].deque == old(rxs[j].deque))
        && (match peeks[i]
            case Head(sn) =>
              && old(rxs[i].deque) != [] && r == Got(i, old(rxs[i].deque)[0]) && r.item.sn == sn
              && rxs[i].deque == old(rxs[i].deque)[1..]
            case Gone => r == SenderGone(i) && rxs[i].deque == old(rxs[i].deque)
            case Vacant => false)
  {
    var chosen := ChooseReceiver(rxs);
    if chosen == None {
      return Nothing;
    }
    var item, gone := rxs[chosen.value].TryNext();
    if item.Some? {
      r := Got(chosen.value, item.value);
    } else {
      r := SenderGone(chosen.value);
    }
  }

  /** The channels of a list that still have a receiver, in order. */
  ghost function Live(cs: seq<Channel>): seq<Channel>
    reads (set c | c in cs)`receivers
  {
    if cs == [] then [] else Live(cs[..|cs| - 1]) + if cs[|cs| - 1].receivers > 0 then [cs[|cs| - 1]] else []
  }

  /** What a delivery does to one channel. */
  twostate predicate Served(c: Channel, item: Item)
    reads c
  {
    && c.deque == (if c.receivers > 0 then old(c.deque) + [item] else old(c.deque))
    && c.senders == old(c.senders) - (if c.receivers > 0 then 0 else 1)
  }

  /** Sends to one channel; a sender end that reaches nobody is dropped. */
  method Offer(c: Channel, item: Item) returns (ok: bool)
    requires c.senders > 0
    modifies c`deque, c`senders
    ensures ok <==> c.receivers > 0
    ensures Served(c, item)
  {
    ok := c.Send(item);
    if !ok {
      c.senders := c.senders - 1;
    }
  }

  /** The `retain` loop: sends to each channel and keeps those that could take the item. */
  method Deliver(list: seq<Channel>, item: Item) returns (kept: seq<Channel>)
    requires Distinct(list) && forall i :: 0 <= i < |list| ==> list[i].senders > 0
    modifies (set c | c in list)`deque, (set c | c in list)`senders
    ensures kept == old(Live(list))
    ensures forall i :: 0 <= i < |list| ==> Served(list[i], item)
  {
    kept := [];
    for k := 0 to |list|
      invariant kept == old(Live(list[..k]))
      invariant forall i :: 0 <= i < k ==> Served(list[i], item)
      invariant forall i :: k <= i < |list| ==>
        list[i].deque == old(list[i].deque) && list[i].senders == old(list[i].senders)
    {
      assert list[..k + 1][..k] == list[..k];
      assert forall i :: 0 <= i < |list| && i != k ==> list[i] != list[k];
      var ok := Offer(list[k], item);
      assert list[..k + 1][k] == list[k];
      kept := if ok then kept + [list[k]] else kept;
    }
    assert list[..|list|] == list;
  }

  class MessageDispatcher {
    var subscribers: map<Path, seq<Channel>>
    var localIndex: nat

    constructor ()
      ensures subscribers == map[] && localIndex == 0
    {
      subscribers, localIndex := map[], 0;
    }

    /** All sender ends held by the dispatcher. */
    function Channels(): set<Channel>
      reads this
    {
      set p, i | p in subscribers && 0 <= i < |subscribers[p]| :: subscribers[p][i]
    }

    /** How many messages wait in each channel. */
    ghost function Lengths(): map<Channel, nat>
      reads this, Channels()
    {
      map c | c in Channels() :: |c.deque|
    }

    ghost predicate Valid()
      reads this
    {
      && (forall p :: p in subscribers ==> Distinct(subscribers[p]))
      && (forall p, p', c :: p in subscribers && p' in subscribers && c in subscribers[p] && c in subscribers[p'] ==>
            p == p')
    }

    method Subscribe(path: Path) returns (rx: Channel)
      requires Valid()
      modifies this`subscribers
      ensures Valid() && fresh(rx) && rx.deque == [] && rx.receivers == 1 && rx.senders == 1
      ensures var before := old(subscribers);
        subscribers == before[path := (if path in before then before[path] else []) + [rx]]
    {
      rx := new Channel();
      var list := if path in subscribers then subscribers[path] else [];
      assert forall p :: p in subscribers ==> rx !in subscribers[p];
      subscribers := subscribers[path := list + [rx]];
    }

    /**
     Every live subscriber of the topic gets the message under the next number, those without a receiver
     are dropped from the list, and no other channel changes.
     */
    method Dispatch(m: Message) returns (count: nat)
      requires Valid()
      modifies this
      modifies (if m.destination in subscribers then set c | c in subscribers[m.destination] else {})`deque
      modifies (if m.destination in subscribers then set c | c in subscribers[m.destination] else {})`senders
      requires forall c :: c in Channels() ==> c.senders > 0
      ensures localIndex == old(localIndex) + 1
      ensures m.destination !in old(subscribers) ==> subscribers == old(subscribers) && count == 0
      ensures m.destination in old(subscribers) ==>
        var list := old(subscribers)[m.destination];
        && subscribers == old(subscribers)[m.destination := old(Live(subscribers[m.destination]))]
        && count == |subscribers[m.destination]|
        && (forall i :: 0 <= i < |list| ==> Served(list[i], Item(old(localIndex), m)))
    {
      count := 0;
      var sn := localIndex;
      localIndex := localIndex + 1;
      if m.destination in subscribers {
        var list := subscribers[m.destination];
        assert forall i :: 0 <= i < |list| ==> list[i] in Channels();
        var kept := Deliver(list, Item(sn, m));
        subscribers := subscribers[m.destination := kept];
        count := |kept|;
      }
    }

    method ResetLocalIndex()
      modifies this`localIndex
      ensures localIndex == 0
    {
      localIndex := 0;
    }

    /** Drops all unhandled messages; returns how many there were. */
    method Clear() returns (count: nat)
      requires Valid()
      modifies Channels()`deque
      ensures forall c :: c in Channels() ==> c.deque == []
      ensures count == MapSum(old(Lengths()), (n: nat) => n)
    {
      ghost var f := (n: nat) => n;
      ghost var lengths := Lengths();
      count := 0;
      var left := Channels();
      while left != {}
        invariant left <= Channels() && lengths.Keys == left
        invariant forall c :: c in Channels() ==> if c in left then |c.deque| == lengths[c] else c.deque == []
        invariant count + MapSum(lengths, f) == MapSum(old(Lengths()), f)
        decreases |left|
      {
        var c :| c in left;
        var n := c.Clear();
        MapSumRemove(lengths, f, c);
        count := count + n;
        left, lengths := left - {c}, lengths - {c};
      }
    }
  }

  /* ---------- the objects follow the period's model ---------- */

  lemma {:induction false} LiveMember(cs: seq<Channel>, c: Channel)
    ensures c in Live(cs) <==> c in cs && c.receivers > 0
  {
    if cs != [] {
      LiveMember(cs[..|cs| - 1], c);
      assert cs == cs[..|cs| - 1] + [cs[|cs| - 1]];
    }
  }

  lemma {:induction false} LiveDistinct(cs: seq<Channel>)
    requires Distinct(cs)
    ensures Distinct(Live(cs))
  {
    if cs != [] {
      var rest := cs[..|cs| - 1];
      LiveDistinct(rest);
      LiveMember(rest, cs[|cs| - 1]);
    }
  }

  lemma {:induction false} LiveMembers(cs: seq<Channel>)
    ensures forall c :: c in Live(cs) <==> c in cs && c.receivers > 0
    ensures Distinct(cs) ==> Distinct(Live(cs))
  {
    forall c: Channel
      ensures c in Live(cs) <==> c in cs && c.receivers > 0
    {
      LiveMember(cs, c);
    }
    if Distinct(cs) {
      LiveDistinct(cs);
    }
  }

  /** The receivers hold what the model says, and none has lost its senders. */
  ghost predicate Mirrors(rxs: seq<Channel>, w: World)
    reads set c | c in rxs
  {
    && Distinct(rxs)
    && |rxs| == |w.queues|
    && forall i :: 0 <= i < |rxs| ==> rxs[i].deque == w.queues[i] && rxs[i].senders > 0
  }

  lemma {:induction false} MirroredPeeks(rxs: seq<Channel>, w: World)
    requires Mirrors(rxs, w)
    ensures AllPeeks(rxs) == Peeks(w.queues)
  {
    assert forall i :: 0 <= i < |rxs| ==> AllPeeks(rxs)[i] == Peeks(w.queues)[i];
  }

  /** One `select!` on the objects is one Select of the model. */
  method SelectStep(rxs: seq<Channel>, ghost w: World) returns (r: Selection)
    requires WorldInv(w) && Mirrors(rxs, w)
    modifies (set c | c in rxs)`deque
    ensures WorldInv(Next(w, Event.Select)) && Mirrors(rxs, Next(w, Event.Select))
    ensures r == Nothing <==> forall i :: 0 <= i < |w.queues| ==> w.queues[i] == []
    ensures r != Nothing ==> r.Got? && Next(w, Event.Select).out == w.out + [r.item]
    ensures r != Nothing ==> w.reached < Next(w, Event.Select).reached <= |w.log|
  {
    MirroredPeeks(rxs, w);
    SelectKeeps(w);
    ChosenIsFirstSmallest(Peeks(w.queues));
    r := Select(rxs);
    if r != Nothing {
      SelectReaches(w);
    }
  }

  /** Once all queues are empty, what has been returned since `w` is all that was outstanding then. */
  lemma {:induction false} AllReturned(w: World, v: World, out: seq<Item>)
    requires WorldInv(w) && WorldInv(v) && v.log == w.log && v.topics == w.topics && v.out == w.out + out
    requires forall i :: 0 <= i < |v.queues| ==> v.queues[i] == []
    ensures out == Picked(w.log, w.reached, |w.log|, TopicSet(w))
  {
    AllEmptyMeansDone(v);
    PickedSplits(w.log, 0, w.reached, |w.log|, TopicSet(w));
    PickedSplits(w.log, 0, v.reached, |w.log|, TopicSet(w));
    var rest := Picked(w.log, w.reached, |w.log|, TopicSet(w));
    assert w.out + out == w.out + rest;
    assert out == (w.out + out)[|w.out|..] == rest;
  }

  /** Selecting until nothing is left returns exactly the messages still outstanding, in dispatch order. */
  method Drain(rxs: seq<Channel>, ghost w: World) returns (out: seq<Item>)
    requires WorldInv(w) && Mirrors(rxs, w)
    modifies (set c | c in rxs)`deque
    ensures out == Picked(w.log, w.reached, |w.log|, TopicSet(w))
    ensures forall c :: c in rxs ==> c.deque == []
  {
    out := [];
    ghost var v := w;
    while true
      invariant WorldInv(v) && Mirrors(rxs, v) && v.log == w.log && v.topics == w.topics && v.out == w.out + out
      decreases |w.log| - v.reached
    {
      var r := SelectStep(rxs, v);
      if r == Nothing {
        AllReturned(w, v, out);
        return;
      }
      v := Next(v, Event.Select);
      out := out + [r.item];
    }
  }

  /** Each receiver is subscribed to its topic, and the dispatcher's counter is the period's. */
  ghost predicate Attached(d: MessageDispatcher, rxs: seq<Channel>, w: World)
    reads d, set c | c in rxs
  {
    && d.Valid() && d.localIndex == |w.log|
    && |rxs| == |w.topics|
    && forall i :: 0 <= i < |rxs| ==>
         rxs[i].receivers > 0 && w.topics[i] in d.subscribers && rxs[i] in d.subscribers[w.topics[i]]
  }

  /** One dispatch on the objects is one Dispatch of the model. */
  method DispatchStep(d: MessageDispatcher, rxs: seq<Channel>, m: Message, ghost w: World) returns (count: nat)
    requires WorldInv(w) && Mirrors(rxs, w) && Attached(d, rxs, w)
    requires forall c :: c in d.Channels() ==> c.senders > 0
    modifies d
    modifies (if m.destination in d.subscribers then set c | c in d.subscribers[m.destination] else {})`deque
    modifies (if m.destination in d.subscribers then set c | c in d.subscribers[m.destination] else {})`senders
    ensures var w' := Next(w, Dispatch(m)); WorldInv(w') && Mirrors(rxs, w') && Attached(d, rxs, w')
  {
    DispatchKeeps(w, m);
    ghost var subs := d.subscribers;
    if m.destination in d.subscribers {
      LiveMembers(d.subscribers[m.destination]);
    }
    count := d.Dispatch(m);
    if m.destination in subs {
      LiveMembers(subs[m.destination]);
    }
    ghost var w' := Next(w, Dispatch(m));
    forall i | 0 <= i < |rxs|
      ensures rxs[i].deque == w'.queues[i] && rxs[i].senders > 0
    {
      if w.topics[i] == m.destination {
        var k :| 0 <= k < |subs[m.destination]| && subs[m.destination][k] == rxs[i];
        assert Served(subs[m.destination][k], Item(|w.log|, m));
      }
    }
  }
}
