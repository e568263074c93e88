/** Messages, their origins and topics. */
module Messages {

  type Path = string

  datatype MessageOrigin =
    | Pallet(name: string)
    | Contract(id: string)
    | Worker(key: string)
    | AccountId(id: string)
    | MultiLocation(location: string)
    | Gatekeeper
    | Cluster(id: string)
    | Reserved
  {
    predicate IsOffchain()
    {
      Cluster? || Contract? || Worker? || Gatekeeper?
    }
  }

  datatype Message = Message(sender: MessageOrigin, destination: Path, payload: string)

  datatype SignedMessage = SignedMessage(message: Message, sequence: nat)

  const RESERVED_BYTES: string := "~!@#$%&*_+-=|<>?,./;:'"

  predicate ValidTopic(p: Path)
  {
    p != "" && p[0] !in RESERVED_BYTES
  }

  predicate OffchainTopic(p: Path)
  {
    ValidTopic(p) && p[0] != '^'
  }
}

/** The off-chain send queue: one channel for each sender, numbered from 0. */
module SendQueue {
  import opened Options
  import opened Messages

  datatype Channel = Channel(sequence: nat, messages: seq<SignedMessage>, dummy: bool)

  type Queue = map<MessageOrigin, Channel>

  function ChannelOf(q: Queue, sender: MessageOrigin): Channel
  {
    if sender in q then q[sender] else Channel(0, [], false)
  }

  /** In dummy mode the number is used up and the message dropped. */
  function Pushed(ch: Channel, m: Message): Channel
  {
    Channel(ch.sequence + 1, if ch.dummy then ch.messages else ch.messages + [SignedMessage(m, ch.sequence)], ch.dummy)
  }

  function Enqueued(q: Queue, m: Message): Queue
  {
    q[m.sender := Pushed(ChannelOf(q, m.sender), m)]
  }

  function DummySet(q: Queue, sender: MessageOrigin, dummy: bool): Queue
  {
    q[sender := ChannelOf(q, sender).(dummy := dummy)]
  }

  /** `retain(|msg| msg.sequence >= from)` */
  function Retained(ms: seq<SignedMessage>, from: nat): seq<SignedMessage>
  {
    if ms == [] then [] else (if ms[0].sequence >= from then [ms[0]] else []) + Retained(ms[1..], from)
  }

  function PurgedChannel(ch: Channel, from: nat): Channel
  {
    ch.(messages := Retained(ch.messages, from))
  }

  function Purged(q: Queue, next: MessageOrigin -> nat): Queue
  {
    map s | s in q :: PurgedChannel(q[s], next(s))
  }

  function Dumped(q: Queue, sender: MessageOrigin): Option<Channel>
  {
    if sender in q then Some(q[sender]) else None
  }

  function Loaded(q: Queue, sender: MessageOrigin, ch: Channel): Queue
  {
    q[sender := ch]
  }

  /* ---------- a channel without gaps ---------- */

  /** The queue holds the last messages pushed, all of them, in order. */
  predicate Gapless(ch: Channel)
  {
    |ch.messages| <= ch.sequence && Consecutive(ch.messages, Oldest(ch))
  }

  predicate Consecutive(ms: seq<SignedMessage>, base: int)
  {
    forall i :: 0 <= i < |ms| ==> ms[i].sequence == base + i
  }

  function Oldest(ch: Channel): int
  {
    ch.sequence - |ch.messages|
  }

  /** How many of `n` consecutive messages from `base` on are numbered below `from`. */
  function Below(base: int, n: nat, from: nat): nat
  {
    if from <= base then 0 else if from >= base + n then n else from - base
  }

  lemma {:induction false} RetainedDrops(ms: seq<SignedMessage>, base: int, from: nat)
    requires Consecutive(ms, base)
    ensures Retained(ms, from) == ms[Below(base, |ms|, from)..]
    decreases |ms|
  {
    if ms != [] {
      RetainedDrops(ms[1..], base + 1, from);
      assert ms[0].sequence == base;
      if base >= from {
        assert [ms[0]] + ms[1..] == ms;
      } else {
        var n := Below(base, |ms|, from);
        assert Below(base + 1, |ms| - 1, from) == n - 1;
        assert ms[1..][n - 1..] == ms[n..];
      }
    }
  }

  lemma {:induction false} DropGapless(ch: Channel, n: nat)
    requires Gapless(ch) && n <= |ch.messages|
    ensures var ch' := ch.(messages := ch.messages[n..]); Gapless(ch') && Oldest(ch') == Oldest(ch) + n
  {
  }

  lemma {:induction false} RetainedGapless(ch: Channel, from: nat)
    requires Gapless(ch)
    ensures var ch' := PurgedChannel(ch, from);
      && Gapless(ch')
      && |ch'.messages| <= |ch.messages|
      && ch'.messages == ch.messages[|ch.messages| - |ch'.messages|..]
      && Oldest(ch') == Max(Oldest(ch), if from <= ch.sequence then from else ch.sequence)
  {
    var n := Below(Oldest(ch), |ch.messages|, from);
    assert PurgedChannel(ch, from) == ch.(messages := ch.messages[n..]) by {
      RetainedDrops(ch.messages, Oldest(ch), from);
    }
    DropGapless(ch, n);
  }

  /* ---------- what each operation does to a channel ---------- */

  lemma {:induction false} RetainedMembers(ms: seq<SignedMessage>, from: nat)
    ensures forall m :: m in Retained(ms, from) <==> m in ms && m.sequence >= from
    decreases |ms|
  {
    if ms != [] {
      RetainedMembers(ms[1..], from);
      assert ms == [ms[0]] + ms[1..];
    }
  }

  /** A purge keeps, in every channel, exactly the messages numbered from the channel's own number on. */
  lemma {:induction false} PurgedExactly(q: Queue, next: MessageOrigin -> nat, sender: MessageOrigin)
    ensures var ch, ch' := ChannelOf(q, sender), ChannelOf(Purged(q, next), sender);
      && (sender in Purged(q, next) <==> sender in q)
      && ch'.sequence == ch.sequence && ch'.dummy == ch.dummy
      && forall m :: m in ch'.messages <==> m in ch.messages && m.sequence >= next(sender)
  {
    RetainedMembers(ChannelOf(q, sender).messages, next(sender));
  }

  /** Pushes on one channel, one after the other. */
  function PushedAll(ch: Channel, ms: seq<Message>): Channel
    decreases |ms|
  {
    if ms == [] then ch else PushedAll(Pushed(ch, ms[0]), ms[1..])
  }

  /**
   In dummy mode pushes use up numbers and queue nothing; otherwise they queue every message under the next
   numbers. Switching the mode changes nothing else, nor any other sender's channel.
   */
  lemma {:induction false} PushesByMode(q: Queue, sender: MessageOrigin, dummy: bool, ms: seq<Message>)
    ensures var ch := ChannelOf(q, sender);
      var ch' := PushedAll(ChannelOf(DummySet(q, sender, dummy), sender), ms);
      && ch'.sequence == ch.sequence + |ms| && ch'.dummy == dummy
      && ch'.messages == ch.messages + if dummy then [] else Numbered(ms, ch.sequence)
    ensures forall s :: s != sender ==> ChannelOf(DummySet(q, sender, dummy), s) == ChannelOf(q, s)
  {
    if dummy {
      DummyPushes(ChannelOf(q, sender).(dummy := true), ms);
    } else {
      LivePushes(ChannelOf(q, sender).(dummy := false), ms);
    }
  }

  function Numbered(ms: seq<Message>, first: nat): seq<SignedMessage>
  {
    seq(|ms|, i requires 0 <= i < |ms| => SignedMessage(ms[i], first + i))
  }

  lemma {:induction false} DummyPushes(ch: Channel, ms: seq<Message>)
    requires ch.dummy
    ensures PushedAll(ch, ms) == ch.(sequence := ch.sequence + |ms|)
    decreases |ms|
  {
    if ms != [] {
      DummyPushes(Pushed(ch, ms[0]), ms[1..]);
    }
  }

  lemma {:induction false} NumberedFromFront(before: seq<SignedMessage>, ms: seq<Message>, first: nat)
    requires ms != []
    ensures before + Numbered(ms, first) == before + [SignedMessage(ms[0], first)] + Numbered(ms[1..], first + 1)
  {
    assert Numbered(ms, first) == [SignedMessage(ms[0], first)] + Numbered(ms[1..], first + 1);
  }

  lemma {:induction false} LivePushes(ch: Channel, ms: seq<Message>)
    requires !ch.dummy
    ensures PushedAll(ch, ms)
         == ch.(sequence := ch.sequence + |ms|, messages := ch.messages + Numbered(ms, ch.sequence))
    decreases |ms|
  {
    if ms == [] {
      assert ch.messages + Numbered(ms, ch.sequence) == ch.messages;
    } else {
      LivePushes(Pushed(ch, ms[0]), ms[1..]);
      NumberedFromFront(ch.messages, ms, ch.sequence);
    }
  }

  /** A dumped channel, loaded anywhere, is the same channel, and no other sender's channel changes. */
  lemma {:induction false} DumpThenLoad(q: Queue, q': Queue, sender: MessageOrigin)
    ensures Dumped(q, sender).Some? <==> sender in q
    ensures sender in q ==>
      var loaded := Loaded(q', sender, Dumped(q, sender).value);
      && ChannelOf(loaded, sender) == ChannelOf(q, sender)
      && forall s :: s != sender ==> ChannelOf(loaded, s) == ChannelOf(q', s)
  {
  }

  /** No message the chain still expects is missing from the queue. */
  predicate NothingLost(ch: Channel, expected: nat)
  {
    !ch.dummy && Gapless(ch) && Oldest(ch) <= expected
  }

  /** A purge loses nothing exactly when it is given no more than the chain expects, or nothing is outstanding. */
  lemma {:induction false} PurgeKeepsIff(ch: Channel, expected: nat, from: nat)
    requires NothingLost(ch, expected)
    ensures NothingLost(PurgedChannel(ch, from), expected) <==> from <= expected || ch.sequence <= expected
  {
    RetainedGapless(ch, from);
  }

  /* ---------- the queue object ---------- */

  class MessageSendQueue {
    var channels: Queue

    constructor ()
      ensures channels == map[]
    {
      channels := map[];
    }

    method EnqueueMessage(m: Message)
      modifies this
      ensures channels == Enqueued(old(channels), m)
    {
      var entry := if m.sender in channels then channels[m.sender] else Channel(0, [], false);
      if !entry.dummy {
        var signed := SignedMessage(m, entry.sequence);
        entry := entry.(messages := entry.messages + [signed]);
      }
      entry := entry.(sequence := entry.sequence + 1);
      channels := channels[m.sender := entry];
    }

    method SetDummyMode(sender: MessageOrigin, dummy: bool)
      modifies this
      ensures channels == DummySet(old(channels), sender, dummy)
    {
      var entry := if sender in channels then channels[sender] else Channel(0, [], false);
      channels := channels[sender := entry.(dummy := dummy)];
    }

    method Retain(ms: seq<SignedMessage>, from: nat) returns (kept: seq<SignedMessage>)
      ensures kept == Retained(ms, from)
    {
      kept := [];
      var k := 0;
      while k < |ms|
        invariant k <= |ms|
        invariant Retained(ms, from) == kept + Retained(ms[k..], from)
      {
        assert ms[k..][1..] == ms[k + 1..];
        if ms[k].sequence >= from {
          kept := kept + [ms[k]];
        }
        k := k + 1;
      }
    }

    method Purge(next: MessageOrigin -> nat)
      modifies this
      ensures channels == Purged(old(channels), next)
    {
      var left := channels.Keys;
      while left != {}
        invariant left <= channels.Keys == old(channels).Keys
        invariant forall s :: s in channels ==>
          channels[s] == if s in left then old(channels)[s] else PurgedChannel(old(channels)[s], next(s))
        decreases |left|
      {
        var s :| s in left;
        var kept := Retain(channels[s].messages, next(s));
        channels := channels[s := channels[s].(messages := kept)];
        left := left - {s};
      }
    }

    method DumpState(sender: MessageOrigin) returns (state: Option<Channel>)
      ensures state == Dumped(channels, sender)
    {
      state := if sender in channels then Some(channels[sender]) else None;
    }

    method LoadState(sender: MessageOrigin, state: Channel)
      modifies this
      ensures channels == Loaded(old(channels), sender, state)
    {
      channels := channels[sender := state];
    }
  }
}

/** The pallet's side: the expected number of each sender, and the messages sent out in each block. */
module MqPallet {
  import opened Messages

  // `notified` is the trace of the messages the chain's own subscribers have been handed.
  datatype Chain = Chain(
    ingress: map<MessageOrigin, nat>,
    queued: seq<Message>,
    outbound: seq<Message>,
    notified: seq<Message>)

  datatype SyncError = BadOrigin | BadSender | BadDestination | BadSequence | BadSignature

  datatype SyncResult = Accepted(chain: Chain) | Refused(error: SyncError)

  function Expected(c: Chain, sender: MessageOrigin): nat
  {
    if sender in c.ingress then c.ingress[sender] else 0
  }

  function MessageDispatched(c: Chain, m: Message): Chain
  {
    var c' := c.(notified := c.notified + [m]);
    if OffchainTopic(m.destination) then c'.(outbound := c.outbound + [m]) else c'
  }

  function Synced(c: Chain, m: SignedMessage, originSigned: bool, signatureValid: bool): SyncResult
  {
    var sender := m.message.sender;
    if !originSigned then Refused(BadOrigin)
    else if !sender.IsOffchain() then Refused(BadSender)
    else if !ValidTopic(m.message.destination) then Refused(BadDestination)
    else if m.sequence != Expected(c, sender) then Refused(BadSequence)
    else if !signatureValid then Refused(BadSignature)
    else Accepted(MessageDispatched(c.(ingress := c.ingress[sender := Expected(c, sender) + 1]), m.message))
  }

  /** The messages of a list that leave the chain, in order. */
  function Outgoing(ms: seq<Message>): seq<Message>
  {
    if ms == [] then []
    else Outgoing(ms[..|ms| - 1]) + if OffchainTopic(ms[|ms| - 1].destination) then [ms[|ms| - 1]] else []
  }

  /** A block starts with the messages queued before: subscribers get all of them, in order, the outside its share. */
  function BlockStarted(c: Chain): Chain
  {
    c.(queued := [], outbound := Outgoing(c.queued), notified := c.notified + c.queued)
  }

  /** Topics that leave the chain: neither empty, nor reserved, nor marked as on-chain only. */
  lemma {:induction false} TopicsThatLeave(p: Path)
    ensures OffchainTopic(p) <==>
      |p| > 0 && p[0] !in {'^', '~', '!', '@', '#', '$', '%', '&', '*', '_', '+', '-', '=', '|', '<', '>', '?', ',',
                           '.', '/', ';', ':', '\''}
    ensures ValidTopic(p) <==> OffchainTopic(p) || (|p| > 0 && p[0] == '^')
  {
    ReservedAre();
  }

  lemma {:induction false} ReservedAre()
    ensures forall c :: c in RESERVED_BYTES <==>
      c in {'~', '!', '@', '#', '$', '%', '&', '*', '_', '+', '-', '=', '|', '<', '>', '?', ',', '.', '/', ';', ':',
            '\''}
  {
    assert RESERVED_BYTES == ['~', '!', '@', '#', '$', '%', '&', '*', '_', '+', '-', '=', '|', '<', '>', '?', ',', '.',
                              '/', ';', ':', '\''];
  }

  /** When a message is accepted, and what that does: counted, handed on once, and sent out if its topic leaves. */
  lemma {:induction false} SyncedExactly(c: Chain, m: SignedMessage, originSigned: bool, signatureValid: bool)
    ensures var r, sender := Synced(c, m, originSigned, signatureValid), m.message.sender;
      && (r.Accepted? <==>
            && originSigned && (sender.Cluster? || sender.Contract? || sender.Worker? || sender.Gatekeeper?)
            && ValidTopic(m.message.destination) && m.sequence == Expected(c, sender) && signatureValid)
      && (r.Accepted? ==>
            && r.chain.notified == c.notified + [m.message] && r.chain.queued == c.queued
            && r.chain.outbound == c.outbound + (if m.message.destination[0] == '^' then [] else [m.message])
            && forall s :: Expected(r.chain, s) == Expected(c, s) + if s == sender then 1 else 0)
  {
    TopicsThatLeave(m.message.destination);
  }

  lemma {:induction false} OutgoingConcat(a: seq<Message>, b: seq<Message>)
    ensures Outgoing(a + b) == Outgoing(a) + Outgoing(b)
    decreases |b|
  {
    if b == [] {
      assert a + b == a;
    } else {
      assert (a + b)[..|a + b| - 1] == a + b[..|b| - 1];
      OutgoingConcat(a, b[..|b| - 1]);
    }
  }

  /** A queued message is handed on and sent out in the next block, behind those queued before, and only then. */
  lemma {:induction false} QueuedForOneBlock(c: Chain, m: Message)
    ensures var c' := BlockStarted(c.(queued := c.queued + [m]));
      && c'.notified == c.notified + c.queued + [m]
      && c'.outbound == BlockStarted(c).outbound + (if OffchainTopic(m.destination) then [m] else [])
      && BlockStarted(c') == c'.(outbound := [])
  {
    OutgoingConcat(c.queued, [m]);
    assert [m][..0] == [];
    assert c.notified + (c.queued + [m]) == c.notified + c.queued + [m];
  }

  class MqStorage {
    var ingress: map<MessageOrigin, nat>
    var queued: seq<Message>
    var outbound: seq<Message>
    ghost var notified: seq<Message>

    ghost function View(): Chain
      reads this
    {
      Chain(ingress, queued, outbound, notified)
    }

    /** An accepted message is free of charge for the gatekeeper. */
    method SyncOffchainMessage(m: SignedMessage, originSigned: bool, signatureValid: bool)
      returns (accepted: bool, error: SyncError, paysFee: bool)
      modifies this
      ensures match Synced(old(View()), m, originSigned, signatureValid)
        case Accepted(c) => accepted && View() == c
        case Refused(e) => !accepted && error == e && View() == old(View())
      ensures paysFee <==> !(accepted && m.message.sender == Gatekeeper)
    {
      accepted, error, paysFee := false, BadOrigin, true;
      if !originSigned {
        return;
      }
      error := BadSender;
      var sender := m.message.sender;
      if !sender.IsOffchain() {
        return;
      }
      if !ValidTopic(m.message.destination) {
        error := BadDestination;
        return;
      }
      var expected := if sender in ingress then ingress[sender] else 0;
      if m.sequence != expected {
        error := BadSequence;
        return;
      }
      if !signatureValid {
        error := BadSignature;
        return;
      }
      ingress := ingress[sender := expected + 1];
      DispatchMessage(m.message);
      accepted, paysFee := true, !sender.Gatekeeper?;
    }

    method DispatchMessage(m: Message)
      modifies this`outbound, this`notified
      ensures View() == MessageDispatched(old(View()), m)
    {
      notified := notified + [m];
      if OffchainTopic(m.destination) {
        outbound := outbound + [m];
      }
    }

    method QueueBoundMessage(m: Message)
      modifies this`queued
      ensures View() == old(View()).(queued := old(queued) + [m])
    {
      queued := queued + [m];
    }

    /** A new block starts with exactly what was queued during the last one, in order. */
    method OnInitialize()
      modifies this`queued, this`outbound, this`notified
      ensures View() == BlockStarted(old(View()))
    {
      outbound := [];
      var msgs := queued;
      queued := [];
      for k := 0 to |msgs|
        invariant outbound == Outgoing(msgs[..k]) && notified == old(notified) + msgs[..k]
        invariant queued == [] && ingress == old(ingress)
      {
        assert msgs[..k + 1] == msgs[..k] + [msgs[k]];
        assert msgs[..k + 1][..k] == msgs[..k];
        DispatchMessage(msgs[k]);
      }
      assert msgs[..|msgs|] == msgs;
    }
  }
}
