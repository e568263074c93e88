/**
 The ingress protocol: replicas that share origins push, purge, toggle dummy mode and pass channel states
 around, while a relayer resubmits and reorders what they have signed; the chain accepts each number once.
 */
module IngressProtocol {
  import opened Options
  import opened Messages
  import opened SendQueue
  import opened MqPallet

  type ReplicaId(==, !new)

  /** All messages pushed on one channel so far, dummy mode or not; a loaded channel brings its own. */
  type History = seq<Message>

  datatype Line = Line(channel: Channel, pushes: History)

  /** A replica: its send queue and, for each sender, the pushes behind the channel. */
  datatype Replica = Replica(queue: Queue, pushes: map<MessageOrigin, History>)

  datatype World = World(
    replicas: map<ReplicaId, Replica>,
    dumps: set<(MessageOrigin, Line)>,
    chain: Chain,
    // History: what was signed, every push history some replica has had, and what the chain took.
    signed: set<SignedMessage>,
    histories: set<(MessageOrigin, History)>,
    accepted: seq<SignedMessage>)

  datatype Event =
    | Push(r: ReplicaId, m: Message)
    | SetDummy(r: ReplicaId, sender: MessageOrigin, dummy: bool)
    | Purge(r: ReplicaId, next: MessageOrigin -> nat)
    | Dump(r: ReplicaId, sender: MessageOrigin)
    | Load(r: ReplicaId, sender: MessageOrigin, line: Line)
    | Submit(signed: SignedMessage)
    | NextBlock

  function Initial(): World
  {
    World(map[], {}, Chain(map[], [], [], []), {}, {}, [])
  }

  function ReplicaOf(w: World, r: ReplicaId): Replica
  {
    if r in w.replicas then w.replicas[r] else Replica(map[], map[])
  }

  function PushesOf(p: Replica, sender: MessageOrigin): History
  {
    if sender in p.pushes then p.pushes[sender] else []
  }

  /** Only a state that was dumped can be loaded. */
  predicate Enabled(w: World, e: Event)
  {
    e.Load? ==> (e.sender, e.line) in w.dumps
  }

  function Next(w: World, e: Event): World
  {
    match e
    case Push(r, m) =>
      var p := ReplicaOf(w, r);
      var ch := ChannelOf(p.queue, m.sender);
      var pushes := PushesOf(p, m.sender) + [m];
      w.(replicas := w.replicas[r := Replica(Enqueued(p.queue, m), p.pushes[m.sender := pushes])],
         histories := w.histories + {(m.sender, pushes)},
         signed := if ch.dummy then w.signed else w.signed + {SignedMessage(m, ch.sequence)})
    case SetDummy(r, sender, dummy) =>
      var p := ReplicaOf(w, r);
      w.(replicas := w.replicas[r := p.(queue := DummySet(p.queue, sender, dummy))])
    case Purge(r, next) =>
      var p := ReplicaOf(w, r);
      w.(replicas := w.replicas[r := p.(queue := Purged(p.queue, next))])
    case Dump(r, sender) =>
      var p := ReplicaOf(w, r);
      (match Dumped(p.queue, sender)
       case None => w
       case Some(ch) => w.(dumps := w.dumps + {(sender, Line(ch, PushesOf(p, sender)))}))
    case Load(r, sender, line) =>
      var p := ReplicaOf(w, r);
      w.(replicas := w.replicas[r := Replica(Loaded(p.queue, sender, line.channel), p.pushes[sender := line.pushes])])
    case Submit(m) =>
      // Signatures cannot be forged: a signature is valid only on what some replica has signed.
      (match Synced(w.chain, m, true, m in w.signed)
       case Accepted(c) => w.(chain := c, accepted := w.accepted + [m])
       case Refused(_) => w)
    case NextBlock => w.(chain := BlockStarted(w.chain))
  }

  predicate Legal(w: World, es: seq<Event>)
    decreases |es|
  {
    es == [] || (Enabled(w, es[0]) && Legal(Next(w, es[0]), es[1..]))
  }

  function Run(w: World, es: seq<Event>): World
    requires Legal(w, es)
    decreases |es|
  {
    if es == [] then w else Run(Next(w, es[0]), es[1..])
  }

  /** The accepted messages of one origin, in order. */
  function AcceptedFrom(ms: seq<SignedMessage>, sender: MessageOrigin): seq<SignedMessage>
  {
    if ms == [] then []
    else AcceptedFrom(ms[..|ms| - 1], sender) + if ms[|ms| - 1].message.sender == sender then [ms[|ms| - 1]] else []
  }

  /* ---------- exactly once, in order ---------- */

  /** A channel counts the pushes behind it. */
  ghost predicate Counted(w: World)
  {
    && (forall r, s :: r in w.replicas ==> |PushesOf(w.replicas[r], s)| == ChannelOf(w.replicas[r].queue, s).sequence)
    && (forall d :: d in w.dumps ==> |d.1.pushes| == d.1.channel.sequence)
  }

  /** A message is the push of its own number in some replica's history. */
  ghost predicate IsPush(w: World, m: SignedMessage)
  {
    exists h :: (m.message.sender, h) in w.histories && m.sequence < |h| && h[m.sequence] == m.message
  }

  ghost predicate LogRight(w: World, sender: MessageOrigin)
  {
    var log := AcceptedFrom(w.accepted, sender);
    && |log| == Expected(w.chain, sender)
    && forall s :: 0 <= s < |log| ==> log[s].sequence == s && log[s].message.sender == sender && log[s] in w.signed
  }

  ghost predicate WorldInv(w: World)
  {
    && Counted(w)
    && (forall m :: m in w.signed ==> IsPush(w, m))
    && (forall s :: LogRight(w, s))
  }

  lemma {:induction false} ReplicaCounted(w: World, e: Event, r: ReplicaId, s: MessageOrigin)
    requires Counted(w) && Enabled(w, e) && r in Next(w, e).replicas
    ensures var p := Next(w, e).replicas[r]; |PushesOf(p, s)| == ChannelOf(p.queue, s).sequence
  {
    assert |PushesOf(ReplicaOf(w, r), s)| == ChannelOf(ReplicaOf(w, r).queue, s).sequence;
    if e.Load? {
      var d := (e.sender, e.line);
      assert d in w.dumps && d.1 == e.line;
    }
  }

  lemma {:induction false} NextCounted(w: World, e: Event)
    requires Counted(w) && Enabled(w, e)
    ensures Counted(Next(w, e))
  {
    var w' := Next(w, e);
    forall r, s | r in w'.replicas
      ensures |PushesOf(w'.replicas[r], s)| == ChannelOf(w'.replicas[r].queue, s).sequence
    {
      ReplicaCounted(w, e, r, s);
    }
    forall d | d in w'.dumps
      ensures |d.1.pushes| == d.1.channel.sequence
    {
      if d !in w.dumps {
        assert d.1 == Line(ChannelOf(ReplicaOf(w, e.r).queue, e.sender), PushesOf(ReplicaOf(w, e.r), e.sender));
      }
    }
  }

  lemma {:induction false} NextSigned(w: World, e: Event)
    requires Counted(w) && Enabled(w, e) && forall m :: m in w.signed ==> IsPush(w, m)
    ensures forall m :: m in Next(w, e).signed ==> IsPush(Next(w, e), m)
  {
    var w' := Next(w, e);
    forall m | m in w'.signed
      ensures IsPush(w', m)
    {
      if m in w.signed {
        var h :| (m.message.sender, h) in w.histories && m.sequence < |h| && h[m.sequence] == m.message;
        assert (m.message.sender, h) in w'.histories;
      } else {
        var pushes := PushesOf(ReplicaOf(w, e.r), m.message.sender) + [m.message];
        assert (m.message.sender, pushes) in w'.histories;
        assert m.sequence == |pushes| - 1;
      }
    }
  }

  lemma {:induction false} NextLog(w: World, e: Event, sender: MessageOrigin)
    requires LogRight(w, sender)
    ensures LogRight(Next(w, e), sender)
  {
    if e.Submit? && Synced(w.chain, e.signed, true, e.signed in w.signed).Accepted? {
      assert (w.accepted + [e.signed])[..|w.accepted|] == w.accepted;
    }
  }

  lemma {:induction false} NextKeeps(w: World, e: Event)
    requires WorldInv(w) && Enabled(w, e)
    ensures WorldInv(Next(w, e))
  {
    NextCounted(w, e);
    NextSigned(w, e);
    forall s
      ensures LogRight(Next(w, e), s)
    {
      NextLog(w, e, s);
    }
  }

  lemma {:induction false} RunKeeps(w: World, es: seq<Event>)
    requires WorldInv(w) && Legal(w, es)
    ensures WorldInv(Run(w, es))
    decreases |es|
  {
    if es != [] {
      NextKeeps(w, es[0]);
      RunKeeps(Next(w, es[0]), es[1..]);
    }
  }

  /**
   Exactly once, in order: in every run, the chain's log for an origin has one entry for each number below
   the expected one, in order, and entry s is the s-th push in some replica's history.
   */
  lemma {:induction false} ExactlyOnceInOrder(es: seq<Event>, sender: MessageOrigin, s: nat)
    requires Legal(Initial(), es)
    ensures var w := Run(Initial(), es);
      var log := AcceptedFrom(w.accepted, sender);
      && |log| == Expected(w.chain, sender)
      && (s < |log| ==> log[s].sequence == s && IsPush(w, log[s]))
  {
    RunKeeps(Initial(), es);
    assert LogRight(Run(Initial(), es), sender);
  }

  /** Replicas that push the same messages put exactly that common sequence on the chain. */
  lemma {:induction false} ReplicasAgree(es: seq<Event>, sender: MessageOrigin, common: History)
    requires Legal(Initial(), es)
    requires forall h :: (sender, h) in Run(Initial(), es).histories ==> h <= common
    ensures var w := Run(Initial(), es);
      var log := AcceptedFrom(w.accepted, sender);
      |log| <= |common| && forall s :: 0 <= s < |log| ==> log[s] == SignedMessage(common[s], s)
  {
    var w := Run(Initial(), es);
    RunKeeps(Initial(), es);
    assert LogRight(w, sender);
    var log := AcceptedFrom(w.accepted, sender);
    forall s | 0 <= s < |log|
      ensures s < |common| && log[s] == SignedMessage(common[s], s)
    {
      assert IsPush(w, log[s]);
      var h :| (sender, h) in w.histories && s < |h| && h[s] == log[s].message;
    }
    if |log| > 0 {
      var last := log[|log| - 1];
      assert last == SignedMessage(common[|log| - 1], |log| - 1);
    }
  }

  /* ---------- everything queued is signed ---------- */

  /** Every message in a queue or a dumped channel carries a signature: none was pushed in dummy mode. */
  ghost predicate QueuesSigned(w: World)
  {
    && (forall r, s, m :: r in w.replicas && m in ChannelOf(w.replicas[r].queue, s).messages ==> m in w.signed)
    && (forall d, m :: d in w.dumps && m in d.1.channel.messages ==> m in w.signed)
  }

  lemma {:induction false} ReplicaSigned(w: World, e: Event, r: ReplicaId, s: MessageOrigin, m: SignedMessage)
    requires QueuesSigned(w) && Enabled(w, e) && r in Next(w, e).replicas
    requires m in ChannelOf(Next(w, e).replicas[r].queue, s).messages
    ensures m in Next(w, e).signed
  {
    if m in ChannelOf(ReplicaOf(w, r).queue, s).messages {
    } else if e.Load? {
      var d := (e.sender, e.line);
      assert d in w.dumps && m in d.1.channel.messages;
    } else if e.Purge? {
      PurgedExactly(ReplicaOf(w, r).queue, e.next, s);
    }
  }

  lemma {:induction false} DumpSigned(w: World, e: Event, d: (MessageOrigin, Line), m: SignedMessage)
    requires QueuesSigned(w) && Enabled(w, e) && d in Next(w, e).dumps && m in d.1.channel.messages
    ensures m in Next(w, e).signed
  {
    if d !in w.dumps {
      assert e.Dump? && e.r in w.replicas;
      assert d.1.channel == ChannelOf(w.replicas[e.r].queue, e.sender);
    }
  }

  lemma {:induction false} SignedOverRun(w: World, es: seq<Event>)
    requires QueuesSigned(w) && Legal(w, es)
    ensures QueuesSigned(Run(w, es))
    decreases |es|
  {
    if es != [] {
      var w' := Next(w, es[0]);
      forall r, s, m | r in w'.replicas && m in ChannelOf(w'.replicas[r].queue, s).messages
        ensures m in w'.signed
      {
        ReplicaSigned(w, es[0], r, s, m);
      }
      forall d, m | d in w'.dumps && m in d.1.channel.messages
        ensures m in w'.signed
      {
        DumpSigned(w, es[0], d, m);
      }
      SignedOverRun(w', es[1..]);
    }
  }

  /* ---------- nothing is lost before it is accepted ---------- */

  /** A channel holds, signed, every push the chain still expects, in order. */
  ghost predicate LineComplete(w: World, sender: MessageOrigin, line: Line)
  {
    && NothingLost(line.channel, Expected(w.chain, sender))
    && |line.pushes| == line.channel.sequence
    && forall i :: 0 <= i < |line.channel.messages| ==>
         var m := line.channel.messages[i];
         m in w.signed && m.message.sender == sender && m.message == line.pushes[m.sequence]
  }

  function LineOf(p: Replica, sender: MessageOrigin): Line
  {
    Line(ChannelOf(p.queue, sender), PushesOf(p, sender))
  }

  ghost predicate Complete(w: World, sender: MessageOrigin)
  {
    && (forall r :: r in w.replicas ==> LineComplete(w, sender, LineOf(w.replicas[r], sender)))
    && (forall d :: d in w.dumps && d.0 == sender ==> LineComplete(w, sender, d.1))
  }

  /** Events that keep a sender's channels out of dummy mode and purge only what the chain has passed. */
  predicate Careful(w: World, e: Event, sender: MessageOrigin)
  {
    && (e.SetDummy? && e.sender == sender ==> !e.dummy)
    && (e.Purge? ==> e.next(sender) <= Expected(w.chain, sender))
  }

  lemma {:induction false} LineSurvives(w: World, e: Event, sender: MessageOrigin, line: Line)
    requires LineComplete(w, sender, line)
    ensures LineComplete(Next(w, e), sender, line)
  {
  }

  lemma {:induction false} PushKeepsLine(w: World, sender: MessageOrigin, line: Line, m: Message, w': World)
    requires LineComplete(w, sender, line) && m.sender == sender
    requires w'.chain == w.chain && w'.signed == w.signed + {SignedMessage(m, line.channel.sequence)}
    ensures LineComplete(w', sender, Line(Pushed(line.channel, m), line.pushes + [m]))
  {
    var ch := Pushed(line.channel, m);
    forall i | 0 <= i < |ch.messages|
      ensures ch.messages[i].sequence == ch.sequence - |ch.messages| + i
    {
      if i < |line.channel.messages| {
        assert ch.messages[i] == line.channel.messages[i];
      }
    }
  }

  lemma {:induction false} PurgeKeepsLine(w: World, sender: MessageOrigin, line: Line, from: nat)
    requires LineComplete(w, sender, line) && from <= Expected(w.chain, sender)
    ensures LineComplete(w, sender, line.(channel := PurgedChannel(line.channel, from)))
  {
    RetainedGapless(line.channel, from);
    PurgeKeepsIff(line.channel, Expected(w.chain, sender), from);
  }

  lemma {:induction false} PushActor(w: World, r: ReplicaId, m: Message, sender: MessageOrigin)
    requires LineComplete(w, sender, LineOf(ReplicaOf(w, r), sender))
    ensures var w' := Next(w, Push(r, m)); LineComplete(w', sender, LineOf(w'.replicas[r], sender))
  {
    var w', line := Next(w, Push(r, m)), LineOf(ReplicaOf(w, r), sender);
    if m.sender == sender {
      PushKeepsLine(w, sender, line, m, w');
    } else {
      LineSurvives(w, Push(r, m), sender, line);
    }
  }

  lemma {:induction false} PurgeActor(w: World, r: ReplicaId, next: MessageOrigin -> nat, sender: MessageOrigin)
    requires LineComplete(w, sender, LineOf(ReplicaOf(w, r), sender)) && next(sender) <= Expected(w.chain, sender)
    ensures var w' := Next(w, Purge(r, next)); LineComplete(w', sender, LineOf(w'.replicas[r], sender))
  {
    var p := ReplicaOf(w, r);
    var w', line := Next(w, Purge(r, next)), LineOf(p, sender);
    LineSurvives(w, Purge(r, next), sender, line);
    if sender in p.queue {
      PurgeKeepsLine(w', sender, line, next(sender));
      assert LineOf(w'.replicas[r], sender) == line.(channel := PurgedChannel(line.channel, next(sender)));
    }
  }

  /** The line of the replica an event acts on stays complete. */
  lemma {:induction false} ActorKeepsLine(w: World, e: Event, sender: MessageOrigin)
    requires Complete(w, sender) && Enabled(w, e) && Careful(w, e, sender)
    requires !e.Submit? && !e.NextBlock? && !e.Dump?
    ensures LineComplete(Next(w, e), sender, LineOf(Next(w, e).replicas[e.r], sender))
  {
    var line := LineOf(ReplicaOf(w, e.r), sender);
    assert LineComplete(w, sender, line);
    match e
    case Push(r, m) =>
      PushActor(w, r, m, sender);
    case SetDummy(r, s, dummy) =>
      LineSurvives(w, e, sender, line);
    case Purge(r, next) =>
      PurgeActor(w, r, next, sender);
    case Load(r, s, l) =>
      assert (s, l).1 == l;
      LineSurvives(w, e, sender, if s == sender then l else line);
  }

  lemma {:induction false} NextComplete(w: World, e: Event, sender: MessageOrigin)
    requires Complete(w, sender) && Enabled(w, e) && Careful(w, e, sender)
    ensures Complete(Next(w, e), sender)
  {
    var w' := Next(w, e);
    forall r | r in w'.replicas
      ensures LineComplete(w', sender, LineOf(w'.replicas[r], sender))
    {
      if !e.Submit? && !e.NextBlock? && !e.Dump? && r == e.r {
        ActorKeepsLine(w, e, sender);
      } else {
        LineSurvives(w, e, sender, LineOf(w.replicas[r], sender));
      }
    }
    forall d | d in w'.dumps && d.0 == sender
      ensures LineComplete(w', sender, d.1)
    {
      if d in w.dumps {
        LineSurvives(w, e, sender, d.1);
      } else {
        assert e.Dump? && d.1 == LineOf(ReplicaOf(w, e.r), sender);
        LineSurvives(w, e, sender, d.1);
      }
    }
  }

  predicate CarefulRun(w: World, es: seq<Event>, sender: MessageOrigin)
    requires Legal(w, es)
    decreases |es|
  {
    es != [] ==> Careful(w, es[0], sender) && CarefulRun(Next(w, es[0]), es[1..], sender)
  }

  /**
   No loss: in every run without dummy mode for an origin, whose purges never pass the chain, each replica
   still queues, in order and without gaps, every push the chain has not accepted.
   */
  lemma {:induction false} NothingLostOverRun(w: World, es: seq<Event>, sender: MessageOrigin)
    requires Legal(w, es) && CarefulRun(w, es, sender) && Complete(w, sender)
    ensures Complete(Run(w, es), sender)
    decreases |es|
  {
    if es != [] {
      NextComplete(w, es[0], sender);
      NothingLostOverRun(Next(w, es[0]), es[1..], sender);
    }
  }

  /** The pushes a channel has that the chain has not: each is in the queue at its place. */
  lemma {:induction false} OutstandingIsQueued(w: World, sender: MessageOrigin, line: Line, s: nat)
    requires LineComplete(w, sender, line) && Expected(w.chain, sender) <= s < line.channel.sequence
    ensures SignedMessage(line.pushes[s], s) in line.channel.messages
  {
    var m := line.channel.messages[s - Oldest(line.channel)];
    assert m == SignedMessage(line.pushes[s], s);
  }

  /**
   No loss before acceptance, from the very beginning: after any careful run, every push of a replica that
   the chain has not accepted is in the replica's queue under its number, and the queue has no gaps.
   */
  lemma {:induction false} NothingLostBeforeAcceptance(es: seq<Event>, sender: MessageOrigin, r: ReplicaId, s: nat)
    requires Legal(Initial(), es) && CarefulRun(Initial(), es, sender) && r in Run(Initial(), es).replicas
    ensures var w := Run(Initial(), es);
      var ch, pushes := ChannelOf(w.replicas[r].queue, sender), PushesOf(w.replicas[r], sender);
      && Gapless(ch) && |pushes| == ch.sequence
      && (Expected(w.chain, sender) <= s < |pushes| ==> SignedMessage(pushes[s], s) in ch.messages)
  {
    var w := Run(Initial(), es);
    NothingLostOverRun(Initial(), es, sender);
    var line := LineOf(w.replicas[r], sender);
    assert LineComplete(w, sender, line);
    if Expected(w.chain, sender) <= s < |line.pushes| {
      OutstandingIsQueued(w, sender, line, s);
    }
  }

  /** Relaying a complete queue from the expected number on brings the chain level with the channel. */
  function Relay(ms: seq<SignedMessage>): seq<Event>
  {
    seq(|ms|, i requires 0 <= i < |ms| => Submit(ms[i]))
  }

  lemma {:induction false} RelayCatchesUp(w: World, sender: MessageOrigin, line: Line)
    requires sender.IsOffchain() && LineComplete(w, sender, line) && Expected(w.chain, sender) <= line.channel.sequence
    requires forall i :: 0 <= i < |line.channel.messages| ==> ValidTopic(line.channel.messages[i].message.destination)
    ensures var outstanding := line.channel.messages[Expected(w.chain, sender) - Oldest(line.channel)..];
      && Legal(w, Relay(outstanding))
      && Expected(Run(w, Relay(outstanding)).chain, sender) == line.channel.sequence
    decreases line.channel.sequence - Expected(w.chain, sender)
  {
    var k := Expected(w.chain, sender) - Oldest(line.channel);
    var outstanding := line.channel.messages[k..];
    if outstanding != [] {
      var m := outstanding[0];
      assert m == line.channel.messages[k];
      var w' := Next(w, Submit(m));
      assert Expected(w'.chain, sender) == Expected(w.chain, sender) + 1;
      LineSurvives(w, Submit(m), sender, line);
      RelayCatchesUp(w', sender, line);
      assert Relay(outstanding)[1..] == Relay(outstanding[1..]);
      assert outstanding[1..] == line.channel.messages[k + 1..];
    }
  }
}
