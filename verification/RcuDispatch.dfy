/**
 Read-copy-update block dispatch: the state is cloned, blocks run on the clone without the lock, side
 effects of queries queue up meanwhile, and at the end the clone replaces the state and the queued
 effects are replayed. Every interleaving equals one serial order.
 */
module RcuDispatch {
  import opened Options

  type Sys(!new)
  type Blocks(!new)
  type Effect(!new)

  const MAX_PENDING: nat := 64

  /** What running blocks and applying an effect do to the system. */
  datatype Semantics = Semantics(run: (Sys, Blocks) -> Sys, apply: (Sys, Effect) -> Sys)

  datatype Phactory = Phactory(sys: Sys, dispatching: bool, pending: seq<Effect>)

  /** A dispatch on its clone; `worked` once the blocks have run. */
  datatype Flight = Flight(copy: Phactory, blocks: Blocks, worked: bool)

  datatype World = World(live: Phactory, flights: seq<Flight>)

  datatype Event =
    | Locked(blocks: Blocks)
    | Begin(blocks: Blocks)
    | Work
    | Finish
    | Arrive(effect: Effect)

  /* ---------- the implementation ---------- */

  function EffectApplied(f: Semantics, p: Phactory, e: Effect): Phactory
  {
    if p.dispatching then (if |p.pending| >= MAX_PENDING then p else p.(pending := p.pending + [e]))
    else p.(sys := f.apply(p.sys, e))
  }

  function Replayed(f: Semantics, p: Phactory, es: seq<Effect>): Phactory
    decreases |es|
  {
    if es == [] then p else Replayed(f, EffectApplied(f, p, es[0]), es[1..])
  }

  /** The clone comes back; its flag and its empty list of effects come with it. */
  function WrittenBack(f: Semantics, live: Phactory, copy: Phactory): Phactory
  {
    Replayed(f, copy, live.pending)
  }

  /** A dispatch is refused while another is marked as running. */
  function Next(f: Semantics, w: World, e: Event): World
  {
    match e
    case Locked(blocks) =>
      if w.live.dispatching then w else w.(live := w.live.(sys := f.run(w.live.sys, blocks)))
    case Begin(blocks) =>
      if w.live.dispatching then w
      else w.(live := w.live.(dispatching := true), flights := w.flights + [Flight(w.live, blocks, false)])
    case Work =>
      if w.flights == [] || w.flights[0].worked then w
      else
        var t := w.flights[0];
        w.(flights := [t.(copy := t.copy.(sys := f.run(t.copy.sys, t.blocks)), worked := true)] + w.flights[1..])
    case Finish =>
      if w.flights == [] || !w.flights[0].worked then w
      else World(WrittenBack(f, w.live, w.flights[0].copy), w.flights[1..])
    case Arrive(effect) => w.(live := EffectApplied(f, w.live, effect))
  }

  function Run(f: Semantics, w: World, es: seq<Event>): World
  {
    if es == [] then w else Next(f, Run(f, w, es[..|es| - 1]), es[|es| - 1])
  }

  function Initial(sys: Sys): World
  {
    World(Phactory(sys, false, []), [])
  }

  /* ---------- the serial order ---------- */

  datatype Op = DispatchOp(blocks: Blocks) | EffectOp(effect: Effect)

  function Exec(f: Semantics, sys: Sys, ops: seq<Op>): Sys
  {
    if ops == [] then sys
    else
      var before := Exec(f, sys, ops[..|ops| - 1]);
      match ops[|ops| - 1]
      case DispatchOp(blocks) => f.run(before, blocks)
      case EffectOp(effect) => f.apply(before, effect)
  }

  /** A dispatch not yet finished, with the effects that have arrived during it. */
  datatype Open = Open(blocks: Blocks, worked: bool, arrived: seq<Effect>)

  datatype Serial = Serial(ops: seq<Op>, open: Option<Open>)

  function AsOps(es: seq<Effect>): seq<Op>
  {
    seq(|es|, i requires 0 <= i < |es| => EffectOp(es[i]))
  }

  /**
   The serial order read off the events alone: a dispatch takes effect when it finishes, followed by the
   effects that arrived during it; an effect outside any dispatch takes effect at once.
   */
  function Serialised(es: seq<Event>): Serial
  {
    if es == [] then Serial([], None) else Extended(Serialised(es[..|es| - 1]), es[|es| - 1])
  }

  function Extended(s: Serial, e: Event): Serial
  {
    match e
    case Locked(blocks) => if s.open.Some? then s else s.(ops := s.ops + [DispatchOp(blocks)])
    case Begin(blocks) => if s.open.Some? then s else s.(open := Some(Open(blocks, false, [])))
    case Work => if s.open.None? then s else s.(open := Some(s.open.value.(worked := true)))
    case Finish =>
      if s.open.None? || !s.open.value.worked then s
      else Serial(s.ops + [DispatchOp(s.open.value.blocks)] + AsOps(s.open.value.arrived), None)
    case Arrive(effect) =>
      if s.open.None? then s.(ops := s.ops + [EffectOp(effect)])
      else if |s.open.value.arrived| >= MAX_PENDING then s
      else s.(open := Some(s.open.value.(arrived := s.open.value.arrived + [effect])))
  }

  /* ---------- every interleaving is serial ---------- */

  /** The implementation's state, told from the serial order. */
  ghost predicate Matches(f: Semantics, sys: Sys, w: World, s: Serial)
  {
    var now := Exec(f, sys, s.ops);
    && w.live.sys == now
    && match s.open
       case None => w.flights == [] && w.live == Phactory(now, false, [])
       case Some(o) =>
         && w.live == Phactory(now, true, o.arrived)
         && var copy := Phactory(if o.worked then f.run(now, o.blocks) else now, false, []);
            w.flights == [Flight(copy, o.blocks, o.worked)]
  }

  lemma {:induction false} ExecSnoc(f: Semantics, sys: Sys, ops: seq<Op>, op: Op)
    ensures Exec(f, sys, ops + [op])
         == (match op case DispatchOp(blocks) => f.run(Exec(f, sys, ops), blocks)
                      case EffectOp(effect) => f.apply(Exec(f, sys, ops), effect))
  {
    assert (ops + [op])[..|ops|] == ops;
  }

  lemma {:induction false} ReplayIsExec(f: Semantics, sys: Sys, ops: seq<Op>, es: seq<Effect>)
    ensures Replayed(f, Phactory(Exec(f, sys, ops), false, []), es)
         == Phactory(Exec(f, sys, ops + AsOps(es)), false, [])
    decreases |es|
  {
    if es == [] {
      assert ops + AsOps(es) == ops;
    } else {
      ExecSnoc(f, sys, ops, EffectOp(es[0]));
      ReplayIsExec(f, sys, ops + [EffectOp(es[0])], es[1..]);
      assert ops + AsOps(es) == ops + [EffectOp(es[0])] + AsOps(es[1..]);
    }
  }

  /**
   Serialisability: after any sequence of steps the shared state is that of the serial order, and at most
   one dispatch is in flight.
   */
  lemma {:induction false} EveryRunIsSerial(f: Semantics, sys: Sys, es: seq<Event>)
    ensures Matches(f, sys, Run(f, Initial(sys), es), Serialised(es))
    ensures |Run(f, Initial(sys), es).flights| <= 1
  {
    if es != [] {
      var before, e := es[..|es| - 1], es[|es| - 1];
      EveryRunIsSerial(f, sys, before);
      NextMatches(f, sys, Run(f, Initial(sys), before), Serialised(before), e);
    }
  }

  lemma {:induction false} NextMatches(f: Semantics, sys: Sys, w: World, s: Serial, e: Event)
    requires Matches(f, sys, w, s)
    ensures Matches(f, sys, Next(f, w, e), Extended(s, e))
  {
    match e
    case Locked(blocks) => ExecSnoc(f, sys, s.ops, DispatchOp(blocks));
    case Begin(blocks) =>
    case Work =>
    case Finish =>
      if s.open.Some? && s.open.value.worked {
        var o := s.open.value;
        ExecSnoc(f, sys, s.ops, DispatchOp(o.blocks));
        ReplayIsExec(f, sys, s.ops + [DispatchOp(o.blocks)], o.arrived);
      }
    case Arrive(effect) => ExecSnoc(f, sys, s.ops, EffectOp(effect));
  }

  /* ---------- no effect is lost, duplicated or reordered ---------- */

  function EffectsOf(ops: seq<Op>): seq<Effect>
  {
    if ops == [] then []
    else EffectsOf(ops[..|ops| - 1]) + match ops[|ops| - 1] case EffectOp(e) => [e] case DispatchOp(_) => []
  }

  function Arrivals(es: seq<Event>): seq<Effect>
  {
    if es == [] then []
    else Arrivals(es[..|es| - 1]) + if es[|es| - 1].Arrive? then [es[|es| - 1].effect] else []
  }

  function Waiting(s: Serial): seq<Effect>
  {
    if s.open.Some? then s.open.value.arrived else []
  }

  /** Some effect arrives while the list of pending effects is full. */
  predicate Overflows(es: seq<Event>)
  {
    && es != []
    && var before := es[..|es| - 1];
       Overflows(before) || (es[|es| - 1].Arrive? && |Waiting(Serialised(before))| >= MAX_PENDING)
  }

  lemma {:induction false} EffectsOfAppend(ops: seq<Op>, es: seq<Effect>)
    ensures EffectsOf(ops + AsOps(es)) == EffectsOf(ops) + es
    decreases |es|
  {
    if es == [] {
      assert ops + AsOps(es) == ops;
    } else {
      var n := |es| - 1;
      EffectsOfAppend(ops, es[..n]);
      var all := ops + AsOps(es);
      assert all[..|all| - 1] == ops + AsOps(es[..n]);
      assert es == es[..n] + [es[n]];
    }
  }

  lemma {:induction false} EffectsOfSnoc(ops: seq<Op>, op: Op)
    ensures EffectsOf(ops + [op]) == EffectsOf(ops) + (match op case EffectOp(e) => [e] case DispatchOp(_) => [])
  {
    assert (ops + [op])[..|ops|] == ops;
  }

  /** The effects that have been or will be applied, in the order of their application. */
  function Kept(s: Serial): seq<Effect>
  {
    EffectsOf(s.ops) + Waiting(s)
  }

  lemma {:induction false} FinishKept(s: Serial)
    requires s.open.Some? && s.open.value.worked
    ensures Kept(Extended(s, Finish)) == Kept(s)
  {
    var o := s.open.value;
    EffectsOfSnoc(s.ops, DispatchOp(o.blocks));
    EffectsOfAppend(s.ops + [DispatchOp(o.blocks)], o.arrived);
  }

  lemma {:induction false} ArriveKept(s: Serial, effect: Effect)
    ensures Kept(Extended(s, Arrive(effect))) == if |Waiting(s)| < MAX_PENDING then Kept(s) + [effect] else Kept(s)
  {
    EffectsOfSnoc(s.ops, EffectOp(effect));
  }

  /** An event adds the effect that arrives with it at the end, unless the list is full, and moves no other. */
  lemma {:induction false} KeptStep(s: Serial, e: Event)
    ensures Kept(Extended(s, e)) == if e.Arrive? && |Waiting(s)| < MAX_PENDING then Kept(s) + [e.effect] else Kept(s)
  {
    match e
    case Locked(blocks) =>
      EffectsOfSnoc(s.ops, DispatchOp(blocks));
    case Begin(blocks) =>
    case Work =>
    case Finish =>
      if s.open.Some? && s.open.value.worked {
        FinishKept(s);
      }
    case Arrive(effect) =>
      ArriveKept(s, effect);
  }

  /**
   The effects in the serial order, followed by those still pending, are the effects that arrived, all of
   them and in arrival order, exactly when none arrived at a full list.
   */
  lemma {:induction false} EffectsKeptIff(es: seq<Event>)
    ensures Kept(Serialised(es)) == Arrivals(es) <==> !Overflows(es)
    ensures |Kept(Serialised(es))| <= |Arrivals(es)|
    ensures Overflows(es) ==> |Kept(Serialised(es))| < |Arrivals(es)|
  {
    if es != [] {
      EffectsKeptIff(es[..|es| - 1]);
      KeptStep(Serialised(es[..|es| - 1]), es[|es| - 1]);
    }
  }

  /** One dispatch, and effects that arrive one after the other before it finishes. */
  function Flood(blocks: Blocks, es: seq<Effect>): seq<Event>
  {
    [Begin(blocks)] + seq(|es|, i requires 0 <= i < |es| => Arrive(es[i]))
  }

  lemma {:induction false} FloodSnoc(blocks: Blocks, es: seq<Effect>)
    requires es != []
    ensures var all := Flood(blocks, es);
      all[..|all| - 1] == Flood(blocks, es[..|es| - 1]) && all[|all| - 1] == Arrive(es[|es| - 1])
  {
  }

  function FirstPending(es: seq<Effect>): seq<Effect>
  {
    if |es| <= MAX_PENDING then es else es[..MAX_PENDING]
  }

  lemma {:induction false} FirstPendingSnoc(es: seq<Effect>)
    requires es != []
    ensures var kept := FirstPending(es[..|es| - 1]);
      FirstPending(es) == if |kept| >= MAX_PENDING then kept else kept + [es[|es| - 1]]
  {
  }

  /** Of effects arriving during one dispatch exactly the first 64 are kept. */
  lemma {:induction false} FloodKeeps(blocks: Blocks, es: seq<Effect>)
    ensures Serialised(Flood(blocks, es)) == Serial([], Some(Open(blocks, false, FirstPending(es))))
    ensures Overflows(Flood(blocks, es)) <==> |es| > MAX_PENDING
    decreases |es|
  {
    var all := Flood(blocks, es);
    if es == [] {
      assert all == [Begin(blocks)] && all[..0] == [];
    } else {
      FloodSnoc(blocks, es);
      FloodKeeps(blocks, es[..|es| - 1]);
      FirstPendingSnoc(es);
    }
  }

  /** A sixty-fifth effect is lost: the run is legal, and the effect is neither applied nor pending. */
  lemma {:induction false} LossHappens(f: Semantics, sys: Sys, blocks: Blocks, es: seq<Effect>)
    requires |es| == 65
    ensures Overflows(Flood(blocks, es)) && Kept(Serialised(Flood(blocks, es))) == es[..64]
    ensures Run(f, Initial(sys), Flood(blocks, es)).live == Phactory(sys, true, es[..64])
  {
    FloodKeeps(blocks, es);
    EveryRunIsSerial(f, sys, Flood(blocks, es));
  }

  /* ---------- the service object ---------- */

  class RpcService {
    const f: Semantics
    var sys: Sys
    var dispatching: bool
    var pending: seq<Effect>

    ghost function View(): Phactory
      reads this
    {
      Phactory(sys, dispatching, pending)
    }

    constructor (f: Semantics, sys: Sys)
      ensures View() == Phactory(sys, false, []) && this.f == f
    {
      this.f, this.sys, dispatching, pending := f, sys, false, [];
    }

    method ApplySideEffects(e: Effect)
      modifies this
      ensures View() == EffectApplied(f, old(View()), e)
    {
      if dispatching {
        if |pending| >= MAX_PENDING {
          return;
        }
        pending := pending + [e];
        return;
      }
      sys := f.apply(sys, e);
    }

    /** The locked first half: the clone to work on, or a refusal. */
    method BeginDispatch() returns (copy: Option<Phactory>)
      modifies this
      ensures old(dispatching) ==> copy == None && View() == old(View())
      ensures !old(dispatching) ==> copy == Some(old(View())) && View() == old(View()).(dispatching := true)
    {
      if dispatching {
        return None;
      }
      copy := Some(Phactory(sys, dispatching, pending));
      dispatching := true;
    }

    /** The locked second half: the clone replaces the state, and the effects queued meanwhile are replayed. */
    method FinishDispatch(copy: Phactory)
      modifies this
      ensures View() == WrittenBack(f, old(View()), copy)
    {
      var effects := pending;
      sys, dispatching, pending := copy.sys, copy.dispatching, copy.pending;
      var k := 0;
      while k < |effects|
        invariant k <= |effects|
        invariant Replayed(f, View(), effects[k..]) == Replayed(f, copy, effects)
      {
        assert effects[k..][1..] == effects[k + 1..];
        ApplySideEffects(effects[k]);
        k := k + 1;
      }
    }
  }
}
