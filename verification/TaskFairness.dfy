/** Whole runs of the task scheduler: core accounting in every run, the clock, and the starvation bound. */
module TaskFairness {
  import opened Options
  import opened Counting
  import opened TaskScheduler

  /** A poll (`slot`: where equal keys put the entry), the drop of a running guard, or an exit. */
  datatype Event =
    | Poll(id: TaskId, weight: nat, slot: nat)
    | DropGuard(id: TaskId, actualCost: nat)
    | Exit(id: TaskId)

  /** The scheduler, the live guards with their weights, and each task's last charge. */
  datatype World = World(s: Sched, guards: map<TaskId, nat>, charges: map<TaskId, nat>)

  function Initial(cores: nat): World
  {
    World(New(cores), map[], map[])
  }

  /** An exited id is not polled again while an old guard or queue entry of it remains. */
  predicate Enabled(w: World, e: Event)
  {
    match e
    case Poll(id, _, slot) => Pollable(w.s, id, slot) && Fresh(w.s, w.guards.Keys, id)
    case DropGuard(id, _) => id in w.guards && Parkable(w.s, id)
    case Exit(_) => true
  }

  function Next(w: World, e: Event): World
    requires Enabled(w, e)
  {
    match e
    case Poll(id, weight, slot) =>
      w.(s := Polled(w.s, id, slot),
         guards := if TaskOf(ClockReset(w.s), id).state == ToRun then w.guards[id := weight] else w.guards)
    case DropGuard(id, actualCost) =>
      var charge := Charge(actualCost, w.guards[id]);
      w.(s := Parked(w.s, id, charge), guards := w.guards - {id},
         charges := if id in w.s.tasks then w.charges[id := charge] else w.charges)
    case Exit(id) =>
      w.(s := Exited(w.s, id), charges := w.charges - {id})
  }

  predicate Legal(w: World, es: seq<Event>)
    decreases |es|
  {
    es == [] || (Enabled(w, es[0]) && Legal(Next(w, es[0]), es[1..]))
  }

  function Run(w: World, es: seq<Event>): World
    requires Legal(w, es)
    decreases |es|
  {
    if es == [] then w else Run(Next(w, es[0]), es[1..])
  }

  /* ---------- core accounting ---------- */

  ghost predicate CoreInv(w: World)
  {
    Accounts(w.s) && Guarded(w.s, w.guards.Keys) && WorkConserving(w.s)
  }

  lemma {:induction false} NextKeepsCores(w: World, e: Event)
    requires CoreInv(w) && Enabled(w, e)
    ensures CoreInv(Next(w, e))
  {
    match e
    case Poll(id, weight, slot) =>
      PolledKeeps(w.s, w.guards.Keys, id, slot);
      assert Next(w, e).guards.Keys == GuardsAfterPoll(w.s, w.guards.Keys, id, slot);
    case DropGuard(id, actualCost) =>
      ParkedKeeps(w.s, w.guards.Keys, id, Charge(actualCost, w.guards[id]));
    case Exit(id) =>
      ExitedKeeps(w.s, w.guards.Keys, id);
  }

  /** In every run, clock resets included, the cores are accounted for and none idles while a task waits. */
  lemma {:induction false} CoresOverRun(w: World, es: seq<Event>)
    requires CoreInv(w) && Legal(w, es)
    ensures CoreInv(Run(w, es))
    decreases |es|
  {
    if es != [] {
      NextKeepsCores(w, es[0]);
      CoresOverRun(Next(w, es[0]), es[1..]);
    }
  }

  /** The drop of a live guard never meets a task that is not running, so `park` cannot panic. */
  lemma {:induction false} GuardDropIsSafe(cores: nat, es: seq<Event>, id: TaskId, actualCost: nat)
    requires Legal(Initial(cores), es)
    requires id in Run(Initial(cores), es).guards
    ensures Enabled(Run(Initial(cores), es), DropGuard(id, actualCost))
  {
    CoresOverRun(Initial(cores), es);
  }

  /* ---------- the clock ---------- */

  function ChargeOf(charges: map<TaskId, nat>, id: TaskId): nat
  {
    if id in charges then charges[id] else 0
  }

  /** Every queued task stands in the queue at its own virtual runtime. */
  predicate KeysAreRuntimes(s: Sched)
  {
    forall i :: 0 <= i < |s.ready| && s.ready[i].id in s.tasks ==> s.ready[i].key == s.tasks[s.ready[i].id].vruntime
  }

  /** Every queued task's key lies between the clock and the clock plus its last charge. */
  predicate InReach(s: Sched, charges: map<TaskId, nat>)
  {
    forall i :: 0 <= i < |s.ready| && s.ready[i].id in s.tasks ==>
      s.clock <= s.ready[i].key <= s.clock + ChargeOf(charges, s.ready[i].id)
  }

  /** No key and no running task's runtime lies on the wrong side of the clock, and none too far ahead of it. */
  ghost predicate Clocked(s: Sched, charges: map<TaskId, nat>)
  {
    && (forall i :: 0 <= i < |s.ready| ==> s.clock <= s.ready[i].key)
    && KeysAreRuntimes(s)
    && (forall id :: id in s.tasks ==> s.tasks[id].vruntime <= s.clock + ChargeOf(charges, id))
    && (forall id :: id in Active(s.tasks) ==> s.tasks[id].vruntime <= s.clock)
  }

  lemma {:induction false} WakeKeepsClock(s: Sched, charges: map<TaskId, nat>)
    requires Accounts(s) && Clocked(s, charges) && s.ready != []
    ensures Clocked(Wake(s), charges) && s.clock <= Wake(s).clock
  {
  }

  lemma {:induction false} ScheduledKeepsClock(s: Sched, guards: set<TaskId>, charges: map<TaskId, nat>)
    requires Accounts(s) && Guarded(s, guards) && Clocked(s, charges)
    ensures Clocked(Scheduled(s), charges) && s.clock <= Scheduled(s).clock
    decreases |s.ready|
  {
    if s.running < s.cores && s.ready != [] {
      WakeKeeps(s, guards);
      WakeKeepsClock(s, charges);
      ScheduledKeepsClock(Wake(s), guards, charges);
    }
  }

  lemma {:induction false} EnqueuedKeepsClock(s: Sched, guards: set<TaskId>, charges: map<TaskId, nat>,
                                              id: TaskId, slot: nat)
    requires Accounts(s) && Guarded(s, guards) && Clocked(s, charges)
    requires TaskOf(s, id).state == Idle && ValidSlot(s.ready, Key(s, id), slot)
    requires id !in s.tasks ==> id !in guards && !Queued(s.ready, id)
    ensures Clocked(Enqueued(s, id, slot), charges)
  {
    var s' := Enqueued(s, id, slot);
    forall i | 0 <= i < |s'.ready| && s'.ready[i].id in s'.tasks
      ensures s'.ready[i].key == s'.tasks[s'.ready[i].id].vruntime
    {
      if i != slot {
        var j := if i < slot then i else i - 1;
        assert s'.ready[i] == s.ready[j];
        assert Queued(s.ready, s.ready[j].id);
      }
    }
  }

  ghost predicate WorldInv(w: World)
  {
    CoreInv(w) && Clocked(w.s, w.charges)
  }

  lemma {:induction false} PolledKeepsClock(s: Sched, guards: set<TaskId>, charges: map<TaskId, nat>,
                                            id: TaskId, slot: nat)
    requires Accounts(s) && Guarded(s, guards) && Clocked(s, charges) && s.clock <= RESET_THRESHOLD
    requires Pollable(s, id, slot) && Fresh(s, guards, id)
    ensures Clocked(Polled(s, id, slot), charges) && s.clock <= Polled(s, id, slot).clock
  {
    match TaskOf(s, id).state
    case Idle =>
      EnqueuedKeepsClock(s, guards, charges, id, slot);
      EnqueuedKeeps(s, guards, id, slot);
      ScheduledKeepsClock(Enqueued(s, id, slot), guards, charges);
    case Ready =>
    case ToRun =>
      ActiveAdd(s.tasks, id, s.tasks[id].(state := Running));
  }

  /** The state in which `park` starts its scheduling loop. */
  function Charged(s: Sched, id: TaskId, charge: nat): Sched
    requires id in s.tasks
  {
    s.(tasks := s.tasks[id := Task(Idle, s.tasks[id].vruntime + charge)], running := s.running - 1)
  }

  lemma {:induction false} ChargedKeeps(s: Sched, guards: set<TaskId>, charges: map<TaskId, nat>, id: TaskId,
                                        charge: nat)
    requires Accounts(s) && Guarded(s, guards) && Clocked(s, charges)
    requires id in s.tasks && id in guards
    ensures var s1 := Charged(s, id, charge);
      Accounts(s1) && Guarded(s1, guards - {id}) && Clocked(s1, charges[id := charge])
  {
    var s1 := Charged(s, id, charge);
    ActiveAdd(s.tasks, id, s1.tasks[id]);
    assert id in Active(s.tasks);
    assert !Queued(s.ready, id);
    forall i | 0 <= i < |s.ready| && s.ready[i].id in s1.tasks
      ensures s.ready[i].key == s1.tasks[s.ready[i].id].vruntime
    {
      assert Queued(s.ready, s.ready[i].id);
    }
  }

  lemma {:induction false} ParkedKeepsClock(s: Sched, guards: set<TaskId>, charges: map<TaskId, nat>,
                                            id: TaskId, charge: nat)
    requires Accounts(s) && Guarded(s, guards) && Clocked(s, charges)
    requires id in s.tasks && id in guards && charge >= 1
    ensures Clocked(Parked(s, id, charge), charges[id := charge]) && s.clock <= Parked(s, id, charge).clock
  {
    ChargedKeeps(s, guards, charges, id, charge);
    ScheduledKeepsClock(Charged(s, id, charge), guards - {id}, charges[id := charge]);
  }

  lemma {:induction false} ExitedKeepsClock(s: Sched, guards: set<TaskId>, charges: map<TaskId, nat>, id: TaskId)
    requires Accounts(s) && Guarded(s, guards) && Clocked(s, charges)
    ensures Clocked(Exited(s, id), charges - {id}) && s.clock <= Exited(s, id).clock
  {
    if id in s.tasks {
      var s1 := s.(tasks := s.tasks - {id});
      assert Active(s1.tasks) == Active(s.tasks) - {id};
      if id in Active(s.tasks) {
        ScheduledKeepsClock(s1.(running := s.running - 1), guards, charges - {id});
      }
    }
  }

  lemma {:induction false} NextKeepsClock(w: World, e: Event)
    requires WorldInv(w) && Enabled(w, e) && w.s.clock <= RESET_THRESHOLD
    ensures WorldInv(Next(w, e)) && w.s.clock <= Next(w, e).s.clock
  {
    NextKeepsCores(w, e);
    match e
    case Poll(id, weight, slot) =>
      PolledKeepsClock(w.s, w.guards.Keys, w.charges, id, slot);
    case DropGuard(id, actualCost) =>
      if id in w.s.tasks {
        ParkedKeepsClock(w.s, w.guards.Keys, w.charges, id, Charge(actualCost, w.guards[id]));
      }
    case Exit(id) =>
      ExitedKeepsClock(w.s, w.guards.Keys, w.charges, id);
  }

  /**
   The clock reset rebases the tasks but not the queue: the queue keeps telling the tasks' runtimes if and
   only if no live task is queued.
   */
  lemma {:induction false} ResetKeepsRuntimesIff(s: Sched, charges: map<TaskId, nat>)
    requires Clocked(s, charges) && s.clock > RESET_THRESHOLD
    ensures KeysAreRuntimes(ClockReset(s)) <==> forall i :: 0 <= i < |s.ready| ==> s.ready[i].id !in s.tasks
    ensures Clocked(ClockReset(s), charges) <==> KeysAreRuntimes(ClockReset(s))
  {
    var s' := ClockReset(s);
    assert Active(s'.tasks) == Active(s.tasks);
    if i :| 0 <= i < |s.ready| && s.ready[i].id in s.tasks {
      assert s'.ready[i].key != s'.tasks[s'.ready[i].id].vruntime;
    }
  }

  /** And the keys stay in reach of the clock if and only if each queued task's last charge alone reaches its key. */
  lemma {:induction false} ResetKeepsReachIff(s: Sched, charges: map<TaskId, nat>)
    requires s.clock > RESET_THRESHOLD
    ensures InReach(ClockReset(s), charges) <==>
      forall i :: 0 <= i < |s.ready| && s.ready[i].id in s.tasks ==> s.ready[i].key <= ChargeOf(charges, s.ready[i].id)
  {
    var s' := ClockReset(s);
    assert forall i :: 0 <= i < |s.ready| ==> s'.ready[i] == s.ready[i];
  }

  /** The run never reaches the threshold at which the clock is reset. */
  predicate BelowReset(w: World, es: seq<Event>)
    requires Legal(w, es)
    decreases |es|
  {
    w.s.clock <= RESET_THRESHOLD && (es != [] ==> BelowReset(Next(w, es[0]), es[1..]))
  }

  lemma {:induction false} ClockOverRun(w: World, es: seq<Event>)
    requires WorldInv(w) && Legal(w, es) && BelowReset(w, es)
    ensures WorldInv(Run(w, es)) && w.s.clock <= Run(w, es).s.clock
    ensures InReach(Run(w, es).s, Run(w, es).charges)
    decreases |es|
  {
    if es != [] {
      NextKeepsClock(w, es[0]);
      ClockOverRun(Next(w, es[0]), es[1..]);
    }
  }

  /* ---------- starvation ---------- */

  /** What a stretch is measured against: the task watched, its key, the tasks around it, and its start. */
  datatype Stretch = Stretch(task: TaskId, key: nat, ids: set<TaskId>, start: nat, clock: nat)

  /** The watched task is not among the tasks woken at positions `start` up to `end`. */
  predicate NotYetWoken(s: Sched, m: Stretch, end: nat)
    requires end <= |s.woken|
  {
    forall j :: m.start <= j < end ==> s.woken[j].id != m.task
  }

  /** How far a woken key lies below its task's virtual runtime. */
  predicate Passed(s: Sched, e: Entry)
  {
    && e.id in s.tasks
    && (if s.tasks[e.id].state in {ToRun, Running}
        then e.key <= s.tasks[e.id].vruntime
        else e.key < s.tasks[e.id].vruntime)
  }

  /** The keys woken in the stretch: at least the starting clock, and growing for each task. */
  ghost predicate KeysGrow(s: Sched, m: Stretch)
  {
    && m.start <= |s.woken|
    && (forall i :: m.start <= i < |s.woken| ==> m.clock <= s.woken[i].key && Passed(s, s.woken[i]))
    && (forall i, j :: m.start <= i < j < |s.woken| && s.woken[i].id == s.woken[j].id ==>
          s.woken[i].key < s.woken[j].key)
  }

  /** Until the watched task is woken it stays queued, and no larger key is woken. */
  ghost predicate Watched(s: Sched, m: Stretch)
  {
    && m.start <= |s.woken|
    && (forall end: nat :: m.start < end <= |s.woken| && NotYetWoken(s, m, end) ==> s.woken[end - 1].key <= m.key)
    && (NotYetWoken(s, m, |s.woken|) ==> Entry(m.key, m.task) in s.ready)
  }

  ghost predicate StretchInv(s: Sched, m: Stretch)
  {
    m.task in s.tasks && s.tasks.Keys <= m.ids && m.clock <= s.clock && KeysGrow(s, m) && Watched(s, m)
  }

  lemma {:induction false} WakeKeepsKeys(s: Sched, charges: map<TaskId, nat>, m: Stretch)
    requires Accounts(s) && Clocked(s, charges) && KeysGrow(s, m) && m.clock <= s.clock && s.ready != []
    ensures KeysGrow(Wake(s), m)
  {
    var s' := Wake(s);
    var e := s.ready[0];
    if e.id in s.tasks {
      assert Queued(s.ready, e.id);
      assert forall i :: m.start <= i < |s.woken| ==> s'.woken[i] == s.woken[i] && Passed(s, s.woken[i]);
    }
  }

  lemma {:induction false} WakeKeepsWatch(s: Sched, m: Stretch)
    requires Accounts(s) && Watched(s, m) && m.task in s.tasks && s.ready != []
    ensures Watched(Wake(s), m)
  {
    var s' := Wake(s);
    var e := s.ready[0];
    var n := |s.woken|;
    assert forall j :: 0 <= j < n ==> s'.woken[j] == s.woken[j];
    forall end: nat | m.start < end <= |s'.woken| && NotYetWoken(s', m, end)
      ensures s'.woken[end - 1].key <= m.key
    {
      assert NotYetWoken(s, m, if end <= n then end else n) by {
        assert forall j :: m.start <= j < (if end <= n then end else n) ==> s'.woken[j].id != m.task;
      }
    }
    if NotYetWoken(s', m, |s'.woken|) {
      assert NotYetWoken(s, m, n) by {
        assert forall j :: m.start <= j < n ==> s'.woken[j].id != m.task;
      }
      assert e.id != m.task by {
        if e.id in s.tasks {
          assert s'.woken[n].id != m.task;
        }
      }
    }
  }

  lemma {:induction false} ScheduledKeepsStretch(s: Sched, guards: set<TaskId>, charges: map<TaskId, nat>, m: Stretch)
    requires Accounts(s) && Guarded(s, guards) && Clocked(s, charges) && StretchInv(s, m)
    ensures StretchInv(Scheduled(s), m)
    decreases |s.ready|
  {
    if s.running < s.cores && s.ready != [] {
      WakeKeeps(s, guards);
      WakeKeepsClock(s, charges);
      WakeKeepsKeys(s, charges, m);
      WakeKeepsWatch(s, m);
      ScheduledKeepsStretch(Wake(s), guards, charges, m);
    }
  }

  /** A change of one task's state and runtime that wakes nobody and removes no entry keeps the stretch. */
  lemma {:induction false} TouchKeepsStretch(s: Sched, s': Sched, m: Stretch, id: TaskId)
    requires StretchInv(s, m) && id in m.ids
    requires s'.woken == s.woken && s'.clock == s.clock && id in s'.tasks && s'.tasks == s.tasks[id := s'.tasks[id]]
    requires forall e :: e in s.ready ==> e in s'.ready
    requires forall i :: m.start <= i < |s.woken| && s.woken[i].id == id ==> Passed(s', s.woken[i])
    ensures StretchInv(s', m)
  {
    assert forall i :: m.start <= i < |s.woken| ==> Passed(s, s.woken[i]);
    assert forall end: nat :: end <= |s.woken| ==> NotYetWoken(s', m, end) == NotYetWoken(s, m, end);
  }

  /** Events of a stretch: polls of the given tasks and guard drops, no exit. */
  predicate InStretch(e: Event, ids: set<TaskId>)
  {
    match e
    case Poll(id, _, _) => id in ids
    case DropGuard(_, _) => true
    case Exit(_) => false
  }

  lemma {:induction false} PolledKeepsStretch(s: Sched, guards: set<TaskId>, charges: map<TaskId, nat>,
                                              id: TaskId, slot: nat, m: Stretch)
    requires Accounts(s) && Guarded(s, guards) && Clocked(s, charges) && s.clock <= RESET_THRESHOLD
    requires Pollable(s, id, slot) && Fresh(s, guards, id) && StretchInv(s, m) && id in m.ids
    ensures StretchInv(Polled(s, id, slot), m)
  {
    assert forall i :: m.start <= i < |s.woken| ==> Passed(s, s.woken[i]);
    match TaskOf(s, id).state
    case Idle =>
      EnqueuedKeepsClock(s, guards, charges, id, slot);
      EnqueuedKeeps(s, guards, id, slot);
      TouchKeepsStretch(s, Enqueued(s, id, slot), m, id);
      ScheduledKeepsStretch(Enqueued(s, id, slot), guards, charges, m);
    case Ready =>
    case ToRun =>
      TouchKeepsStretch(s, Polled(s, id, slot), m, id);
  }

  lemma {:induction false} ChargedKeepsStretch(s: Sched, id: TaskId, charge: nat, m: Stretch)
    requires StretchInv(s, m) && id in s.tasks && s.tasks[id].state == Running && charge >= 1
    ensures StretchInv(Charged(s, id, charge), m)
  {
    assert forall i :: m.start <= i < |s.woken| ==> Passed(s, s.woken[i]);
    TouchKeepsStretch(s, Charged(s, id, charge), m, id);
  }

  lemma {:induction false} ParkedKeepsStretch(s: Sched, guards: set<TaskId>, charges: map<TaskId, nat>,
                                              id: TaskId, charge: nat, m: Stretch)
    requires Accounts(s) && Guarded(s, guards) && Clocked(s, charges)
    requires id in s.tasks && id in guards && charge >= 1 && StretchInv(s, m)
    ensures StretchInv(Parked(s, id, charge), m)
  {
    ChargedKeeps(s, guards, charges, id, charge);
    ChargedKeepsStretch(s, id, charge, m);
    ScheduledKeepsStretch(Charged(s, id, charge), guards - {id}, charges[id := charge], m);
  }

  lemma {:induction false} NextKeepsStretch(w: World, e: Event, m: Stretch)
    requires WorldInv(w) && Enabled(w, e) && w.s.clock <= RESET_THRESHOLD
    requires StretchInv(w.s, m) && InStretch(e, m.ids)
    ensures StretchInv(Next(w, e).s, m)
  {
    match e
    case Poll(id, weight, slot) =>
      PolledKeepsStretch(w.s, w.guards.Keys, w.charges, id, slot, m);
    case DropGuard(id, actualCost) =>
      if id in w.s.tasks {
        ParkedKeepsStretch(w.s, w.guards.Keys, w.charges, id, Charge(actualCost, w.guards[id]), m);
      }
  }

  lemma {:induction false} StretchOverRun(w: World, es: seq<Event>, m: Stretch)
    requires WorldInv(w) && Legal(w, es) && BelowReset(w, es) && StretchInv(w.s, m)
    requires forall i :: 0 <= i < |es| ==> InStretch(es[i], m.ids)
    ensures StretchInv(Run(w, es).s, m)
    decreases |es|
  {
    if es != [] {
      NextKeepsClock(w, es[0]);
      NextKeepsStretch(w, es[0], m);
      StretchOverRun(Next(w, es[0]), es[1..], m);
    }
  }

  /** The wake-ups before the watched task's own are distinct (task, key) pairs from a bounded range. */
  lemma {:induction false} WakeupsBounded(s: Sched, m: Stretch, end: nat)
    requires StretchInv(s, m) && m.clock <= m.key + 1
    requires m.start <= end <= |s.woken| && NotYetWoken(s, m, end)
    ensures end - m.start <= (|m.ids| - 1) * (m.key - m.clock + 1)
  {
    var others := m.ids - {m.task};
    var pairs := seq(end - m.start, i requires 0 <= i < end - m.start =>
      (s.woken[m.start + i].id, s.woken[m.start + i].key as int));
    forall i | 0 <= i < |pairs|
      ensures pairs[i].0 in others && m.clock <= pairs[i].1 <= m.key
    {
      assert NotYetWoken(s, m, m.start + i + 1);
      assert Passed(s, s.woken[m.start + i]);
    }
    DistinctPairs(pairs, others, m.clock, m.key);
    assert |others| == |m.ids| - 1;
  }

  /**
   The starvation bound. Take any run from an empty scheduler that stays below the clock reset, and a
   task then ready at key `k`. Over any continuation among `ids` (no exits), before that task is woken
   at most (|ids| - 1) * (k - clock + 1) other wake-ups happen.
   */
  lemma {:induction false} StarvationBound(cores: nat, history: seq<Event>, es: seq<Event>, t: TaskId, k: nat,
                                           ids: set<TaskId>, end: nat)
    requires Legal(Initial(cores), history) && BelowReset(Initial(cores), history)
    requires var w := Run(Initial(cores), history);
      && Legal(w, es) && BelowReset(w, es)
      && t in w.s.tasks && Entry(k, t) in w.s.ready && w.s.tasks.Keys <= ids
    requires forall i :: 0 <= i < |es| ==> InStretch(es[i], ids)
    requires var w := Run(Initial(cores), history);
      var woken := Run(w, es).s.woken;
      |w.s.woken| <= end <= |woken| && forall j :: |w.s.woken| <= j < end ==> woken[j].id != t
    ensures var w := Run(Initial(cores), history);
      end - |w.s.woken| <= (|ids| - 1) * (k - w.s.clock + 1)
  {
    ClockOverRun(Initial(cores), history);
    var w := Run(Initial(cores), history);
    var m := Stretch(t, k, ids, |w.s.woken|, w.s.clock);
    StretchOverRun(w, es, m);
    WakeupsBounded(Run(w, es).s, m, end);
  }
}
