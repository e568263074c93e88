/** Runs of the task scheduler that reach the failing side of its conditions. */
module TaskRuns {
  import opened Options
  import opened TaskScheduler
  import opened TaskFairness

  lemma {:induction false} RunSnoc(w: World, es: seq<Event>, e: Event)
    requires Legal(w, es) && Enabled(Run(w, es), e)
    ensures Legal(w, es + [e]) && Run(w, es + [e]) == Next(Run(w, es), e)
    decreases |es|
  {
    if es == [] {
      assert es + [e] == [e];
      assert Legal(Next(w, e), [e][1..]);
    } else {
      assert (es + [e])[0] == es[0] && (es + [e])[1..] == es[1..] + [e];
      RunSnoc(Next(w, es[0]), es[1..], e);
    }
  }

  /** Some legal run leads from one world to the other. */
  ghost predicate Reaches(w: World, w': World)
  {
    exists es :: Legal(w, es) && Run(w, es) == w'
  }

  lemma {:induction false} Here(w: World)
    ensures Reaches(w, w)
  {
    assert Legal(w, []) && Run(w, []) == w;
  }

  lemma {:induction false} Step(w: World, w1: World, e: Event)
    requires Reaches(w, w1) && Enabled(w1, e)
    ensures Reaches(w, Next(w1, e))
  {
    var es :| Legal(w, es) && Run(w, es) == w1;
    RunSnoc(w, es, e);
  }

  /* ---------- single events, with the world they lead to ---------- */

  /** A poll of an idle task on a free core wakes it at once. */
  lemma {:induction false} Wakes(w0: World, w: World, id: TaskId)
    requires Reaches(w0, w) && w.s.clock <= RESET_THRESHOLD && w.s.ready == [] && w.s.running < w.s.cores
    requires TaskOf(w.s, id).state == Idle && (id in w.s.tasks || id !in w.guards)
    ensures var s, key := w.s, Key(w.s, id);
      var s' := Sched(s.tasks[id := Task(ToRun, key)], [], key, s.cores, s.running + 1, s.woken + [Entry(key, id)]);
      Reaches(w0, w.(s := s'))
  {
    PollWakes(w.s, id);
    Step(w0, w, Poll(id, 1, 0));
  }

  lemma {:induction false} PollWakes(s: Sched, id: TaskId)
    requires s.clock <= RESET_THRESHOLD && s.ready == [] && s.running < s.cores && TaskOf(s, id).state == Idle
    ensures var key := Key(s, id);
      && Pollable(s, id, 0)
      && Polled(s, id, 0)
         == Sched(s.tasks[id := Task(ToRun, key)], [], key, s.cores, s.running + 1, s.woken + [Entry(key, id)])
  {
    var s1 := Enqueued(s, id, 0);
    assert s1.ready == [Entry(Key(s, id), id)];
    assert Wake(s1).ready == [];
    assert Scheduled(Wake(s1)) == Wake(s1);
    assert s1.tasks[id := s1.tasks[id].(state := ToRun)] == s.tasks[id := Task(ToRun, Key(s, id))];
  }

  /** A poll of a woken task hands out its guard. */
  lemma {:induction false} Starts(w0: World, w: World, id: TaskId)
    requires Reaches(w0, w) && w.s.clock <= RESET_THRESHOLD && id in w.s.tasks && w.s.tasks[id].state == ToRun
    ensures var tasks := w.s.tasks[id := w.s.tasks[id].(state := Running)];
      Reaches(w0, w.(s := w.s.(tasks := tasks), guards := w.guards[id := 1]))
  {
    Step(w0, w, Poll(id, 1, 0));
  }

  /** A poll of an idle task on full cores queues it. */
  lemma {:induction false} Queues(w0: World, w: World, id: TaskId, slot: nat)
    requires Reaches(w0, w) && w.s.clock <= RESET_THRESHOLD && w.s.running >= w.s.cores
    requires TaskOf(w.s, id).state == Idle && Fresh(w.s, w.guards.Keys, id) && ValidSlot(w.s.ready, Key(w.s, id), slot)
    ensures Reaches(w0, w.(s := Enqueued(w.s, id, slot)))
  {
    Step(w0, w, Poll(id, 1, slot));
  }

  /** The guard of the only running task is dropped, with nobody queued. */
  lemma {:induction false} Parks(w0: World, w: World, id: TaskId, cost: nat)
    requires Reaches(w0, w) && w.s.ready == [] && cost >= 1
    requires id in w.s.tasks && w.s.tasks[id].state == Running && id in w.guards && w.guards[id] == 1
    ensures var tasks := w.s.tasks[id := Task(Idle, w.s.tasks[id].vruntime + cost)];
      var s' := w.s.(tasks := tasks, running := w.s.running - 1);
      Reaches(w0, World(s', w.guards - {id}, w.charges[id := cost]))
  {
    assert Charge(cost, 1) == cost;
    Step(w0, w, DropGuard(id, cost));
  }

  /* ---------- an exited task polled again ---------- */

  lemma {:induction false} ReachedKeeps(w: World, w': World)
    requires CoreInv(w) && Reaches(w, w')
    ensures CoreInv(w')
  {
    var es :| Legal(w, es) && Run(w, es) == w';
    CoresOverRun(w, es);
  }

  /** The one core is busy with `u`, and a queue entry of `t`, which has exited, remains. */
  function StaleEntry(u: TaskId, t: TaskId): World
  {
    World(Sched(map[u := Task(ToRun, 0)], [Entry(0, t)], 0, 1, 1, [Entry(0, u)]), map[], map[])
  }

  /**
   A task exits while queued behind a busy core and is polled again: a run reaches this poll, and it puts
   the task into the queue a second time.
   */
  lemma {:induction false} StaleEntryHappens(u: TaskId, t: TaskId)
    requires u != t
    ensures var w := StaleEntry(u, t);
      && Reaches(Initial(1), w) && CoreInv(w)
      && Pollable(w.s, t, 0) && !Fresh(w.s, w.guards.Keys, t)
      && Polled(w.s, t, 0).ready == [Entry(0, t), Entry(0, t)] && !Accounts(Polled(w.s, t, 0))
  {
    var w := StaleEntry(u, t);
    assert Reaches(Initial(1), w) && CoreInv(w) by {
      ReachesStaleEntry(u, t);
      ReachedKeeps(Initial(1), w);
    }
    assert w.s.ready[0].id == t;
    var ready := Polled(w.s, t, 0).ready;
    assert ready == [Entry(0, t), Entry(0, t)];
    assert ready[0].id == ready[1].id;
  }

  lemma {:induction false} ReachesStaleEntry(u: TaskId, t: TaskId)
    requires u != t
    ensures Reaches(Initial(1), StaleEntry(u, t))
  {
    var w0 := Initial(1);
    var w1 := World(Sched(map[u := Task(ToRun, 0)], [], 0, 1, 1, [Entry(0, u)]), map[], map[]);
    assert Reaches(w0, w1) by {
      Here(w0);
      Wakes(w0, w0, u);
    }
    var w2 := w1.(s := w1.s.(tasks := map[u := Task(ToRun, 0), t := Task(Ready, 0)], ready := [Entry(0, t)]));
    assert Reaches(w0, w2) by {
      Queues(w0, w1, t, 0);
      assert w1.(s := Enqueued(w1.s, t, 0)) == w2;
    }
    assert Next(w2, Exit(t)) == StaleEntry(u, t) by {
      assert w2.s.tasks - {t} == map[u := Task(ToRun, 0)];
    }
    Step(w0, w2, Exit(t));
  }

  /** `t` has exited, and its guard is still alive. */
  function StaleGuard(t: TaskId): World
  {
    World(Sched(map[], [], 0, 1, 0, [Entry(0, t)]), map[t := 1], map[])
  }

  /**
   A task exits while its guard is alive and is polled again: a run reaches this poll, and after it the drop
   of the old guard is a panic.
   */
  lemma {:induction false} StaleGuardHappens(t: TaskId)
    ensures var w := StaleGuard(t);
      && Reaches(Initial(1), w) && CoreInv(w)
      && Pollable(w.s, t, 0) && !Fresh(w.s, w.guards.Keys, t)
      && t in w.guards && !Parkable(Polled(w.s, t, 0), t)
  {
    var w := StaleGuard(t);
    ReachesStaleGuard(t);
    ReachedKeeps(Initial(1), w);
    PollWakes(w.s, t);
  }

  lemma {:induction false} ReachesStaleGuard(t: TaskId)
    ensures Reaches(Initial(1), StaleGuard(t))
  {
    var w0 := Initial(1);
    var w1 := World(Sched(map[t := Task(ToRun, 0)], [], 0, 1, 1, [Entry(0, t)]), map[], map[]);
    assert Reaches(w0, w1) by {
      Here(w0);
      Wakes(w0, w0, t);
    }
    var w2 := World(w1.s.(tasks := map[t := Task(Running, 0)]), map[t := 1], map[]);
    assert Reaches(w0, w2) by {
      Starts(w0, w1, t);
    }
    assert Next(w2, Exit(t)) == StaleGuard(t) by {
      assert w2.s.tasks - {t} == map[];
    }
    Step(w0, w2, Exit(t));
  }

  /* ---------- a clock reset with a task in the queue ---------- */

  /** One core, nobody queued or running. */
  function AtRest(tasks: map<TaskId, Task>, clock: nat, woken: seq<Entry>, charges: map<TaskId, nat>): World
  {
    World(Sched(tasks, [], clock, 1, 0, woken), map[], charges)
  }

  /** A task's turn on the one core: woken, run, and charged. */
  lemma {:induction false} Turn(w0: World, tasks: map<TaskId, Task>, clock: nat, woken: seq<Entry>,
                                charges: map<TaskId, nat>, id: TaskId, key: nat, cost: nat)
    requires Reaches(w0, AtRest(tasks, clock, woken, charges))
    requires if id in tasks then tasks[id] == Task(Idle, key) && clock <= key else key == clock
    requires key <= RESET_THRESHOLD && cost >= 1
    ensures Reaches(w0, AtRest(tasks[id := Task(Idle, key + cost)], key, woken + [Entry(key, id)], charges[id := cost]))
  {
    var w1 := World(Sched(tasks[id := Task(ToRun, key)], [], key, 1, 1, woken + [Entry(key, id)]), map[], charges);
    assert Reaches(w0, w1) by {
      Wakes(w0, AtRest(tasks, clock, woken, charges), id);
    }
    var w2 := World(w1.s.(tasks := tasks[id := Task(Running, key)]), map[id := 1], charges);
    assert Reaches(w0, w2) by {
      Starts(w0, w1, id);
      assert w1.s.tasks[id := Task(Running, key)] == w2.s.tasks;
    }
    Parks(w0, w2, id, cost);
    assert w2.s.tasks[id := Task(Idle, key + cost)] == tasks[id := Task(Idle, key + cost)];
    assert w2.guards - {id} == map[];
  }

  const LIMIT: nat := RESET_THRESHOLD

  /** Two tasks past the threshold, one woken there and one still queued; the last charge of each was 2. */
  function PastThreshold(a: TaskId, d: TaskId, woken: seq<Entry>): World
  {
    var tasks := map[d := Task(Ready, LIMIT + 2), a := Task(ToRun, LIMIT + 2)];
    World(Sched(tasks, [Entry(LIMIT + 2, d)], LIMIT + 2, 1, 1, woken), map[], map[d := 2, a := 2])
  }

  /** Each of the two has had its turns; both are idle just past the threshold, and the clock is at it. */
  lemma {:induction false} TwoTurns(a: TaskId, d: TaskId) returns (woken: seq<Entry>)
    requires a != d
    ensures var tasks := map[d := Task(Idle, LIMIT + 2), a := Task(Idle, LIMIT + 2)];
      Reaches(Initial(1), AtRest(tasks, LIMIT, woken, map[d := 2, a := 2]))
  {
    var w0 := Initial(1);
    var e0, e1 := Entry(0, d), Entry(LIMIT, d);
    assert Reaches(w0, AtRest(map[d := Task(Idle, LIMIT)], 0, [e0], map[d := LIMIT])) by {
      Here(w0);
      Turn(w0, map[], 0, [], map[], d, 0, LIMIT);
    }
    assert Reaches(w0, AtRest(map[d := Task(Idle, LIMIT + 2)], LIMIT, [e0, e1], map[d := 2])) by {
      Turn(w0, map[d := Task(Idle, LIMIT)], 0, [e0], map[d := LIMIT], d, LIMIT, 2);
      assert map[d := Task(Idle, LIMIT)][d := Task(Idle, LIMIT + 2)] == map[d := Task(Idle, LIMIT + 2)];
      assert map[d := LIMIT][d := 2] == map[d := 2];
      assert [e0] + [e1] == [e0, e1];
    }
    Turn(w0, map[d := Task(Idle, LIMIT + 2)], LIMIT, [e0, e1], map[d := 2], a, LIMIT, 2);
    woken := [e0, e1] + [Entry(LIMIT, a)];
  }

  /** A third task takes the core, and the two are queued behind it. */
  function Behind(a: TaskId, d: TaskId, b: TaskId, woken: seq<Entry>): World
  {
    var tasks := map[d := Task(Ready, LIMIT + 2), a := Task(Ready, LIMIT + 2), b := Task(ToRun, LIMIT)];
    var ready := [Entry(LIMIT + 2, a), Entry(LIMIT + 2, d)];
    World(Sched(tasks, ready, LIMIT, 1, 1, woken), map[], map[d := 2, a := 2])
  }

  /** The third task has just taken the core, and `a` may be queued behind it already. */
  function Taken(a: TaskId, d: TaskId, b: TaskId, woken: seq<Entry>, queued: bool): World
  {
    var state := if queued then Ready else Idle;
    var tasks := map[d := Task(Idle, LIMIT + 2), a := Task(state, LIMIT + 2), b := Task(ToRun, LIMIT)];
    World(Sched(tasks, if queued then [Entry(LIMIT + 2, a)] else [], LIMIT, 1, 1, woken), map[], map[d := 2, a := 2])
  }

  lemma {:induction false} QueueFirst(w0: World, a: TaskId, d: TaskId, b: TaskId, woken: seq<Entry>)
    requires a != d && b != a && b != d && Reaches(w0, Taken(a, d, b, woken, false))
    ensures Reaches(w0, Taken(a, d, b, woken, true))
  {
    var w := Taken(a, d, b, woken, false);
    assert w.(s := Enqueued(w.s, a, 0)) == Taken(a, d, b, woken, true) by {
      assert w.s.tasks[a := Task(Ready, LIMIT + 2)] == Taken(a, d, b, woken, true).s.tasks;
    }
    Queues(w0, w, a, 0);
  }

  lemma {:induction false} QueueSecond(w0: World, a: TaskId, d: TaskId, b: TaskId, woken: seq<Entry>)
    requires a != d && b != a && b != d && Reaches(w0, Taken(a, d, b, woken, true))
    ensures Reaches(w0, Behind(a, d, b, woken))
  {
    var w := Taken(a, d, b, woken, true);
    assert w.(s := Enqueued(w.s, d, 1)) == Behind(a, d, b, woken) by {
      assert w.s.tasks[d := Task(Ready, LIMIT + 2)] == Behind(a, d, b, woken).s.tasks;
    }
    Queues(w0, w, d, 1);
  }

  /** The third exits: one of the two moves the clock past the threshold, the other stays queued. */
  lemma {:induction false} ReachesPastThreshold(a: TaskId, d: TaskId, b: TaskId) returns (woken: seq<Entry>)
    requires a != d && b != a && b != d
    ensures Reaches(Initial(1), PastThreshold(a, d, woken))
  {
    var w0 := Initial(1);
    var before := TwoTurns(a, d);
    var tasks := map[d := Task(Idle, LIMIT + 2), a := Task(Idle, LIMIT + 2)];
    var charges: map<TaskId, nat> := map[d := 2, a := 2];
    var busy := before + [Entry(LIMIT, b)];
    assert Reaches(w0, Taken(a, d, b, busy, false)) by {
      Wakes(w0, AtRest(tasks, LIMIT, before, charges), b);
      assert tasks[b := Task(ToRun, LIMIT)] == Taken(a, d, b, busy, false).s.tasks;
    }
    QueueFirst(w0, a, d, b, busy);
    QueueSecond(w0, a, d, b, busy);
    woken := busy + [Entry(LIMIT + 2, a)];
    assert Next(Behind(a, d, b, busy), Exit(b)) == PastThreshold(a, d, woken) by {
      ExitWakes(Behind(a, d, b, busy), a, d, b, woken);
    }
    Step(w0, Behind(a, d, b, busy), Exit(b));
  }

  lemma {:induction false} ExitWakes(w: World, a: TaskId, d: TaskId, b: TaskId, woken: seq<Entry>)
    requires a != d && b != a && b != d && woken != []
    requires w.s.tasks == map[d := Task(Ready, LIMIT + 2), a := Task(Ready, LIMIT + 2), b := Task(ToRun, LIMIT)]
    requires w.s.ready == [Entry(LIMIT + 2, a), Entry(LIMIT + 2, d)] && w.s.clock == LIMIT
    requires w.s.cores == 1 && w.s.running == 1 && w.s.woken + [Entry(LIMIT + 2, a)] == woken
    requires w.guards == map[] && w.charges == map[d := 2, a := 2]
    ensures Next(w, Exit(b)) == PastThreshold(a, d, woken)
  {
    var s1 := w.s.(tasks := w.s.tasks - {b}, running := 0);
    assert s1.tasks == map[d := Task(Ready, LIMIT + 2), a := Task(Ready, LIMIT + 2)];
    var s2 := Wake(s1);
    assert s2.ready == [Entry(LIMIT + 2, d)];
    assert s2.tasks == PastThreshold(a, d, woken).s.tasks;
    assert Scheduled(s1) == Scheduled(s2) == s2;
    assert w.charges - {b} == w.charges;
  }

  /**
   The reset does strand a queued task: a run reaches a state with the clock past the threshold in which all
   keys are in reach, and after the reset of the next poll one is neither its task's runtime nor in reach.
   */
  lemma {:induction false} StrandedKeyHappens(a: TaskId, d: TaskId, b: TaskId) returns (w: World)
    requires a != d && b != a && b != d
    ensures Reaches(Initial(1), w) && w.s.clock > RESET_THRESHOLD
    ensures KeysAreRuntimes(w.s) && InReach(w.s, w.charges)
    ensures !KeysAreRuntimes(ClockReset(w.s)) && !InReach(ClockReset(w.s), w.charges)
  {
    var woken := ReachesPastThreshold(a, d, b);
    w := PastThreshold(a, d, woken);
    var s' := ClockReset(w.s);
    assert s'.ready[0] == Entry(LIMIT + 2, d) && s'.tasks[d].vruntime == 0;
  }
}
