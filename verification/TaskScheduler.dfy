/**
 The virtual-runtime task scheduler: Idle, Ready, ToRun and Running tasks, a ready queue ordered by
 virtual runtime, a clock, and a number of cores.
 */
module TaskScheduler {
  import opened Options

  type TaskId(==, !new)

  datatype TaskState = Idle | Ready | ToRun | Running

  datatype Task = Task(state: TaskState, vruntime: nat)

  datatype Entry = Entry(key: nat, id: TaskId)

  // `ready` is a key-ordered multimap: sorted by key, equal keys in any order.  `woken` is the trace of
  // the wakers woken so far, with the keys they were taken out at.
  datatype Sched = Sched(
    tasks: map<TaskId, Task>,
    ready: seq<Entry>,
    clock: nat,
    cores: nat,
    running: int,
    woken: seq<Entry>)

  // Half of the largest 128-bit value.
  const RESET_THRESHOLD: nat := 0x7FFF_FFFF_FFFF_FFFF_FFFF_FFFF_FFFF_FFFF

  function New(cores: nat): Sched
  {
    Sched(map[], [], 0, cores, 0, [])
  }

  /* ---------- the operations, on values ---------- */

  function Rebased(t: Task, clock: nat): Task
  {
    t.(vruntime := if t.vruntime >= clock then t.vruntime - clock else 0)
  }

  function ClockReset(s: Sched): Sched
  {
    if s.clock > RESET_THRESHOLD
    then s.(tasks := map id | id in s.tasks :: Rebased(s.tasks[id], s.clock), clock := 0)
    else s
  }

  /** One turn of the scheduling loop: the first entry leaves the queue, and its task, if any, is woken. */
  function Wake(s: Sched): Sched
    requires s.ready != []
  {
    var e := s.ready[0];
    var s' := s.(ready := s.ready[1..]);
    if e.id !in s.tasks then s'
    else s'.(tasks := s.tasks[e.id := s.tasks[e.id].(state := ToRun)],
             running := s.running + 1, clock := e.key, woken := s.woken + [e])
  }

  function Scheduled(s: Sched): Sched
    decreases |s.ready|
  {
    if s.running < s.cores && s.ready != [] then Scheduled(Wake(s)) else s
  }

  function Exited(s: Sched, id: TaskId): Sched
  {
    if id !in s.tasks then s
    else
      var s' := s.(tasks := s.tasks - {id});
      if s.tasks[id].state in {ToRun, Running} then Scheduled(s'.(running := s.running - 1)) else s'
  }

  /** The task's entry, made Idle at the current clock if missing. */
  function TaskOf(s: Sched, id: TaskId): Task
  {
    if id in s.tasks then s.tasks[id] else Task(Idle, s.clock)
  }

  predicate ValidSlot(ready: seq<Entry>, key: nat, slot: nat)
  {
    && slot <= |ready|
    && (forall i :: 0 <= i < slot ==> ready[i].key <= key)
    && (forall i :: slot <= i < |ready| ==> key <= ready[i].key)
  }

  function Key(s: Sched, id: TaskId): nat
  {
    Max(TaskOf(s, id).vruntime, s.clock)
  }

  function Enqueued(s: Sched, id: TaskId, slot: nat): Sched
    requires slot <= |s.ready|
  {
    var key := Key(s, id);
    s.(tasks := s.tasks[id := Task(Ready, key)], ready := s.ready[..slot] + [Entry(key, id)] + s.ready[slot..])
  }

  /** A poll is legal when the task is not running (the code panics) and `slot` keeps the queue ordered. */
  predicate Pollable(s: Sched, id: TaskId, slot: nat)
  {
    var s0 := ClockReset(s);
    && TaskOf(s0, id).state != Running
    && (TaskOf(s0, id).state == Idle ==> ValidSlot(s0.ready, Key(s0, id), slot))
  }

  function Polled(s: Sched, id: TaskId, slot: nat): Sched
    requires Pollable(s, id, slot)
  {
    var s0 := ClockReset(s);
    match TaskOf(s0, id).state
    case Idle => Scheduled(Enqueued(s0, id, slot))
    case Ready => s0
    case ToRun => s0.(tasks := s0.tasks[id := s0.tasks[id].(state := Running)])
  }

  function Charge(actualCost: nat, weight: nat): (c: nat)
    ensures c >= 1
  {
    Max(actualCost / Max(weight, 1), 1)
  }

  /** Parking a task that is present and not running is a panic in the code. */
  predicate Parkable(s: Sched, id: TaskId)
  {
    id in s.tasks ==> s.tasks[id].state == Running
  }

  function Parked(s: Sched, id: TaskId, vruntime: nat): Sched
    requires Parkable(s, id)
  {
    if id !in s.tasks then s
    else
      var task := Task(Idle, s.tasks[id].vruntime + Max(vruntime, 1));
      Scheduled(s.(tasks := s.tasks[id := task], running := s.running - 1))
  }

  /* ---------- core accounting ---------- */

  function Active(tasks: map<TaskId, Task>): set<TaskId>
  {
    set id | id in tasks && tasks[id].state in {ToRun, Running}
  }

  predicate Ordered(ready: seq<Entry>)
  {
    forall i, j :: 0 <= i < j < |ready| ==> ready[i].key <= ready[j].key && ready[i].id != ready[j].id
  }

  predicate Queued(ready: seq<Entry>, id: TaskId)
  {
    exists i :: 0 <= i < |ready| && ready[i].id == id
  }

  /** The counts and the queue agree with the task states; holds at every turn of the loop. */
  ghost predicate Accounts(s: Sched)
  {
    && s.running == |Active(s.tasks)| <= s.cores
    && Ordered(s.ready)
    && (forall id :: id in s.tasks ==> (s.tasks[id].state == Ready <==> Queued(s.ready, id)))
  }

  /** No core idles while an entry waits. */
  predicate WorkConserving(s: Sched)
  {
    s.running == s.cores || s.ready == []
  }

  /** A guard exists for each running task; a guard of an exited task is allowed to linger. */
  ghost predicate Guarded(s: Sched, guards: set<TaskId>)
  {
    forall id :: id in s.tasks ==> (id in guards <==> s.tasks[id].state == Running)
  }

  lemma {:induction false} ActiveAdd(tasks: map<TaskId, Task>, id: TaskId, task: Task)
    ensures task.state in {ToRun, Running} ==> Active(tasks[id := task]) == Active(tasks) + {id}
    ensures task.state !in {ToRun, Running} ==> Active(tasks[id := task]) == Active(tasks) - {id}
  {
  }

  lemma {:induction false} WakeKeeps(s: Sched, guards: set<TaskId>)
    requires Accounts(s) && Guarded(s, guards) && s.ready != [] && s.running < s.cores
    ensures Accounts(Wake(s)) && Guarded(Wake(s), guards)
  {
    var e := s.ready[0];
    var s' := Wake(s);
    if e.id in s.tasks {
      assert Queued(s.ready, e.id);
      ActiveAdd(s.tasks, e.id, s'.tasks[e.id]);
    }
    forall id | id in s'.tasks
      ensures s'.tasks[id].state == Ready <==> Queued(s'.ready, id)
    {
      if Queued(s.ready, id) && id != e.id {
        var i :| 0 <= i < |s.ready| && s.ready[i].id == id;
        assert s'.ready[i - 1].id == id;
      }
    }
  }

  lemma {:induction false} ScheduledKeeps(s: Sched, guards: set<TaskId>)
    requires Accounts(s) && Guarded(s, guards)
    ensures Accounts(Scheduled(s)) && Guarded(Scheduled(s), guards) && WorkConserving(Scheduled(s))
    decreases |s.ready|
  {
    if s.running < s.cores && s.ready != [] {
      WakeKeeps(s, guards);
      ScheduledKeeps(Wake(s), guards);
    }
  }

  predicate KeysSorted(ready: seq<Entry>)
  {
    forall i, j :: 0 <= i < j < |ready| ==> ready[i].key <= ready[j].key
  }

  lemma {:induction false} ScheduledSorted(s: Sched)
    requires KeysSorted(s.ready)
    ensures KeysSorted(Scheduled(s).ready)
    decreases |s.ready|
  {
    if s.running < s.cores && s.ready != [] {
      ScheduledSorted(Wake(s));
    }
  }

  lemma {:induction false} ResetKeeps(s: Sched, guards: set<TaskId>)
    requires Accounts(s) && Guarded(s, guards)
    ensures Accounts(ClockReset(s)) && Guarded(ClockReset(s), guards)
  {
    assert Active(ClockReset(s).tasks) == Active(s.tasks);
  }

  lemma {:induction false} InsertedOrdered(ready: seq<Entry>, e: Entry, slot: nat)
    requires Ordered(ready) && ValidSlot(ready, e.key, slot) && !Queued(ready, e.id)
    ensures Ordered(ready[..slot] + [e] + ready[slot..])
  {
    assert forall i :: 0 <= i < |ready| ==> ready[i].id != e.id;
  }

  lemma {:induction false} InsertedQueued(ready: seq<Entry>, e: Entry, slot: nat, id: TaskId)
    requires slot <= |ready|
    ensures Queued(ready[..slot] + [e] + ready[slot..], id) <==> id == e.id || Queued(ready, id)
  {
    var ready' := ready[..slot] + [e] + ready[slot..];
    assert ready'[slot] == e;
    if Queued(ready, id) {
      var i :| 0 <= i < |ready| && ready[i].id == id;
      assert ready'[if i < slot then i else i + 1].id == id;
    }
  }

  /** The entry may be added when the id is in no queue entry yet. */
  lemma {:induction false} EnqueuedKeeps(s: Sched, guards: set<TaskId>, id: TaskId, slot: nat)
    requires Accounts(s) && Guarded(s, guards)
    requires TaskOf(s, id).state == Idle && ValidSlot(s.ready, Key(s, id), slot)
    requires id !in s.tasks ==> id !in guards && !Queued(s.ready, id)
    ensures Accounts(Enqueued(s, id, slot)) && Guarded(Enqueued(s, id, slot), guards)
  {
    var s' := Enqueued(s, id, slot);
    ActiveAdd(s.tasks, id, s'.tasks[id]);
    assert Active(s'.tasks) == Active(s.tasks);
    InsertedOrdered(s.ready, Entry(Key(s, id), id), slot);
    forall other | other in s'.tasks
      ensures s'.tasks[other].state == Ready <==> Queued(s'.ready, other)
    {
      InsertedQueued(s.ready, Entry(Key(s, id), id), slot, other);
    }
  }

  /** A task id that a poll may bring back: known, or with no old guard and no old queue entry. */
  predicate Fresh(s: Sched, guards: set<TaskId>, id: TaskId)
  {
    id !in s.tasks ==> id !in guards && !Queued(s.ready, id)
  }

  function GuardsAfterPoll(s: Sched, guards: set<TaskId>, id: TaskId, slot: nat): set<TaskId>
    requires Pollable(s, id, slot)
  {
    if TaskOf(ClockReset(s), id).state == ToRun then guards + {id} else guards
  }

  lemma {:induction false} PolledKeeps(s: Sched, guards: set<TaskId>, id: TaskId, slot: nat)
    requires Accounts(s) && Guarded(s, guards) && WorkConserving(s)
    requires Pollable(s, id, slot) && Fresh(s, guards, id)
    ensures var s' := Polled(s, id, slot);
      Accounts(s') && Guarded(s', GuardsAfterPoll(s, guards, id, slot)) && WorkConserving(s')
  {
    var s0 := ClockReset(s);
    ResetKeeps(s, guards);
    match TaskOf(s0, id).state
    case Idle =>
      EnqueuedKeeps(s0, guards, id, slot);
      ScheduledKeeps(Enqueued(s0, id, slot), guards);
    case Ready =>
    case ToRun =>
      ActiveAdd(s0.tasks, id, s0.tasks[id].(state := Running));
      assert Active(Polled(s, id, slot).tasks) == Active(s0.tasks);
  }

  /**
   The accounting survives a poll exactly when the id is fresh: bringing an exited id back while an old
   guard or an old queue entry of it remains breaks it, and nothing else does.
   */
  lemma {:induction false} PolledKeepsIffFresh(s: Sched, guards: set<TaskId>, id: TaskId, slot: nat)
    requires Accounts(s) && Guarded(s, guards) && WorkConserving(s) && Pollable(s, id, slot)
    ensures Fresh(s, guards, id) <==>
      (Accounts(Polled(s, id, slot)) && Guarded(Polled(s, id, slot), GuardsAfterPoll(s, guards, id, slot)))
  {
    if Fresh(s, guards, id) {
      PolledKeeps(s, guards, id, slot);
    } else {
      var s0 := ClockReset(s);
      var s1 := Enqueued(s0, id, slot);
      if Queued(s.ready, id) {
        var i :| 0 <= i < |s.ready| && s.ready[i].id == id;
        assert s1.ready[slot].id == id && s1.ready[if i < slot then i else i + 1].id == id;
        assert Scheduled(s1) == s1;
      } else {
        ScheduledNeverRuns(s1, id);
        assert id in guards;
      }
    }
  }

  /** The scheduling loop never makes a task Running; only a poll of a woken task does. */
  lemma {:induction false} ScheduledNeverRuns(s: Sched, id: TaskId)
    requires id in s.tasks && s.tasks[id].state != Running
    ensures id in Scheduled(s).tasks && Scheduled(s).tasks[id].state != Running
    decreases |s.ready|
  {
    if s.running < s.cores && s.ready != [] {
      ScheduledNeverRuns(Wake(s), id);
    }
  }

  lemma {:induction false} ParkedKeeps(s: Sched, guards: set<TaskId>, id: TaskId, vruntime: nat)
    requires Accounts(s) && Guarded(s, guards) && WorkConserving(s) && id in guards
    ensures Parkable(s, id)
    ensures var s' := Parked(s, id, vruntime);
      Accounts(s') && Guarded(s', guards - {id}) && WorkConserving(s')
  {
    if id in s.tasks {
      var task := Task(Idle, s.tasks[id].vruntime + Max(vruntime, 1));
      var s1 := s.(tasks := s.tasks[id := task], running := s.running - 1);
      ActiveAdd(s.tasks, id, task);
      assert id in Active(s.tasks);
      ScheduledKeeps(s1, guards - {id});
    }
  }

  lemma {:induction false} ExitedKeeps(s: Sched, guards: set<TaskId>, id: TaskId)
    requires Accounts(s) && Guarded(s, guards) && WorkConserving(s)
    ensures Accounts(Exited(s, id)) && Guarded(Exited(s, id), guards) && WorkConserving(Exited(s, id))
  {
    if id in s.tasks {
      var s1 := s.(tasks := s.tasks - {id});
      assert Active(s1.tasks) == Active(s.tasks) - {id};
      if s.tasks[id].state in {ToRun, Running} {
        assert id in Active(s.tasks);
        ScheduledKeeps(s1.(running := s.running - 1), guards);
      }
    }
  }

  /* ---------- the scheduler object ---------- */

  class Scheduler {
    const cores: nat
    var tasks: map<TaskId, Task>
    var ready: seq<Entry>
    var clock: nat
    var running: int
    var woken: seq<Entry>

    ghost function View(): Sched
      reads this
    {
      Sched(tasks, ready, clock, cores, running, woken)
    }

    constructor (cores: nat)
      ensures View() == New(cores)
    {
      this.cores := cores;
      tasks, ready, clock, running, woken := map[], [], 0, 0, [];
    }

    /** Wakes ready tasks until all the cores are taken. */
    method Schedule()
      modifies this
      ensures View() == Scheduled(old(View()))
    {
      while running < cores && ready != []
        invariant Scheduled(View()) == Scheduled(old(View()))
        decreases |ready|
      {
        var entry := ready[0];
        ready := ready[1..];
        if entry.id !in tasks {
          continue;
        }
        running := running + 1;
        clock := entry.key;
        tasks := tasks[entry.id := tasks[entry.id].(state := ToRun)];
        woken := woken + [entry];
      }
    }

    method MaybeResetClock()
      modifies this
      ensures View() == ClockReset(old(View()))
    {
      if clock > RESET_THRESHOLD {
        var left := tasks.Keys;
        while left != {}
          invariant left <= tasks.Keys == old(tasks).Keys
          invariant forall id :: id in tasks ==>
            tasks[id] == if id in left then old(tasks)[id] else Rebased(old(tasks)[id], clock)
          invariant ready == old(ready) && clock == old(clock) && running == old(running) && woken == old(woken)
          decreases |left|
        {
          var id :| id in left;
          var t := tasks[id];
          tasks := tasks[id := t.(vruntime := if t.vruntime >= clock then t.vruntime - clock else 0)];
          left := left - {id};
        }
        clock := 0;
      }
    }

    method FindSlot(key: nat) returns (slot: nat)
      requires KeysSorted(ready)
      ensures ValidSlot(ready, key, slot)
    {
      slot := |ready|;
      while slot > 0 && ready[slot - 1].key > key
        invariant slot <= |ready|
        invariant forall i :: slot <= i < |ready| ==> key <= ready[i].key
      {
        slot := slot - 1;
      }
    }

    /** Returns whether the caller got a guard. The poll of a running task is a panic. */
    method PollResume(id: TaskId) returns (granted: bool, ghost slot: nat)
      requires KeysSorted(ready)
      requires id in tasks ==> tasks[id].state != Running
      modifies this
      ensures Pollable(old(View()), id, slot)
      ensures View() == Polled(old(View()), id, slot)
      ensures granted <==> TaskOf(old(View()), id).state == ToRun
      ensures KeysSorted(ready)
    {
      MaybeResetClock();
      var task := if id in tasks then tasks[id] else Task(Idle, clock);
      slot := 0;
      match task.state {
        case Idle =>
          var key := Max(task.vruntime, clock);
          var place := FindSlot(key);
          slot := place;
          tasks := tasks[id := Task(Ready, key)];
          ready := ready[..place] + [Entry(key, id)] + ready[place..];
          ScheduledSorted(View());
          Schedule();
          granted := false;
        case Ready =>
          granted := false;
        case ToRun =>
          tasks := tasks[id := task.(state := Running)];
          granted := true;
      }
    }

    method Park(id: TaskId, vruntime: nat)
      requires Parkable(View(), id)
      modifies this
      ensures View() == Parked(old(View()), id, vruntime)
    {
      if id !in tasks {
        return;
      }
      var task := tasks[id];
      tasks := tasks[id := Task(Idle, task.vruntime + Max(vruntime, 1))];
      running := running - 1;
      Schedule();
    }

    method Exit(id: TaskId)
      modifies this
      ensures View() == Exited(old(View()), id)
    {
      if id !in tasks {
        return;
      }
      var task := tasks[id];
      tasks := tasks - {id};
      if task.state in {ToRun, Running} {
        running := running - 1;
        Schedule();
      }
    }
  }
}
