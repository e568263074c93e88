/** What a task's turn costs it, told in numbers, and what the clock reset keeps. */
module TaskCosts {
  import opened Options
  import opened Quotients
  import opened TaskScheduler
  import opened TaskFairness

  /** The scheduling loop leaves a task alone that is not queued. */
  lemma {:induction false} ScheduledSkips(s: Sched, id: TaskId)
    requires id in s.tasks && !Queued(s.ready, id)
    ensures id in Scheduled(s).tasks && Scheduled(s).tasks[id] == s.tasks[id]
    decreases |s.ready|
  {
    if s.running < s.cores && s.ready != [] {
      var s' := Wake(s);
      assert s.ready[0].id != id;
      assert forall i :: 0 <= i < |s'.ready| ==> s'.ready[i] == s.ready[i + 1];
      ScheduledSkips(s', id);
    }
  }

  /** What the drop of a live task's guard adds to the task's virtual runtime. */
  function RuntimeAdded(w: World, id: TaskId, cost: nat): int
    requires Enabled(w, DropGuard(id, cost)) && id in w.s.tasks && id in Next(w, DropGuard(id, cost)).s.tasks
  {
    Next(w, DropGuard(id, cost)).s.tasks[id].vruntime - w.s.tasks[id].vruntime
  }

  lemma {:induction false} DropLeavesIdle(w: World, id: TaskId, cost: nat)
    requires CoreInv(w) && id in w.guards && id in w.s.tasks
    ensures Enabled(w, DropGuard(id, cost))
    ensures var tasks := Next(w, DropGuard(id, cost)).s.tasks;
      id in tasks && tasks[id] == Task(Idle, w.s.tasks[id].vruntime + Charge(cost, w.guards[id]))
  {
    var charge := Charge(cost, w.guards[id]);
    ScheduledSkips(Charged(w.s, id, charge), id);
  }

  /** The actual cost divided by the guard's weight, rounded down, and at least 1. */
  lemma {:induction false} DropCharges(w: World, id: TaskId, cost: nat)
    requires CoreInv(w) && id in w.guards && id in w.s.tasks
    ensures Enabled(w, DropGuard(id, cost)) && id in Next(w, DropGuard(id, cost)).s.tasks
    ensures var c, v := RuntimeAdded(w, id, cost), Max(w.guards[id], 1);
      c >= 1 && (c == 1 || c * v <= cost) && cost < (c + 1) * v
  {
    DropLeavesIdle(w, id, cost);
    var v := Max(w.guards[id], 1);
    var x := QuotientBounds(cost, v);
    ProductGrows(x + 1, Max(x, 1) + 1, v);
  }

  /** A guard keeps the weight it was handed out with until it is dropped. */
  lemma {:induction false} GuardKeepsWeight(w: World, es: seq<Event>, id: TaskId)
    requires CoreInv(w) && Legal(w, es) && id in w.guards
    requires forall i :: 0 <= i < |es| && es[i].DropGuard? ==> es[i].id != id
    ensures CoreInv(Run(w, es)) && id in Run(w, es).guards && Run(w, es).guards[id] == w.guards[id]
    decreases |es|
  {
    if es != [] {
      NextKeepsCores(w, es[0]);
      GuardKeepsWeight(Next(w, es[0]), es[1..], id);
    }
  }

  /**
   The law of a turn: a task polled to run with some weight, whose guard is dropped after anything else has
   happened, has its runtime raised by the actual cost divided by that weight, rounded down, and at least 1.
   */
  lemma {:induction false} TurnCharges(w: World, id: TaskId, weight: nat, slot: nat, es: seq<Event>, cost: nat)
    requires CoreInv(w) && Enabled(w, Poll(id, weight, slot)) && id in w.s.tasks && w.s.tasks[id].state == ToRun
    requires Legal(Next(w, Poll(id, weight, slot)), es)
    requires forall i :: 0 <= i < |es| && es[i].DropGuard? ==> es[i].id != id
    requires id in Run(Next(w, Poll(id, weight, slot)), es).s.tasks
    ensures var w' := Run(Next(w, Poll(id, weight, slot)), es);
      && Enabled(w', DropGuard(id, cost)) && id in Next(w', DropGuard(id, cost)).s.tasks
      && var c, v := RuntimeAdded(w', id, cost), Max(weight, 1);
         c >= 1 && (c == 1 || c * v <= cost) && cost < (c + 1) * v
  {
    var w1 := Next(w, Poll(id, weight, slot));
    NextKeepsCores(w, Poll(id, weight, slot));
    GuardKeepsWeight(w1, es, id);
    DropCharges(Run(w1, es), id, cost);
  }

  /** A larger weight never costs more. */
  lemma {:induction false} HeavierRunsLonger(w: World, w': World, id: TaskId, cost: nat)
    requires CoreInv(w) && id in w.guards && id in w.s.tasks
    requires CoreInv(w') && id in w'.guards && id in w'.s.tasks && w.guards[id] <= w'.guards[id]
    ensures Enabled(w, DropGuard(id, cost)) && id in Next(w, DropGuard(id, cost)).s.tasks
    ensures Enabled(w', DropGuard(id, cost)) && id in Next(w', DropGuard(id, cost)).s.tasks
    ensures RuntimeAdded(w', id, cost) <= RuntimeAdded(w, id, cost)
  {
    DropLeavesIdle(w, id, cost);
    DropLeavesIdle(w', id, cost);
    SmallerDivisor(cost, Max(w.guards[id], 1), Max(w'.guards[id], 1));
  }

  /** How far ahead of the clock a task's next queue entry would stand. */
  function Lead(s: Sched, id: TaskId): int
  {
    if id in s.tasks && s.tasks[id].vruntime > s.clock then s.tasks[id].vruntime - s.clock else 0
  }

  /** Past half of the 128-bit range the clock starts again; every task keeps its state and its lead in any case. */
  lemma {:induction false} ResetKeepsLeads(s: Sched, id: TaskId)
    ensures var s' := ClockReset(s);
      && s'.clock == (if 2 * s.clock >= 0x1_0000_0000_0000_0000_0000_0000_0000_0000 then 0 else s.clock)
      && (id in s'.tasks <==> id in s.tasks)
      && Lead(s', id) == Lead(s, id)
      && (id in s.tasks ==> s'.tasks[id].state == s.tasks[id].state)
  {
  }

  /** A poll of an idle or unknown task queues it exactly its lead ahead of the clock, and at the clock without one. */
  lemma {:induction false} PollQueuesAtLead(s: Sched, id: TaskId, slot: nat)
    requires Pollable(s, id, slot) && TaskOf(s, id).state == Idle && s.running >= s.cores
    ensures var s' := Polled(s, id, slot);
      multiset(s'.ready) == multiset(s.ready) + multiset{Entry(ClockReset(s).clock + Lead(s, id), id)}
  {
    ResetKeepsLeads(s, id);
    var s0 := ClockReset(s);
    assert s0.ready == s0.ready[..slot] + s0.ready[slot..];
    assert Scheduled(Enqueued(s0, id, slot)) == Enqueued(s0, id, slot);
  }

  /** A queue entry of a task that is gone is dropped without a trace. */
  lemma {:induction false} StaleEntryIgnored(s: Sched)
    requires s.ready != [] && s.ready[0].id !in s.tasks && s.running < s.cores
    ensures Scheduled(s) == Scheduled(s.(ready := s.ready[1..]))
  {
  }
}
