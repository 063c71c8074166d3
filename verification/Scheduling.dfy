/**
 The scheduling half of the MINIX process table (kernel/proc.c): sixteen ready
 queues, the policy that picks a queue, and the cached choice `next_ptr`.

 Processes are named by their slot in the process table; the process number used
 by the C code is the slot number minus NR_TASKS.
 */
module Scheduling {
  import opened Lists

  const NR_TASKS: nat := 4
  const NR_SCHED_QUEUES: nat := 16
  const IDLE_Q: nat := 15
  const NIL: int := -1          // NIL_PROC

  const IDLE: nat := 0
  const SYSTEM: nat := 2
  const HARDWARE: nat := 3
  const PM: nat := 4

  /** p_priority, p_max_priority, p_ticks_left and p_quantum_size. */
  datatype Quantum = Quantum(priority: int, maxPriority: int, ticksLeft: int, size: int)

  /**
   The scheduler's state: one `Quantum` per slot, the queues as sequences, next_ptr,
   proc_ptr, bill_ptr and sched()'s static prev_ptr.  `billable` holds the slots whose
   privileges carry BILLABLE.
   */
  datatype Sched = Sched(
    quantum: seq<Quantum>, ready: seq<seq<nat>>,
    next: int, current: int, bill: int, prev: int, billable: set<int>)

  /** The first process of the lowest-numbered nonempty queue from `q` on, or NIL. */
  function Choice(ready: seq<seq<nat>>, q: nat): int
    requires q <= |ready|
    decreases |ready| - q
  {
    if q == |ready| then NIL
    else if ready[q] != [] then ready[q][0]
    else Choice(ready, q + 1)
  }

  /** pick_proc() */
  function PickProc(sc: Sched): Sched {
    var p := Choice(sc.ready, 0);
    if p == NIL then sc
    else sc.(next := p, bill := if p in sc.billable then p else sc.bill)
  }

  /** The new priority sched() computes for a process whose quantum is used up. */
  function Repriced(q: Quantum, penalty: int): int {
    var p := q.priority + penalty;
    if p < q.maxPriority then q.maxPriority
    else if p > IDLE_Q - 1 then IDLE_Q - 1
    else p
  }

  /** sched(): the process' new quantum and priority. */
  function Policy(sc: Sched, p: nat): Sched
    requires p < |sc.quantum|
  {
    var q := sc.quantum[p];
    if q.ticksLeft > 0 then sc
    else
      var priority := if p < NR_TASKS then q.priority
                      else Repriced(q, if sc.prev == p then 1 else -1);
      sc.(quantum := sc.quantum[p := q.(ticksLeft := q.size, priority := priority)], prev := p)
  }

  /** enqueue(): to the front when time was left, else to the back. */
  function Enqueue(sc: Sched, p: nat): (r: Sched)
    requires Sized(sc) && p < |sc.quantum|
    ensures Sized(r) && |r.quantum| == |sc.quantum| && r.current == sc.current
  {
    PolicySized(sc, p);
    var sc1 := Policy(sc, p);
    var q := sc1.quantum[p].priority;
    var line := if sc.quantum[p].ticksLeft > 0 then [p] + sc1.ready[q] else sc1.ready[q] + [p];
    PickProc(sc1.(ready := sc1.ready[q := line]))
  }

  /** dequeue() */
  function Dequeue(sc: Sched, p: nat): (r: Sched)
    requires Sized(sc) && p < |sc.quantum|
    ensures Sized(r) && r.quantum == sc.quantum && r.current == sc.current
  {
    var q := sc.quantum[p].priority;
    if p !in sc.ready[q] then sc
    else
      var sc1 := sc.(ready := sc.ready[q := Without(sc.ready[q], p)]);
      if p == sc.current || p == sc.next then PickProc(sc1) else sc1
  }

  /**
   Priorities name queues; one of a process that is not a kernel task lies between the best
   it may have and the last queue before IDLE's.
   */
  predicate Ranked(p: int, q: Quantum) {
    && 0 <= q.priority < NR_SCHED_QUEUES && 0 <= q.maxPriority < NR_SCHED_QUEUES
    && (p >= NR_TASKS ==> q.maxPriority <= q.priority <= IDLE_Q - 1)
  }

  predicate Sized(sc: Sched) {
    && |sc.ready| == NR_SCHED_QUEUES
    && forall p :: 0 <= p < |sc.quantum| ==> Ranked(p, sc.quantum[p])
  }

  /**
   What scheduling keeps: queue `q` holds, once each, exactly the runnable processes
   of priority `q`, and next_ptr is what pick_proc() would choose.
   */
  ghost predicate Queued(sc: Sched, runnable: set<nat>) {
    Listed(sc, runnable) && sc.next == Choice(sc.ready, 0)
  }

  ghost predicate Listed(sc: Sched, runnable: set<nat>) {
    Sized(sc) && Lined(sc.ready, sc.quantum, runnable)
  }

  ghost predicate Lined(ready: seq<seq<nat>>, quantum: seq<Quantum>, runnable: set<nat>)
    requires |ready| == NR_SCHED_QUEUES
  {
    && (forall q :: 0 <= q < NR_SCHED_QUEUES ==> NoDup(ready[q]))
    && (forall q, p: nat {:trigger p in ready[q]} {:trigger p in runnable, ready[q]} {:trigger quantum[p], ready[q]} ::
         0 <= q < NR_SCHED_QUEUES ==>
         (p in ready[q] <==> p < |quantum| && p in runnable && quantum[p].priority == q))
  }

  /** clock_handler(): a process is charged for `ticks` clock ticks. */
  function Ticked(sc: Sched, p: nat, ticks: nat): Sched
    requires p < |sc.quantum|
  {
    sc.(quantum := sc.quantum[p := sc.quantum[p].(ticksLeft := sc.quantum[p].ticksLeft - ticks)])
  }

  /** do_clocktick(): a process whose quantum is used up is taken off the queues and put back. */
  function Requeued(sc: Sched, p: nat): (r: Sched)
    requires Sized(sc) && p < |sc.quantum|
    ensures Sized(r) && |r.quantum| == |sc.quantum| && r.current == sc.current
  {
    Enqueue(Dequeue(sc, p), p)
  }

  // ---- What the scheduling functions mean for a process ----------------------------------

  /** pick_proc() recorded its choice; a billable one is billed from now on. */
  predicate Picked(sc: Sched, r: Sched) {
    && r.next == Choice(r.ready, 0) && r.current == sc.current && r.billable == sc.billable
    && r.bill == if r.next in sc.billable then r.next else sc.bill
  }

  /**
   sched() for process `p`, whose record `q` becomes `q'`.  With time left nothing changes.
   Without, it gets a new quantum; if it was also the last one to run out of time it sinks by
   one queue, at most to the last before IDLE's, and otherwise it rises by one, at most to its
   best.  Kernel tasks neither sink nor rise.
   */
  predicate Rescheduled(p: nat, q: Quantum, prev: int, q': Quantum, prev': int) {
    && q'.size == q.size && q'.maxPriority == q.maxPriority
    && (q.ticksLeft > 0 ==> q' == q && prev' == prev)
    && (q.ticksLeft <= 0 ==>
          && q'.ticksLeft == q.size && prev' == p
          && (p < NR_TASKS ==> q'.priority == q.priority)
          && (p >= NR_TASKS && prev == p && q.priority < IDLE_Q - 1 ==> q'.priority == q.priority + 1)
          && (p >= NR_TASKS && prev == p && q.priority == IDLE_Q - 1 ==> q'.priority == IDLE_Q - 1)
          && (p >= NR_TASKS && prev != p && q.priority > q.maxPriority ==> q'.priority == q.priority - 1)
          && (p >= NR_TASKS && prev != p && q.priority == q.maxPriority ==> q'.priority == q.maxPriority))
  }

  /** A process that is put on a queue heads it when it had time left, and else ends it. */
  ghost predicate Enqueued(sc: Sched, p: nat, r: Sched) {
    && p < |sc.quantum| == |r.quantum| && Sized(sc) && Sized(r) && Picked(sc, r)
    && var q, q' := sc.quantum[p], r.quantum[p];
       && r.quantum == sc.quantum[p := q'] && Rescheduled(p, q, sc.prev, q', r.prev)
       && r.ready == sc.ready[q'.priority := if q.ticksLeft > 0 then [p] + sc.ready[q'.priority]
                                             else sc.ready[q'.priority] + [p]]
  }

  lemma EnqueueMeans(sc: Sched, p: nat)
    requires Sized(sc) && p < |sc.quantum|
    ensures Enqueued(sc, p, Enqueue(sc, p))
  {
    ChoiceExists(Enqueue(sc, p).ready, 0, Enqueue(sc, p).quantum[p].priority);
  }

  /** A process sinks exactly when it runs out of time twice in a row and is not at the bottom. */
  lemma SinksIff(sc: Sched, p: nat)
    requires Sized(sc) && NR_TASKS <= p < |sc.quantum|
    ensures Enqueue(sc, p).quantum[p].priority > sc.quantum[p].priority <==>
            sc.quantum[p].ticksLeft <= 0 && sc.prev == p && sc.quantum[p].priority < IDLE_Q - 1
  {
    EnqueueMeans(sc, p);
  }

  /** A process taken off its queue keeps its quantum, and every other process its place. */
  ghost predicate Dequeued(sc: Sched, p: nat, r: Sched) {
    && p < |sc.quantum| && Sized(sc) && r.quantum == sc.quantum && r.prev == sc.prev && r.current == sc.current
    && r.ready == sc.ready[sc.quantum[p].priority := Without(sc.ready[sc.quantum[p].priority], p)]
    && (p !in sc.ready[sc.quantum[p].priority] ==> r == sc)
    && (p != sc.current && p != sc.next ==> r.next == sc.next && r.bill == sc.bill)
    && (p in sc.ready[sc.quantum[p].priority] && (p == sc.current || p == sc.next) && Choice(r.ready, 0) != NIL ==>
          Picked(sc, r))
  }

  lemma DequeueMeans(sc: Sched, p: nat)
    requires Sized(sc) && p < |sc.quantum|
    ensures Dequeued(sc, p, Dequeue(sc, p))
  {
    var q := sc.quantum[p].priority;
    if p !in sc.ready[q] {
      WithoutAbsent(sc.ready[q], p);
      assert sc.ready[q := sc.ready[q]] == sc.ready;
    }
  }

  lemma PolicySized(sc: Sched, p: nat)
    requires Sized(sc) && p < |sc.quantum|
    ensures Sized(Policy(sc, p)) && |Policy(sc, p).quantum| == |sc.quantum|
  {
  }

  /** A queue that is nonempty makes the choice a process of some nonempty queue. */
  lemma {:induction false} ChoiceExists(ready: seq<seq<nat>>, from: nat, q: nat)
    requires from <= q < |ready| && ready[q] != []
    ensures Choice(ready, from) != NIL
    decreases q - from
  {
    if ready[from] == [] {
      ChoiceExists(ready, from + 1, q);
    }
  }

  lemma {:induction false} ChoiceEmpty(ready: seq<seq<nat>>, from: nat)
    requires from <= |ready| && forall q :: 0 <= q < |ready| ==> ready[q] == []
    ensures Choice(ready, from) == NIL
    decreases |ready| - from
  {
    if from < |ready| {
      ChoiceEmpty(ready, from + 1);
    }
  }

  /** Removing anything but the chosen process leaves the choice alone. */
  lemma {:induction false} ChoiceStable(ready: seq<seq<nat>>, from: nat, q: nat, p: nat)
    requires from <= |ready| && q < |ready| && NoDup(ready[q]) && p in ready[q]
    requires Choice(ready, from) != p
    ensures Choice(ready[q := Without(ready[q], p)], from) == Choice(ready, from)
    decreases |ready| - from
  {
    if from < |ready| && ready[from] == [] {
      ChoiceStable(ready, from + 1, q, p);
    }
  }

  lemma EnqueueQueued(sc: Sched, runnable: set<nat>, p: nat)
    requires Listed(sc, runnable) && p < |sc.quantum| && p !in runnable
    ensures Queued(Enqueue(sc, p), runnable + {p})
  {
    var sc1 := Policy(sc, p);
    var q := sc1.quantum[p].priority;
    AppendNoDup(sc.ready[q], p);
    ChoiceExists(Enqueue(sc, p).ready, 0, q);
  }

  lemma DequeueListed(sc: Sched, runnable: set<nat>, p: nat)
    requires Listed(sc, runnable) && p < |sc.quantum| && p in runnable
    ensures Listed(Dequeue(sc, p), runnable - {p})
  {
    WithoutNoDup(sc.ready[sc.quantum[p].priority], p);
  }

  lemma DequeueQueued(sc: Sched, runnable: set<nat>, p: nat)
    requires Queued(sc, runnable) && p < |sc.quantum| && p in runnable
    requires IDLE < |sc.quantum| && IDLE in runnable && p != IDLE
    ensures Queued(Dequeue(sc, p), runnable - {p})
  {
    DequeueListed(sc, runnable, p);
    ChoiceExists(Dequeue(sc, p).ready, 0, sc.quantum[IDLE].priority);
    if p != sc.next {
      ChoiceStable(sc.ready, 0, sc.quantum[p].priority, p);
    }
  }

  lemma TickedQueued(sc: Sched, runnable: set<nat>, p: nat, ticks: nat)
    requires Queued(sc, runnable) && p < |sc.quantum|
    ensures Queued(Ticked(sc, p, ticks), runnable)
  {
    var r := Ticked(sc, p, ticks);
    forall x | 0 <= x < |r.quantum| ensures Ranked(x, r.quantum[x]) && r.quantum[x].priority == sc.quantum[x].priority {
      assert Ranked(x, sc.quantum[x]);
    }
  }

  /** Requeueing keeps the queues right exactly for a process that is still runnable. */
  lemma RequeuedQueued(sc: Sched, runnable: set<nat>, p: nat)
    requires Queued(sc, runnable) && p < |sc.quantum|
    ensures Queued(Requeued(sc, p), runnable) <==> p in runnable
  {
    if p in runnable {
      DequeueListed(sc, runnable, p);
      EnqueueQueued(Dequeue(sc, p), runnable - {p}, p);
      assert runnable - {p} + {p} == runnable;
    } else {
      assert p in Requeued(sc, p).ready[Requeued(sc, p).quantum[p].priority];
    }
  }
}
