/**
 The ready queues as kernel/proc.c keeps them: linked through p_nextready, with a head
 and a tail per queue, all updated in place.  Each method computes the function of the
 same name in module Scheduling.
 */
module ReadyQueues {
  import opened Lists
  import opened Scheduling
  import Sched0 = Scheduling

  /**
   The links and heads denote the queues, rdy_tail[q] is the last process of a nonempty
   queue, and every queued process is a slot that stands in the queue of its priority.
   */
  ghost predicate Threaded(
    next: seq<int>, heads: seq<int>, tails: seq<int>, ready: seq<seq<nat>>, quantum: seq<Quantum>)
  {
    Rows(next, NIL, heads, ready) && Tailed(tails, ready) && Placed(ready, quantum)
  }

  ghost predicate Tailed(tails: seq<int>, ready: seq<seq<nat>>) {
    && |tails| == |ready|
    && (forall q :: 0 <= q < |ready| && ready[q] != [] ==> tails[q] == ready[q][|ready[q]| - 1])
  }

  ghost predicate Placed(ready: seq<seq<nat>>, quantum: seq<Quantum>) {
    forall q: nat, p: nat {:trigger p in ready[q]} ::
      q < |ready| && p in ready[q] ==> p < |quantum| && quantum[p].priority == q
  }

  lemma InsertFirst(
    next: seq<int>, heads: seq<int>, tails: seq<int>, ready: seq<seq<nat>>, quantum: seq<Quantum>, p: nat)
    requires Threaded(next, heads, tails, ready, quantum) && p < |quantum| == |next|
    requires forall i :: 0 <= i < |ready| ==> p !in ready[i]
    requires 0 <= quantum[p].priority < |ready| && heads[quantum[p].priority] == NIL
    ensures var q := quantum[p].priority;
            && ready[q] == [] && Threaded(next[p := NIL], heads[q := p], tails[q := p], ready[q := [p]], quantum)
  {
    var q := quantum[p].priority;
    assert Linked(next, NIL, heads[q], ready[q]);
    RowsAppend(next, NIL, heads, ready, q, p);
  }

  lemma InsertFront(
    next: seq<int>, heads: seq<int>, tails: seq<int>, ready: seq<seq<nat>>, quantum: seq<Quantum>, p: nat)
    requires Threaded(next, heads, tails, ready, quantum) && p < |quantum| == |next|
    requires forall i :: 0 <= i < |ready| ==> p !in ready[i]
    requires 0 <= quantum[p].priority < |ready| && heads[quantum[p].priority] != NIL
    ensures var q := quantum[p].priority;
            Threaded(next[p := heads[q]], heads[q := p], tails, ready[q := [p] + ready[q]], quantum)
  {
    var q := quantum[p].priority;
    assert Linked(next, NIL, heads[q], ready[q]);
    RowsPush(next, NIL, heads, ready, q, p);
  }

  lemma InsertBack(
    next: seq<int>, heads: seq<int>, tails: seq<int>, ready: seq<seq<nat>>, quantum: seq<Quantum>, p: nat)
    requires Threaded(next, heads, tails, ready, quantum) && p < |quantum| == |next|
    requires forall i :: 0 <= i < |ready| ==> p !in ready[i]
    requires 0 <= quantum[p].priority < |ready| && heads[quantum[p].priority] != NIL
    ensures var q := quantum[p].priority;
            && 0 <= tails[q] < |next|
            && Threaded(next[tails[q] := p][p := NIL], heads, tails[q := p], ready[q := ready[q] + [p]], quantum)
  {
    var q := quantum[p].priority;
    assert Linked(next, NIL, heads[q], ready[q]);
    RowsAppend(next, NIL, heads, ready, q, p);
  }

  /** The last process of a queue once the `k`-th was taken out. */
  lemma UnlinkLast(s: seq<nat>, k: nat)
    requires NoDup(s) && k < |s|
    ensures var r := Without<nat>(s, s[k]);
            && |r| == |s| - 1
            && (r != [] ==> r[|r| - 1] == if k < |s| - 1 then s[|s| - 1] else s[k - 1])
            && (k < |s| - 1 <==> s[k] != s[|s| - 1])
  {
    WithoutAt<nat>(s, s[k], k);
  }

  /** What rdy_tail becomes when the `k`-th process is taken out of queue `q`. */
  ghost function TailsWithout(tails: seq<int>, ready: seq<seq<nat>>, q: nat, k: nat): seq<int>
    requires q < |ready| == |tails| && k < |ready[q]|
  {
    if ready[q][k] == tails[q] then tails[q := if k == 0 then NIL else ready[q][k - 1]] else tails
  }

  lemma Unlink(
    next: seq<int>, heads: seq<int>, tails: seq<int>, ready: seq<seq<nat>>, quantum: seq<Quantum>, q: nat, k: nat,
    next': seq<int>, heads': seq<int>, ready': seq<seq<nat>>)
    requires Threaded(next, heads, tails, ready, quantum) && q < |ready| && k < |ready[q]|
    requires ready[q][k] < |next| && (k > 0 ==> ready[q][k - 1] < |next|)
    requires next' == if k == 0 then next else next[ready[q][k - 1] := next[ready[q][k]]]
    requires heads' == if k == 0 then heads[q := next[ready[q][k]]] else heads
    requires ready' == ready[q := Without<nat>(ready[q], ready[q][k])]
    ensures Threaded(next', heads', TailsWithout(tails, ready, q, k), ready', quantum)
  {
    RowsUnlink(next, NIL, heads, ready, q, k);
    UnlinkTailed(tails, ready, q, k);
    UnlinkPlaced(ready, quantum, q, ready[q][k]);
  }

  lemma UnlinkTailed(tails: seq<int>, ready: seq<seq<nat>>, q: nat, k: nat)
    requires Tailed(tails, ready) && q < |ready| && k < |ready[q]| && NoDup(ready[q])
    ensures Tailed(TailsWithout(tails, ready, q, k), ready[q := Without<nat>(ready[q], ready[q][k])])
  {
    UnlinkLast(ready[q], k);
  }

  lemma UnlinkPlaced(ready: seq<seq<nat>>, quantum: seq<Quantum>, q: nat, p: nat)
    requires Placed(ready, quantum) && q < |ready|
    ensures Placed(ready[q := Without<nat>(ready[q], p)], quantum)
  {
  }

  class Scheduler {
    const quantum: array<Quantum>     // p_priority, p_max_priority, p_ticks_left, p_quantum_size
    const nextReady: array<int>       // p_nextready
    const rdyHead: array<int>
    const rdyTail: array<int>
    const billable: set<int>          // slots with BILLABLE privileges
    var nextPtr: int
    var procPtr: int
    var billPtr: int
    var prevPtr: int                  // sched()'s static prev_ptr
    ghost var ready: seq<seq<nat>>    // what the lists denote

    ghost const Repr: set<object> := {this, quantum, nextReady, rdyHead, rdyTail}

    ghost function Abs(): Sched
      reads this, quantum
    {
      Sched(quantum[..], ready, nextPtr, procPtr, billPtr, prevPtr, billable)
    }

    ghost predicate Valid()
      reads Repr
    {
      && nextReady != rdyHead && nextReady != rdyTail && rdyHead != rdyTail
      && quantum.Length == nextReady.Length && rdyHead.Length == rdyTail.Length == NR_SCHED_QUEUES
      && Sized(Abs())
      && Threaded(nextReady[..], rdyHead[..], rdyTail[..], ready, quantum[..])
    }

    constructor (quantum: array<Quantum>, billable: set<int>, current: int)
      requires forall p :: 0 <= p < quantum.Length ==> Ranked(p, quantum[p])
      ensures Valid() && fresh(Repr - {quantum})
      ensures this.quantum == quantum && this.billable == billable && procPtr == current
      ensures ready == seq(NR_SCHED_QUEUES, _ => []) && nextPtr == billPtr == prevPtr == NIL
    {
      this.quantum := quantum;
      this.billable := billable;
      nextReady := new int[quantum.Length](_ => NIL);
      rdyHead := new int[NR_SCHED_QUEUES](_ => NIL);
      rdyTail := new int[NR_SCHED_QUEUES](_ => NIL);
      nextPtr, billPtr, prevPtr, procPtr := NIL, NIL, NIL, current;
      ready := seq(NR_SCHED_QUEUES, _ => []);
    }

    /** pick_proc() */
    method PickProc()
      requires Valid()
      modifies this`nextPtr, this`billPtr
      ensures Valid() && Abs() == Sched0.PickProc(old(Abs()))
    {
      var q := 0;
      while q < NR_SCHED_QUEUES
        invariant 0 <= q <= NR_SCHED_QUEUES
        invariant Choice(ready, 0) == Choice(ready, q)
        invariant Abs() == old(Abs())
      {
        var rp := rdyHead[q];
        assert Linked(nextReady[..], NIL, rdyHead[q], ready[q]);
        if rp != NIL {
          nextPtr := rp;
          if rp in billable {
            billPtr := rp;
          }
          return;
        }
        q := q + 1;
      }
    }

    /** sched(): may give a new quantum and priority; returns the queue and the end to use. */
    method Policy(p: nat) returns (q: int, front: bool)
      requires Valid() && p < quantum.Length && forall i :: 0 <= i < |ready| ==> p !in ready[i]
      modifies quantum, this`prevPtr
      ensures Valid() && Abs() == Sched0.Policy(old(Abs()), p)
      ensures Rescheduled(p, old(quantum[p]), old(prevPtr), quantum[p], prevPtr)
      ensures q == quantum[p].priority && front == (old(quantum[p]).ticksLeft > 0)
    {
      var timeLeft := quantum[p].ticksLeft > 0;
      var penalty := 0;
      if !timeLeft {
        quantum[p] := quantum[p].(ticksLeft := quantum[p].size);
        if prevPtr == p { penalty := penalty + 1; } else { penalty := penalty - 1; }
        prevPtr := p;
      }
      if penalty != 0 && p >= NR_TASKS {
        var priority := quantum[p].priority + penalty;
        if priority < quantum[p].maxPriority {
          priority := quantum[p].maxPriority;
        } else if priority > IDLE_Q - 1 {
          priority := IDLE_Q - 1;
        }
        quantum[p] := quantum[p].(priority := priority);
      }
      assert quantum[..] == Sched0.Policy(old(Abs()), p).quantum;
      return quantum[p].priority, timeLeft;
    }

    /** The list surgery of enqueue(). */
    method Insert(p: nat, q: nat, front: bool)
      requires Valid() && p < quantum.Length && forall i :: 0 <= i < |ready| ==> p !in ready[i]
      requires q == quantum[p].priority
      modifies nextReady, rdyHead, rdyTail, this`ready
      ensures Valid()
      ensures ready == old(ready)[q := if front then [p] + old(ready)[q] else old(ready)[q] + [p]]
    {
      ghost var next, heads, tails := nextReady[..], rdyHead[..], rdyTail[..];
      if rdyHead[q] == NIL {
        InsertFirst(next, heads, tails, ready, quantum[..], p);
        rdyHead[q] := p;
        rdyTail[q] := p;
        nextReady[p] := NIL;
        ready := ready[q := [p]];
        assert [p] + [] == [] + [p] == [p];
        assert nextReady[..] == next[p := NIL] && rdyHead[..] == heads[q := p] && rdyTail[..] == tails[q := p];
      } else if front {
        InsertFront(next, heads, tails, ready, quantum[..], p);
        nextReady[p] := rdyHead[q];
        rdyHead[q] := p;
        ready := ready[q := [p] + ready[q]];
        assert nextReady[..] == next[p := heads[q]] && rdyHead[..] == heads[q := p];
      } else {
        InsertBack(next, heads, tails, ready, quantum[..], p);
        nextReady[rdyTail[q]] := p;
        rdyTail[q] := p;
        nextReady[p] := NIL;
        ready := ready[q := ready[q] + [p]];
        assert nextReady[..] == next[tails[q] := p][p := NIL] && rdyTail[..] == tails[q := p];
      }
    }

    /** clock_handler(): charge a process for clock ticks. */
    method Charge(p: nat, ticks: nat)
      requires Valid() && p < quantum.Length
      modifies quantum
      ensures Valid() && Abs() == Sched0.Ticked(old(Abs()), p, ticks)
    {
      quantum[p] := quantum[p].(ticksLeft := quantum[p].ticksLeft - ticks);
      assert quantum[..] == old(quantum[..])[p := quantum[p]];
    }

    /** enqueue() */
    method Enqueue(p: nat)
      requires Valid() && p < quantum.Length && forall i :: 0 <= i < |ready| ==> p !in ready[i]
      modifies Repr
      ensures Valid() && Abs() == Sched0.Enqueue(old(Abs()), p) && Enqueued(old(Abs()), p, Abs())
    {
      EnqueueMeans(Abs(), p);
      Place(p);
    }

    /** Its work: the policy's queue, the end of it that the policy says, and a new choice. */
    method Place(p: nat)
      requires Valid() && p < quantum.Length && forall i :: 0 <= i < |ready| ==> p !in ready[i]
      modifies Repr
      ensures Valid() && Abs() == Sched0.Enqueue(old(Abs()), p)
    {
      var q, front := Policy(p);
      Insert(p, q, front);
      PickProc();
    }

    /** dequeue() */
    method Dequeue(p: nat)
      requires Valid() && p < quantum.Length
      modifies Repr
      ensures Valid() && Abs() == Sched0.Dequeue(old(Abs()), p) && Dequeued(old(Abs()), p, Abs())
    {
      DequeueMeans(Abs(), p);
      var q := quantum[p].priority;
      var prev, found;
      ghost var k;
      prev, found, k := FindReady(p, q);
      if found {
        Remove(p, q, prev, k);
        if p == procPtr || p == nextPtr {
          PickProc();
        }
      }
    }

    /** dequeue()'s walk: the process before `p` in queue `q`, or NIL when `p` is its head. */
    method FindReady(p: nat, q: nat) returns (prev: int, found: bool, ghost k: nat)
      requires Valid() && q < NR_SCHED_QUEUES
      ensures found == (p in ready[q])
      ensures found ==> k < |ready[q]| && ready[q][k] == p && prev == if k == 0 then NIL else ready[q][k - 1]
    {
      var x := rdyHead[q];
      prev, k := NIL, 0;
      assert Linked(nextReady[..], NIL, rdyHead[q], ready[q]);
      while x != NIL && x != p
        invariant 0 <= k <= |ready[q]| && x == if k < |ready[q]| then ready[q][k] else NIL
        invariant prev == (if k == 0 then NIL else ready[q][k - 1])
        invariant p !in ready[q][..k]
        decreases |ready[q]| - k
      {
        assert nextReady[..][ready[q][k]] == Successor(ready[q], k, NIL);
        prev := x;
        x := nextReady[x];
        k := k + 1;
      }
      found := x == p;
    }

    /** The list surgery of dequeue(). */
    method Remove(p: nat, q: nat, prev: int, ghost k: nat)
      requires Valid() && q < NR_SCHED_QUEUES && k < |ready[q]| && ready[q][k] == p
      requires prev == if k == 0 then NIL else ready[q][k - 1]
      modifies nextReady, rdyHead, rdyTail, this`ready
      ensures Valid() && ready == old(ready)[q := Without(old(ready)[q], p)]
    {
      ghost var next, heads, tails, was := nextReady[..], rdyHead[..], rdyTail[..], ready;
      assert Linked(next, NIL, heads[q], ready[q]);
      if prev == NIL {
        rdyHead[q] := nextReady[p];
        assert rdyHead[..] == heads[q := next[p]];
      } else {
        nextReady[prev] := nextReady[p];
        assert nextReady[..] == next[prev := next[p]];
      }
      if p == rdyTail[q] {
        rdyTail[q] := prev;
        assert rdyTail[..] == tails[q := prev];
      }
      ready := ready[q := Without<nat>(ready[q], p)];
      Unlink(next, heads, tails, was, quantum[..], q, k, nextReady[..], rdyHead[..], ready);
    }
  }
}
