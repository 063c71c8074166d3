/**
 kernel/proc.c, kernel/system.c and the signal and exit calls as they run: a process
 table updated in place, caller queues linked through p_q_link, and the scheduler.
 Every method is proved to compute the step of the same name in module Ipc.
 */
module KernelObject {
  import opened Lists
  import opened Scheduling
  import opened Ipc
  import opened WaitGraph
  import opened Invariants
  import opened KernelRuns
  import opened KernelOutcomes
  import opened ReadyQueues

  /** A table of free slots is a machine that was just switched on. */
  lemma AllFree(s: State, blank: Msg)
    requires PM < |s.proc| == |s.callers| == |s.rights| == |s.hist| == |s.sched.quantum| && Sized(s.sched)
    requires forall p :: 0 <= p < |s.proc| ==>
      s.proc[p] == Proc(SLOT_FREE, 0, Any, blank, {}, false, {}, {}, {}, Some(p)) && s.callers[p] == []
    requires forall p :: 0 <= p < |s.hist| ==> s.hist[p] == NO_HISTORY
    requires forall q :: 0 <= q < NR_SCHED_QUEUES ==> s.sched.ready[q] == []
    requires s.sched.next == NIL && s.sched.current == IDLE && s.rights[IDLE].traps == {}
    ensures PoweredOn(s)
  {
  }

  lemma NoCallers(next: seq<int>, heads: seq<int>, rows: seq<seq<nat>>)
    requires |heads| == |rows|
    requires forall i :: 0 <= i < |rows| ==> heads[i] == NIL && rows[i] == []
    ensures Rows(next, NIL, heads, rows)
  {
  }

  class Kernel {
    const proc: array<Proc>
    const callerQ: array<int>               // p_caller_q
    const qLink: array<int>                 // p_q_link
    const rights: seq<Rights>
    const sched: Scheduler
    var shutdown: bool
    ghost var callers: seq<seq<nat>>        // what the caller queues denote
    ghost var hist: seq<History>

    ghost const Repr: set<object> := {this, proc, callerQ, qLink} + sched.Repr

    ghost function Abs(): State
      reads this, proc, sched, sched.quantum
    {
      State(proc[..], callers, sched.Abs(), rights, shutdown, hist)
    }

    ghost predicate Valid()
      reads Repr
    {
      && {this, proc, callerQ, qLink} !! sched.Repr && callerQ != qLink
      && proc.Length == callerQ.Length == qLink.Length
      && sched.Valid()
      && Sane(Abs())
      && Rows(qLink[..], NIL, callerQ[..], callers)
    }

    /** The tables as main() (kernel/main.c) clears them: every slot free. */
    constructor (quantum: array<Quantum>, rights: seq<Rights>, billable: set<int>, blank: Msg)
      requires PM < quantum.Length == |rights| && rights[IDLE].traps == {}
      requires forall p :: 0 <= p < quantum.Length ==> Ranked(p, quantum[p])
      ensures Valid() && PoweredOn(Abs())
    {
      var n := quantum.Length;
      proc := new Proc[n](p => Proc(SLOT_FREE, 0, Any, blank, {}, false, {}, {}, {}, Some(p)));
      callerQ := new int[n](_ => NIL);
      qLink := new int[n](_ => NIL);
      this.rights := rights;
      sched := new Scheduler(quantum, billable, IDLE);
      shutdown := false;
      callers := seq(n, _ => []);
      hist := seq(n, _ => NO_HISTORY);
      new;
      AllFree(Abs(), blank);
      NoCallers(qLink[..], callerQ[..], callers);
    }

    // ---- Flags and ready queues -------------------------------------------------

    /** An update of one slot. */
    method Put(p: nat, v: Proc)
      requires Valid() && p < proc.Length && v.sendTo < proc.Length
      requires forall x :: x in v.notified ==> x < proc.Length
      modifies proc
      ensures Valid() && Abs() == SetProc(old(Abs()), p, v)
    {
      proc[p] := v;
      assert proc[..] == old(proc[..])[p := v];
    }

    /** An entry in the history; nothing a real kernel does. */
    ghost method Record(h: seq<History>)
      requires Valid() && |h| == |hist|
      modifies this`hist
      ensures Valid() && Abs() == old(Abs()).(hist := h)
    {
      hist := h;
    }

    /** enqueue() */
    method Wake(p: nat)
      requires Valid() && p < proc.Length && forall q :: 0 <= q < |sched.ready| ==> p !in sched.ready[q]
      modifies sched.Repr
      ensures Valid() && Abs() == old(Abs()).(sched := Scheduling.Enqueue(old(Abs()).sched, p))
    {
      sched.Place(p);
    }

    /** Set flags; a process that was runnable leaves its ready queue. */
    method Hold(p: nat, r: Rts)
      requires Valid() && p < proc.Length && r != RUNNABLE
      modifies proc, sched.Repr
      ensures Valid() && Abs() == Reflag(old(Abs()), p, r)
    {
      if proc[p].rts == RUNNABLE {
        sched.Dequeue(p);
      }
      Put(p, proc[p].(rts := r));
    }

    /** Clear flags of a blocked process; with none left it goes on a ready queue. */
    method Release(p: nat, r: Rts)
      requires Valid() && p < proc.Length && proc[p].rts != RUNNABLE
      requires forall q :: 0 <= q < |sched.ready| ==> p !in sched.ready[q]
      modifies proc, sched.Repr
      ensures Valid() && Abs() == Reflag(old(Abs()), p, r)
    {
      Put(p, proc[p].(rts := r));
      if r == RUNNABLE {
        Wake(p);
      }
    }

    // ---- Caller queues ---------------------------------------------------------------

    /** mini_send(): find the end of `d`'s queue and add `c` there. */
    method AppendCaller(d: nat, c: nat)
      requires Valid() && d < proc.Length && c < proc.Length
      requires forall e :: 0 <= e < |callers| ==> c !in callers[e]
      modifies callerQ, qLink, this`callers
      ensures Valid() && Abs() == old(Abs()).(callers := old(callers)[d := old(callers)[d] + [c]])
    {
      var prev := LastCaller(d);
      LinkCaller(d, c, prev);
    }

    /** The walk to the end of the queue: its last entry, or NIL. */
    method LastCaller(d: nat) returns (prev: int)
      requires Valid() && d < proc.Length
      ensures prev == if callers[d] == [] then NIL else callers[d][|callers[d]| - 1]
    {
      var x := callerQ[d];
      ghost var k := 0;
      prev := NIL;
      assert Linked(qLink[..], NIL, callerQ[..][d], callers[d]);
      while x != NIL
        invariant 0 <= k <= |callers[d]| && x == if k < |callers[d]| then callers[d][k] else NIL
        invariant prev == if k == 0 then NIL else callers[d][k - 1]
        decreases |callers[d]| - k
      {
        assert qLink[..][callers[d][k]] == Successor(callers[d], k, NIL);
        prev, x, k := x, qLink[x], k + 1;
      }
    }

    method LinkCaller(d: nat, c: nat, prev: int)
      requires Valid() && d < proc.Length && c < proc.Length
      requires forall e :: 0 <= e < |callers| ==> c !in callers[e]
      requires prev == if callers[d] == [] then NIL else callers[d][|callers[d]| - 1]
      modifies callerQ, qLink, this`callers
      ensures Valid() && Abs() == old(Abs()).(callers := old(callers)[d := old(callers)[d] + [c]])
    {
      ghost var next, heads := qLink[..], callerQ[..];
      assert Linked(next, NIL, heads[d], callers[d]);
      RowsAppend(next, NIL, heads, callers, d, c);
      assert prev == NIL ==> [] + [c] == [c];
      SetLinks(d, c, prev);
      callers := callers[d := callers[d] + [c]];
    }

    method SetLinks(d: nat, c: nat, prev: int)
      requires callerQ != qLink && d < callerQ.Length && c < qLink.Length && (prev == NIL || 0 <= prev < qLink.Length)
      modifies callerQ, qLink
      ensures callerQ[..] == if prev == NIL then old(callerQ[..])[d := c] else old(callerQ[..])
      ensures qLink[..] == (if prev == NIL then old(qLink[..]) else old(qLink[..])[prev := c])[c := NIL]
    {
      if prev == NIL {
        callerQ[d] := c;
      } else {
        qLink[prev] := c;
      }
      qLink[c] := NIL;
    }

    /** mini_receive(), clear_proc(): the first caller of `d` that fits, and the one before it. */
    method FindCaller(d: nat, src: Source) returns (prev: int, x: int, ghost k: nat)
      requires Valid() && d < proc.Length && NoDup(callers[d])
      ensures FirstCaller(callers[d], src) == if x == NIL then None else Some(x)
      ensures x != NIL ==> k < |callers[d]| && callers[d][k] == x && prev == if k == 0 then NIL else callers[d][k - 1]
    {
      prev, x, k := NIL, callerQ[d], 0;
      assert Linked(qLink[..], NIL, callerQ[d], callers[d]);
      while x != NIL && !(src == Any || src == Only(x))
        invariant 0 <= k <= |callers[d]| && x == if k < |callers[d]| then callers[d][k] else NIL
        invariant prev == if k == 0 then NIL else callers[d][k - 1]
        invariant src == Any ==> k == 0
        invariant src != Any ==> src.slot !in callers[d][..k]
        decreases |callers[d]| - k
      {
        assert qLink[..][callers[d][k]] == Successor(callers[d], k, NIL);
        prev, x, k := x, qLink[x], k + 1;
      }
    }

    /** Take the entry found by FindCaller() out of the chain. */
    method RemoveCaller(d: nat, x: nat, prev: int, ghost k: nat)
      requires Valid() && d < proc.Length && k < |callers[d]| && callers[d][k] == x
      requires prev == if k == 0 then NIL else callers[d][k - 1]
      modifies callerQ, qLink, this`callers
      ensures Valid() && Abs() == old(Abs()).(callers := old(callers)[d := Without(old(callers)[d], x)])
    {
      ghost var next, heads := qLink[..], callerQ[..];
      assert Linked(next, NIL, heads[d], callers[d]);
      RowsUnlink(next, NIL, heads, callers, d, k);
      if prev == NIL {
        callerQ[d] := qLink[x];
        assert callerQ[..] == heads[d := next[x]];
      } else {
        qLink[prev] := qLink[x];
        assert qLink[..] == next[prev := next[x]];
      }
      callers := callers[d := Without<nat>(callers[d], x)];
    }

    // ---- mini_send ---------------------------------------------------------------------

    /** The walk along p_sendto; it ends because the wait-for graph has no cycle. */
    method Deadlocks(c: nat, d: nat) returns (cyclic: bool)
      requires Valid() && Acyclic(Abs()) && c < proc.Length && d < proc.Length
      ensures cyclic == Deadlock(Abs(), c, d)
    {
      ghost var s := Abs();
      var xp := d;
      ghost var k := 0;
      WalkEnds(s, d);
      while proc[xp].rts.sending
        invariant 0 <= xp < proc.Length && Hop(s, d, k) == Some(xp) && 0 <= k < proc.Length
        invariant forall i :: 0 < i <= k ==> Hop(s, d, i) != Some(c)
        decreases proc.Length - k
      {
        HopCompose(s, d, k, 1);
        xp, k := proc[xp].sendTo, k + 1;
        assert Hop(s, d, k) == Some(xp);
        if xp == c {
          return true;
        }
      }
      forall i | i > k ensures Hop(s, d, i) == None {
        HopCompose(s, d, k, i - k);
      }
      return false;
    }

    /** mini_send()'s first branch: the destination is waiting. */
    method HandOver(c: nat, d: nat, m: Msg)
      requires Valid() && Scheduled(Abs()) && c < proc.Length && d < proc.Length && proc[d].rts.receiving
      modifies proc, sched.Repr, this`hist
      ensures Valid() && Abs() == Ipc.HandOver(old(Abs()), c, d, m)
    {
      Idle(d);
      Record(Copy(Post(Abs(), c, d, m), c, d, m).hist);
      Release(d, proc[d].rts.(receiving := false));
    }

    /** mini_send()'s second branch: block the caller at the end of the queue. */
    method Block(c: nat, d: nat, m: Msg)
      requires Valid() && QueuesOk(Abs()) && c < proc.Length && d < proc.Length && !proc[c].rts.sending
      modifies Repr
      ensures Valid() && Abs() == Ipc.Block(old(Abs()), c, d, m)
    {
      ghost var s := Abs();
      assert forall e :: 0 <= e < |callers| ==> c !in callers[e];
      Record(Post(s, c, d, m).hist);
      Hold(c, proc[c].rts.(sending := true));
      Put(c, proc[c].(sendTo := d, outbox := m));
      AppendCaller(d, c);
    }

    method MiniSend(c: nat, d: nat, m: Msg, nonBlocking: bool) returns (r: Result)
      requires Valid() && Inv(Abs()) && c < proc.Length && d < proc.Length && proc[c].rts == RUNNABLE
      modifies Repr
      ensures Valid() && Abs() == Ipc.MiniSend(old(Abs()), c, d, m, nonBlocking).0
      ensures r == Ipc.MiniSend(old(Abs()), c, d, m, nonBlocking).1
      ensures SendOutcome(old(Abs()), c, d, m, nonBlocking, Abs(), r)
    {
      SendMeans(Abs(), c, d, m, nonBlocking);
      var cyclic := Deadlocks(c, d);
      if cyclic {
        return ELOCKED;
      }
      if proc[d].rts.receiving && !proc[d].rts.sending && (proc[d].getFrom == Any || proc[d].getFrom == Only(c)) {
        HandOver(c, d, m);
      } else if !nonBlocking {
        Block(c, d, m);
      } else {
        return ENOTREADY;
      }
      return OK;
    }

    // ---- Notifications -----------------------------------------------------------------

    /** The search of s_notify_pending, a chunk at a time and in it bit by bit. */
    method FindNotice(c: nat, src: Source) returns (id: int)
      requires Valid() && c < proc.Length
      ensures Scan(Abs(), proc[c].notified, src, 0) == if id == NIL then None else Some(id)
      ensures id == NIL || 0 <= id < proc.Length
    {
      ghost var s, bits := Abs(), proc[c].notified;
      var lo := 0;
      while lo < proc.Length
        invariant 0 <= lo && Scan(s, bits, src, 0) == Scan(s, bits, src, lo)
      {
        var i := lo;
        while i < lo + CHUNK && i !in proc[c].notified
          invariant lo <= i <= lo + CHUNK
          invariant Lowest(bits, lo, lo + CHUNK) == Lowest(bits, i, lo + CHUNK)
        {
          i := i + 1;
        }
        if i < lo + CHUNK {
          if i >= proc.Length {
            return NIL;
          }
          if src == Any || (proc[i].owner.Some? && src == Only(proc[i].owner.value)) {
            return i;
          }
        }
        lo := lo + CHUNK;
      }
      return NIL;
    }

    /** BuildMess and CopyMess */
    method Announce(q: nat, origin: Option<nat>)
      requires Valid() && q < proc.Length
      modifies proc, this`hist
      ensures Valid() && Abs() == Ipc.Announce(old(Abs()), q, origin)
    {
      Record(Ipc.Announce(Abs(), q, origin).hist);
      if origin == Some(HARDWARE) {
        Put(q, proc[q].(ints := {}));
      } else if origin == Some(SYSTEM) {
        Put(q, proc[q].(sigs := {}));
      }
    }

    method MiniNotify(src: nat, d: nat)
      requires Valid() && Scheduled(Abs()) && src < proc.Length && d < proc.Length
      modifies proc, sched.Repr, this`hist
      ensures Valid() && Abs() == Ipc.MiniNotify(old(Abs()), src, d)
      ensures NotifyOutcome(old(Abs()), src, d, Abs())
    {
      NotifyMeans(Abs(), src, d);
      var v := proc[d];
      if v.rts.receiving && !v.rts.sending && !v.busy && (v.getFrom == Any || v.getFrom == Only(src)) {
        Idle(d);
        Announce(d, Some(src));
        Release(d, proc[d].rts.(receiving := false));
      } else {
        Put(d, v.(notified := v.notified + {src}));
      }
    }

    // ---- mini_receive --------------------------------------------------------------------

    method TakeNotice(c: nat, id: nat)
      requires Valid() && c < proc.Length && id < proc.Length
      modifies proc, this`hist
      ensures Valid() && Abs() == Ipc.TakeNotice(old(Abs()), c, id)
    {
      Put(c, proc[c].(notified := proc[c].notified - {id}));
      Announce(c, proc[id].owner);
    }

    method TakeMessage(c: nat, x: nat, prev: int, ghost k: nat)
      requires Valid() && Inv(Abs()) && c < proc.Length && k < |callers[c]| && callers[c][k] == x
      requires prev == if k == 0 then NIL else callers[c][k - 1]
      modifies Repr
      ensures Valid() && Abs() == Ipc.TakeMessage(old(Abs()), c, x)
    {
      Idle(x);
      Record(Copy(Abs(), x, c, proc[x].outbox).hist);
      Release(x, proc[x].rts.(sending := false));
      RemoveCaller(c, x, prev, k);
    }

    /** The search of the caller queue. */
    method ServeCaller(c: nat, src: Source) returns (served: bool)
      requires Valid() && Inv(Abs()) && c < proc.Length
      modifies Repr
      ensures Valid() && served == FirstCaller(old(callers)[c], src).Some?
      ensures Abs() == if served then Ipc.TakeMessage(old(Abs()), c, FirstCaller(old(callers)[c], src).value)
                       else old(Abs())
    {
      var prev, x;
      ghost var k;
      prev, x, k := FindCaller(c, src);
      if x != NIL {
        TakeMessage(c, x, prev, k);
      }
      return x != NIL;
    }

    method Await(c: nat, src: Source)
      requires Valid() && c < proc.Length
      modifies proc, sched.Repr
      ensures Valid() && Abs() == Ipc.Await(old(Abs()), c, src)
    {
      Put(c, proc[c].(getFrom := src));
      Hold(c, proc[c].rts.(receiving := true));
    }

    /** The first half of the search: a notification, unless SENDREC forbids it. */
    method ServeNotice(c: nat, src: Source) returns (served: bool)
      requires Valid() && c < proc.Length && !proc[c].rts.sending
      modifies proc, this`hist
      ensures Valid() && (served <==> FoundNotice(old(Abs()), c, src).Some?)
      ensures Abs() == if served then Ipc.TakeNotice(old(Abs()), c, FoundNotice(old(Abs()), c, src).value)
                       else old(Abs())
    {
      if proc[c].busy {
        return false;
      }
      var id := FindNotice(c, src);
      if id == NIL {
        return false;
      }
      TakeNotice(c, id);
      return true;
    }

    /** What is pending and fits: a notification first, else the longest-waiting caller. */
    method Search(c: nat, src: Source) returns (served: bool)
      requires Valid() && Inv(Abs()) && c < proc.Length && !proc[c].rts.sending
      modifies Repr
      ensures Valid() && (served <==> FoundNotice(old(Abs()), c, src).Some? || FoundCaller(old(Abs()), c, src).Some?)
      ensures served ==> Abs() == Ipc.MiniReceive(old(Abs()), c, src, false).0
      ensures !served ==> Abs() == old(Abs())
    {
      served := ServeNotice(c, src);
      if !served {
        served := ServeCaller(c, src);
      }
    }

    method MiniReceive(c: nat, src: Source, nonBlocking: bool) returns (r: Result)
      requires Valid() && Inv(Abs()) && c < proc.Length
      modifies Repr
      ensures Valid() && Abs() == Ipc.MiniReceive(old(Abs()), c, src, nonBlocking).0
      ensures r == Ipc.MiniReceive(old(Abs()), c, src, nonBlocking).1
      ensures src == Any || src.slot < proc.Length ==> ReceiveOutcome(old(Abs()), c, src, nonBlocking, Abs(), r)
    {
      if src == Any || src.slot < proc.Length {
        ReceiveMeans(Abs(), c, src, nonBlocking);
      }
      var served := false;
      if !proc[c].rts.sending {
        served := Search(c, src);
      }
      if served {
        return OK;
      }
      if nonBlocking {
        return ENOTREADY;
      }
      Await(c, src);
      return OK;
    }

    // ---- sys_call ----------------------------------------------------------------------

    method SetBusy(c: nat, b: bool)
      requires Valid() && c < proc.Length
      modifies proc
      ensures Valid() && Abs() == Ipc.SetBusy(old(Abs()), c, b)
    {
      Put(c, proc[c].(busy := b));
    }

    method SendRec(c: nat, d: nat, m: Msg, nonBlocking: bool) returns (r: Result)
      requires Valid() && Inv(Abs()) && c < proc.Length && d < proc.Length && (c != d || nonBlocking) && c != IDLE
      requires proc[c].rts == RUNNABLE
      modifies Repr
      ensures Valid() && Abs() == Ipc.SendRec(old(Abs()), c, d, m, nonBlocking).0
      ensures r == Ipc.SendRec(old(Abs()), c, d, m, nonBlocking).1
    {
      BusyInv(Abs(), c, true);
      SetBusy(c, true);
      MiniSendInv(Abs(), c, d, m, nonBlocking);
      r := MiniSend(c, d, m, nonBlocking);
      if r == OK {
        r := MiniReceive(c, Only(d), nonBlocking);
      }
    }

    method Receive(c: nat, src: Source, nonBlocking: bool) returns (r: Result)
      requires Valid() && Inv(Abs()) && c < proc.Length && proc[c].rts == RUNNABLE
      modifies Repr
      ensures Valid() && Abs() == Ipc.MiniReceive(Ipc.SetBusy(old(Abs()), c, false), c, src, nonBlocking).0
      ensures r == Ipc.MiniReceive(Ipc.SetBusy(old(Abs()), c, false), c, src, nonBlocking).1
    {
      BusyInv(Abs(), c, false);
      SetBusy(c, false);
      r := MiniReceive(c, src, nonBlocking);
    }

    /** The checks of sys_call(), in their order. */
    method Check(c: nat, t: Trap) returns (q: Request)
      requires Valid() && c < proc.Length
      requires ChecksDst(t.fn) && t.srcDst == ANY ==> IsSlot(Abs(), ANY)
      ensures q == Decode(Abs(), c, t)
    {
      var slot := t.srcDst + NR_TASKS;
      var known := 0 <= slot < proc.Length;
      if t.fn !in rights[c].traps || (t.srcDst < 0 && t.fn != SENDREC && t.fn != RECEIVE) {
        return Refuse(ECALLDENIED);
      }
      if !(known || t.srcDst == ANY || t.fn == ECHO) {
        return Refuse(EBADSRCDST);
      }
      if ChecksPtr(t.fn) && !t.ptrOk {
        return Refuse(EFAULT);
      }
      if ChecksDst(t.fn) {
        if slot !in rights[c].ipcTo {
          return Refuse(ECALLDENIED);
        }
        if proc[slot].rts == SLOT_FREE && !shutdown {
          return Refuse(EDEADDST);
        }
      }
      if t.fn == SEND {
        return DoSend(slot);
      } else if t.fn == SENDREC {
        return DoSendRec(slot);
      } else if t.fn == RECEIVE {
        return DoReceive(if t.srcDst == ANY then Any else Only(slot));
      } else if t.fn == NOTIFY {
        return DoNotify(slot);
      } else if t.fn == ECHO {
        return DoEcho;
      }
      return Refuse(EBADCALL);
    }

    /** sys_call() */
    method SysCall(t: Trap) returns (r: Result)
      requires Valid() && Inv(Abs()) && Enabled(Abs(), Call(t))
      modifies Repr
      ensures Valid() && Inv(Abs()) && Abs() == Ipc.SysCall(old(Abs()), t).0 && r == Ipc.SysCall(old(Abs()), t).1
      ensures CallOutcome(old(Abs()), t, Abs(), r)
    {
      CallMeans(Abs(), t);
      SysCallInv(Abs(), t);
      Decoded(Abs(), t);
      var q := Check(sched.procPtr, t);
      r := Perform(sched.procPtr, q, t.body, t.nonBlocking);
    }

    /** The switch at the end of sys_call(). */
    method Perform(c: nat, q: Request, m: Msg, nonBlocking: bool) returns (r: Result)
      requires Valid() && Inv(Abs()) && c < proc.Length && Names(Abs(), q) && proc[c].rts == RUNNABLE
      requires !q.Refuse? ==> c != IDLE
      requires q.DoSend? || q.DoSendRec? ==> q.dest != c || nonBlocking
      modifies Repr
      ensures Valid() && Abs() == Ipc.Perform(old(Abs()), c, q, m, nonBlocking).0
      ensures r == Ipc.Perform(old(Abs()), c, q, m, nonBlocking).1
    {
      match q
      case DoSend(d) => r := MiniSend(c, d, m, nonBlocking);
      case DoSendRec(d) => r := SendRec(c, d, m, nonBlocking);
      case DoReceive(src) => r := Receive(c, src, nonBlocking);
      case DoNotify(d) => MiniNotify(c, d); r := OK;
      case DoEcho => r := OK;
      case Refuse(error) => r := error;
    }

    /** lock_send(): a task's reply, never blocking. */
    method LockSend(d: nat, m: Msg) returns (r: Result)
      requires Valid() && Inv(Abs()) && Enabled(Abs(), Reply(d, m))
      modifies Repr
      ensures Valid() && Inv(Abs()) && Abs() == Apply(old(Abs()), Reply(d, m))
      ensures r == Ipc.MiniSend(old(Abs()), old(sched.procPtr), d, m, true).1
      ensures SendOutcome(old(Abs()), old(sched.procPtr), d, m, true, Abs(), r)
      ensures callers == old(callers) && proc[old(sched.procPtr)] == old(proc[sched.procPtr])
      ensures r == OK ==> Wants(old(proc[d]), old(sched.procPtr))
    {
      StepInv(Abs(), Reply(d, m));
      r := MiniSend(sched.procPtr, d, m, true);
    }

    // ---- Interrupts, signals and exit ------------------------------------------------------

    /** generic_handler() (system/do_irqctl.c) */
    method Interrupt(p: nat, id: nat)
      requires Valid() && Inv(Abs()) && p < proc.Length
      modifies Repr
      ensures Valid() && Inv(Abs()) && Abs() == Ipc.Interrupt(old(Abs()), p, id)
      ensures Alerted(old(Abs()), p, HARDWARE, old(proc[p]).ints + {id}, old(proc[p]).sigs, Abs())
    {
      InterruptMeans(Abs(), p, id);
      InterruptInv(Abs(), p, id);
      Alarm(p, id);
    }

    method Alarm(p: nat, id: nat)
      requires Valid() && Scheduled(Abs()) && p < proc.Length
      modifies Repr
      ensures Valid() && Abs() == Ipc.Interrupt(old(Abs()), p, id)
    {
      ghost var s := Abs();
      Put(p, proc[p].(ints := proc[p].ints + {id}));
      Record(SetHist(Abs(), p, hist[p].(irqs := hist[p].irqs + [Sent(id)])).hist);
      SameRts(s, Abs());
      MiniNotify(HARDWARE, p);
    }

    /** send_sig() */
    method SendSig(p: nat, sig: nat)
      requires Valid() && Scheduled(Abs()) && p < proc.Length
      modifies Repr
      ensures Valid() && Abs() == Ipc.SendSig(old(Abs()), p, sig)
      ensures Alerted(old(Abs()), p, SYSTEM, old(proc[p]).ints, old(proc[p]).sigs + {sig}, Abs())
    {
      SendSigMeans(Abs(), p, sig);
      ghost var s := Abs();
      Put(p, proc[p].(sigs := proc[p].sigs + {sig}));
      Record(SetHist(Abs(), p, hist[p].(signals := hist[p].signals + [Sent(sig)])).hist);
      SameRts(s, Abs());
      MiniNotify(SYSTEM, p);
    }

    /** The part of cause_sig() that concerns the process itself. */
    method Raise(p: nat, sig: nat)
      requires Valid() && p < proc.Length
      modifies proc, sched.Repr, this`hist
      ensures Valid() && Abs() == Ipc.Raise(old(Abs()), p, sig)
    {
      Put(p, proc[p].(pending := proc[p].pending + {sig}));
      Record(SetHist(Abs(), p, hist[p].(raised := hist[p].raised + multiset{sig})).hist);
      Hold(p, proc[p].rts.(signaled := true, sigPending := true));
    }

    /** cause_sig() */
    method CauseSig(p: nat, sig: nat)
      requires Valid() && Inv(Abs()) && NR_TASKS <= p < proc.Length
      modifies Repr
      ensures Valid() && Inv(Abs()) && Abs() == Ipc.CauseSig(old(Abs()), p, sig)
      ensures CauseSigOutcome(old(Abs()), p, sig, Abs())
    {
      CauseSigMeans(Abs(), p, sig);
      CauseSigInv(Abs(), p, sig);
      if sig !in proc[p].pending {
        if proc[p].rts.signaled {
          Put(p, proc[p].(pending := proc[p].pending + {sig}));
          Record(SetHist(Abs(), p, hist[p].(raised := hist[p].raised + multiset{sig})).hist);
        } else {
          RaiseScheduled(Abs(), p, sig);
          Raise(p, sig);
          SendSig(PM, SIGKSIG);
        }
      }
    }

    /** do_getksig() */
    method GetKsig() returns (r: Option<(nat, set<nat>)>)
      requires Valid() && Inv(Abs())
      modifies Repr
      ensures Valid() && Inv(Abs()) && Abs() == Ipc.GetKsig(old(Abs())).0 && r == Ipc.GetKsig(old(Abs())).1
      ensures GetKsigOutcome(old(Abs()), Abs(), r)
    {
      GetKsigMeans(Abs());
      GetKsigInv(Abs());
      ghost var s := Abs();
      var p := NR_TASKS;
      while p < proc.Length
        invariant NR_TASKS <= p && Valid() && Abs() == s
        invariant FirstSignaled(s, NR_TASKS) == FirstSignaled(s, p)
      {
        if proc[p].rts.signaled {
          r := Some((p, proc[p].pending));
          Record(Ipc.GetKsig(s).0.hist);
          Put(p, proc[p].(pending := {}, rts := proc[p].rts.(signaled := false)));
          return;
        }
        p := p + 1;
      }
      r := None;
    }

    /** do_endksig() */
    method EndKsig(p: nat) returns (r: Result)
      requires Valid() && Inv(Abs()) && NR_TASKS <= p < proc.Length
      modifies Repr
      ensures Valid() && Inv(Abs()) && Abs() == Ipc.EndKsig(old(Abs()), p).0 && r == Ipc.EndKsig(old(Abs()), p).1
      ensures EndKsigOutcome(old(Abs()), p, Abs(), r)
    {
      EndKsigMeans(Abs(), p);
      EndKsigInv(Abs(), p);
      if !proc[p].rts.sigPending {
        return EINVAL;
      }
      if !proc[p].rts.signaled {
        Idle(p);
        Release(p, proc[p].rts.(sigPending := false));
      }
      return OK;
    }

    /** Take `p` out of `d`'s queue if it is there. */
    method PurgeRow(d: nat, p: nat)
      requires Valid() && d < proc.Length
      modifies callerQ, qLink, this`callers
      ensures Valid() && Abs() == old(Abs()).(callers := old(callers)[d := Without(old(callers)[d], p)])
    {
      var prev, x;
      ghost var k;
      prev, x, k := FindCaller(d, Only(p));
      if x != NIL {
        RemoveCaller(d, x, prev, k);
      } else {
        WithoutAbsent(callers[d], p);
        assert callers[d := callers[d]] == callers;
      }
    }

    /** clear_proc()'s scan of every caller queue. */
    method PurgeCallers(p: nat)
      requires Valid() && p < proc.Length
      modifies callerQ, qLink, this`callers
      ensures Valid() && Abs() == old(Abs()).(callers := Purge(old(callers), p))
    {
      ghost var s := Abs();
      var d := 0;
      while d < proc.Length
        invariant 0 <= d <= proc.Length && Valid()
        invariant Abs() == s.(callers := callers)
        invariant forall e :: 0 <= e < |callers| ==>
          callers[e] == if e < d then Without(s.callers[e], p) else s.callers[e]
      {
        PurgeRow(d, p);
        d := d + 1;
      }
      assert callers == Purge(s.callers, p);
    }

    /** The part of clear_proc() for a process that is SENDING. */
    method Withdraw(p: nat)
      requires Valid() && p < proc.Length
      modifies callerQ, qLink, this
      ensures Valid() && Abs() == Withdrawn(old(Abs()), p)
    {
      if proc[p].rts.sending {
        Record(SetHist(Abs(), p, hist[p].(aborted := [(proc[p].sendTo, proc[p].outbox)])).hist);
        PurgeCallers(p);
      }
    }

    /** clear_proc() (system/do_exit.c) */
    method ClearProc(p: nat)
      requires Valid() && Inv(Abs()) && NR_TASKS <= p < proc.Length
      modifies Repr
      ensures Valid() && Inv(Abs()) && Abs() == Ipc.ClearProc(old(Abs()), p)
    {
      ClearProcInv(Abs(), p);
      Leave(p);
    }

    method Leave(p: nat)
      requires Valid() && p < proc.Length
      modifies Repr
      ensures Valid() && Abs() == Ipc.ClearProc(old(Abs()), p)
    {
      Withdraw(p);
      Hold(p, SLOT_FREE);
      if rights[p].sysProc {
        Put(p, proc[p].(owner := None));
      }
    }

    // ---- The clock -----------------------------------------------------------------------

    /** clock_handler() (kernel/clock.c): a process is charged for clock ticks. */
    method Tick(p: nat, ticks: nat)
      requires Valid() && Inv(Abs()) && p < proc.Length
      modifies sched.Repr
      ensures Valid() && Inv(Abs()) && Abs() == Apply(old(Abs()), Step.Tick(p, ticks))
    {
      StepInv(Abs(), Step.Tick(p, ticks));
      sched.Charge(p, ticks);
    }

    /** do_clocktick() (kernel/clock.c): a runnable process out of time goes to the back. */
    method Requeue(p: nat)
      requires Valid() && Inv(Abs()) && p < proc.Length && proc[p].rts == RUNNABLE
      modifies sched.Repr
      ensures Valid() && Inv(Abs()) && Abs() == Apply(old(Abs()), Step.Requeue(p))
    {
      StepInv(Abs(), Step.Requeue(p));
      DequeueListed(sched.Abs(), RunSet(Abs()), p);
      sched.Dequeue(p);
      sched.Enqueue(p);
    }

    // ---- Boot ------------------------------------------------------------------------------

    /** main() (kernel/main.c): a slot of the boot image becomes ready to run. */
    method BootSlot(p: nat)
      requires Valid() && Booting(Abs()) && p < proc.Length && proc[p].rts == SLOT_FREE
      modifies Repr
      ensures Valid() && Abs() == KernelRuns.BootSlot(old(Abs()), p)
    {
      if p == HARDWARE {
        Put(p, proc[p].(rts := RUNNABLE.(noMap := true)));
      } else {
        assert p !in RunSet(Abs());
        Release(p, RUNNABLE);
      }
    }

    method Boot(image: seq<nat>)
      requires Valid() && PoweredOn(Abs()) && NoDup(image) && IDLE in image
      requires forall i :: 0 <= i < |image| ==> image[i] < proc.Length
      modifies Repr
      ensures Valid() && Inv(Abs()) && Abs() == KernelRuns.Boot(old(Abs()), image)
    {
      ghost var s := Abs();
      var i := 0;
      while i < |image|
        invariant 0 <= i <= |image| && Valid() && Abs() == KernelRuns.Boot(s, image[..i])
      {
        BootNext(s, image, i);
        BootMore(s, image, i);
        BootSlot(image[i]);
        i := i + 1;
      }
      assert image[..i] == image;
      BootInv(s, image);
    }

    /** A blocked process is on no ready queue. */
    lemma Idle(p: nat)
      requires Valid() && Scheduled(Abs()) && p < proc.Length && proc[p].rts != RUNNABLE
      ensures forall q :: 0 <= q < |sched.ready| ==> p !in sched.ready[q]
    {
      assert p !in RunSet(Abs());
    }
  }
}
