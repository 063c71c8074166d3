/**
 Order and completeness of the kernel's queues: caller queues are FIFO, notification
 bits are not lost, ready queues hold the runnable processes, exit leaves no trace.
 */
module KernelQueues {
  import opened Lists
  import opened Scheduling
  import opened Ipc
  import opened NoticeSearch
  import opened Invariants
  import opened KernelRuns
  import opened KernelTheorems

  // ---- Caller queues are FIFO ---------------------------------------------------------

  /** `x` stands before `y`. */
  ghost predicate Before<T>(line: seq<T>, x: T, y: T) {
    exists i, j :: 0 <= i < j < |line| && line[i] == x && line[j] == y
  }

  /** What one step may do to a queue: nothing, add one at the end, take one out. */
  ghost predicate QueueStep(line: seq<nat>, line': seq<nat>) {
    line' == line || (exists x :: line' == line + [x]) || (exists x :: line' == Without(line, x))
  }

  /** Where the element at `i` goes when the one at `k` is taken out. */
  lemma WithoutIndex<T>(line: seq<T>, k: nat, i: nat)
    requires NoDup(line) && k < |line| && i < |line| && i != k
    ensures var r, i' := Without(line, line[k]), if i < k then i else i - 1; i' < |r| && r[i'] == line[i]
  {
    WithoutAt(line, line[k], k);
  }

  lemma WithoutOrder<T>(line: seq<T>, z: T, x: T, y: T)
    requires NoDup(line) && Before(line, x, y) && x != z && y != z
    ensures Before(Without(line, z), x, y)
  {
    if z in line {
      var k :| 0 <= k < |line| && line[k] == z;
      var i, j :| 0 <= i < j < |line| && line[i] == x && line[j] == y;
      WithoutIndex(line, k, i);
      WithoutIndex(line, k, j);
    } else {
      WithoutAbsent(line, z);
    }
  }

  lemma QueueStepOrder(line: seq<nat>, line': seq<nat>, x: nat, y: nat)
    requires NoDup(line) && QueueStep(line, line') && Before(line, x, y) && x in line' && y in line'
    ensures Before(line', x, y)
  {
    if z :| line' == line + [z] {
      var i, j :| 0 <= i < j < |line| && line[i] == x && line[j] == y;
      assert line'[i] == x && line'[j] == y;
    } else if z :| line' == Without(line, z) {
      WithoutNoDup(line, z);
      WithoutOrder(line, z, x, y);
    }
  }

  lemma SendQueueStep(s: State, c: nat, d: nat, m: Msg, nonBlocking: bool, e: nat)
    requires Sane(s) && c < |s.proc| && d < |s.proc| && e < |s.proc|
    ensures QueueStep(s.callers[e], MiniSend(s, c, d, m, nonBlocking).0.callers[e])
  {
  }

  lemma ReceiveQueueStep(s: State, c: nat, src: Source, nonBlocking: bool, e: nat)
    requires Sane(s) && c < |s.proc| && e < |s.proc|
    ensures QueueStep(s.callers[e], MiniReceive(s, c, src, nonBlocking).0.callers[e])
  {
  }

  lemma PerformQueueStep(s: State, c: nat, r: Request, m: Msg, nonBlocking: bool, e: nat)
    requires Protocol(s) && c < |s.proc| && Names(s, r) && s.proc[c].rts == RUNNABLE && e < |s.proc|
    requires r.DoSend? || r.DoSendRec? ==> r.dest != c || nonBlocking
    ensures QueueStep(s.callers[e], Perform(s, c, r, m, nonBlocking).0.callers[e])
  {
    match r
    case DoSend(d) => SendQueueStep(s, c, d, m, nonBlocking, e);
    case DoSendRec(d) =>
      var s0 := SetBusy(s, c, true);
      BusyProtocol(s, c, true);
      SendQueueStep(s0, c, d, m, nonBlocking, e);
      if MiniSend(s0, c, d, m, nonBlocking).1 == OK {
        SendRecAwaits(s0, c, d, m, nonBlocking);
      }
    case DoReceive(src) => ReceiveQueueStep(SetBusy(s, c, false), c, src, nonBlocking, e);
    case DoNotify(d) =>
    case DoEcho =>
    case Refuse(error) =>
  }

  lemma CallQueueStep(s: State, t: Trap, e: nat)
    requires Protocol(s) && s.rights[IDLE].traps == {} && Enabled(s, Call(t)) && e < |s.proc|
    ensures QueueStep(s.callers[e], SysCall(s, t).0.callers[e])
  {
    Decoded(s, t);
    PerformQueueStep(s, s.sched.current, Decode(s, s.sched.current, t), t.body, t.nonBlocking, e);
  }

  /** Steps other than system calls, replies and exits do not touch the caller queues. */
  lemma SameCallers(s: State, st: Step)
    requires Enabled(s, st) && !st.Call? && !st.Reply? && !st.Exit?
    ensures Apply(s, st).callers == s.callers
  {
  }

  lemma ExitCallers(s: State, p: nat, e: nat)
    requires Sane(s) && p < |s.proc| && e < |s.proc|
    ensures ClearProc(s, p).callers[e] == if s.proc[p].rts.sending then Without(s.callers[e], p) else s.callers[e]
  {
  }

  lemma StepQueueStep(s: State, st: Step, e: nat)
    requires Protocol(s) && s.rights[IDLE].traps == {} && Enabled(s, st) && e < |s.proc|
    ensures QueueStep(s.callers[e], Apply(s, st).callers[e])
  {
    if st.Call? {
      CallQueueStep(s, st.trap, e);
    } else if st.Reply? {
      SendQueueStep(s, s.sched.current, st.dest, st.body, true, e);
    } else if st.Exit? {
      ExitCallers(s, st.target, e);
    } else {
      SameCallers(s, st);
    }
  }

  /** Two callers that both keep waiting keep their order, whatever the step. */
  lemma CallersKeepOrder(s: State, st: Step, e: nat, x: nat, y: nat)
    requires Inv(s) && Enabled(s, st) && e < |s.proc| && Before(s.callers[e], x, y)
    requires x in Apply(s, st).callers[e] && y in Apply(s, st).callers[e]
    ensures Before(Apply(s, st).callers[e], x, y)
  {
    StepQueueStep(s, st, e);
    QueueStepOrder(s.callers[e], Apply(s, st).callers[e], x, y);
  }

  /** receive(ANY) serves the longest waiter; receive(x) serves x and leaves the others in order. */
  lemma ReceiveServes(s: State, c: nat, src: Source, nonBlocking: bool)
    requires Protocol(s) && c < |s.proc| && s.proc[c].rts == RUNNABLE
    requires FoundNotice(s, c, src) == None && FoundCaller(s, c, src).Some?
    ensures var x, s' := FoundCaller(s, c, src).value, MiniReceive(s, c, src, nonBlocking).0;
            && x < |s.proc| && s'.callers == s.callers[c := Without(s.callers[c], x)]
            && (src == Any ==> s.callers[c] == [x] + s'.callers[c])
            && (src != Any ==> src == Only(x))
            && s'.hist[c].mail == s.hist[c].mail + [Message(x, s.proc[x].outbox)]
            && !s'.proc[x].rts.sending
  {
  }

  // ---- Notifications are not lost -----------------------------------------------------

  /** A pending bit of `q` is still there, or its notification is the mail `q` just got. */
  ghost predicate BitKept(s: State, s': State, q: nat, id: nat)
    requires q < |s'.proc| && q < |s.hist| && q < |s'.hist|
  {
    id in s'.proc[q].notified || exists a :: s'.hist[q].mail == s.hist[q].mail + [Notice(Owner(s, id), a)]
  }

  lemma ReceiveBits(s: State, q: nat, src: Source, nonBlocking: bool, id: nat)
    requires Sane(s) && q < |s.proc| && id in s.proc[q].notified
    ensures BitKept(s, MiniReceive(s, q, src, nonBlocking).0, q, id)
  {
    var s' := MiniReceive(s, q, src, nonBlocking).0;
    if FoundNotice(s, q, src) == Some(id) {
      assert s'.hist[q].mail == s.hist[q].mail + [Notice(Owner(s, id), s'.hist[q].mail[|s.hist[q].mail|].arg)];
    }
  }

  lemma ReceiveCallBits(s: State, q: nat, src: Source, nonBlocking: bool, id: nat)
    requires Sane(s) && q < |s.proc| && id in s.proc[q].notified
    ensures BitKept(s, MiniReceive(SetBusy(s, q, false), q, src, nonBlocking).0, q, id)
  {
    ReceiveBits(SetBusy(s, q, false), q, src, nonBlocking, id);
    assert Owner(SetBusy(s, q, false), id) == Owner(s, id);
  }

  lemma SendBits(s: State, q: nat, d: nat, m: Msg, nonBlocking: bool)
    requires Sane(s) && q < |s.proc| && d < |s.proc|
    ensures MiniSend(s, q, d, m, nonBlocking).0.proc[q].notified == s.proc[q].notified
  {
  }

  lemma PerformBits(s: State, q: nat, r: Request, m: Msg, nonBlocking: bool, id: nat)
    requires Protocol(s) && q < |s.proc| && Names(s, r) && s.proc[q].rts == RUNNABLE && id in s.proc[q].notified
    requires r.DoSend? || r.DoSendRec? ==> r.dest != q || nonBlocking
    ensures BitKept(s, Perform(s, q, r, m, nonBlocking).0, q, id)
  {
    match r
    case DoSend(d) => SendBits(s, q, d, m, nonBlocking);
    case DoSendRec(d) =>
      var s0 := SetBusy(s, q, true);
      BusyProtocol(s, q, true);
      SendBits(s0, q, d, m, nonBlocking);
      if MiniSend(s0, q, d, m, nonBlocking).1 == OK {
        SendRecAwaits(s0, q, d, m, nonBlocking);
      }
    case DoReceive(src) => ReceiveCallBits(s, q, src, nonBlocking, id);
    case DoNotify(d) => NotifyOther(s, q, d, q);
    case DoEcho =>
    case Refuse(error) =>
  }

  /** No step loses a pending notification: it stays, or its owner's notice is delivered. */
  lemma NoticesKept(s: State, st: Step, q: nat, id: nat)
    requires Inv(s) && Enabled(s, st) && q < |s.proc| && id in s.proc[q].notified && st != Exit(q)
    ensures BitKept(s, Apply(s, st), q, id)
  {
    if st.Call? && q == s.sched.current {
      Decoded(s, st.trap);
      PerformBits(s, q, Decode(s, q, st.trap), st.trap.body, st.trap.nonBlocking, id);
    } else if st.Reply? && q == s.sched.current {
      SendBits(s, q, st.dest, st.body, true);
    } else {
      StepOther(s, st, q);
    }
  }

  /**
   receive(x) with x's notification pending delivers it iff no lower bit of the same
   sixteen is pending too; otherwise it passes the notification over.
   */
  lemma ReceiveFromSource(s: State, c: nat, x: nat)
    requires Inv(s) && c < |s.proc| && x < |s.proc| && s.proc[c].rts == RUNNABLE && !s.proc[c].busy
    requires s.proc[x].owner == Some(x) && x in s.proc[c].notified
    ensures FoundNotice(s, c, Only(x)) == if Visible(s.proc[c].notified, x) then Some(x) else None
  {
    assert OwnersOk(s);
    ScanOnly(s, s.proc[c].notified, x);
  }

  // ---- Ready queues ---------------------------------------------------------------------

  /** The head of the lowest-numbered nonempty queue. */
  ghost predicate IsChoice(ready: seq<seq<nat>>, p: int) {
    exists q :: 0 <= q < |ready| && ready[q] != [] && ready[q][0] == p && forall i :: 0 <= i < q ==> ready[i] == []
  }

  lemma {:induction false} ChoiceIs(ready: seq<seq<nat>>, from: nat)
    requires from <= |ready| && Choice(ready, from) != NIL && forall i :: 0 <= i < from ==> ready[i] == []
    ensures IsChoice(ready, Choice(ready, from))
    decreases |ready| - from
  {
    if ready[from] == [] {
      ChoiceIs(ready, from + 1);
    }
  }

  lemma OnReady(s: State, p: nat, q: nat)
    requires Sane(s) && Scheduled(s) && p < |s.proc| && q < NR_SCHED_QUEUES
    ensures p in s.sched.ready[q] <==> s.proc[p].rts == RUNNABLE && q == s.sched.quantum[p].priority
    ensures s.proc[IDLE].rts == RUNNABLE
  {
    assert p in RunSet(s) <==> s.proc[p].rts == RUNNABLE;
    assert IDLE in RunSet(s) <==> s.proc[IDLE].rts == RUNNABLE;
  }

  /**
   In every reachable state a process is on a ready queue iff it has no flag set, then on
   the queue of its priority alone and once; and next_ptr is the head of the first queue
   that is not empty.
   */
  lemma ReadyQueues(s: State)
    requires Inv(s)
    ensures forall p, q :: 0 <= p < |s.proc| && 0 <= q < NR_SCHED_QUEUES ==>
      (p in s.sched.ready[q] <==> s.proc[p].rts == RUNNABLE && q == s.sched.quantum[p].priority)
    ensures forall q :: 0 <= q < NR_SCHED_QUEUES ==> NoDup(s.sched.ready[q])
    ensures IsChoice(s.sched.ready, s.sched.next)
  {
    forall p, q | 0 <= p < |s.proc| && 0 <= q < NR_SCHED_QUEUES
      ensures p in s.sched.ready[q] <==> s.proc[p].rts == RUNNABLE && q == s.sched.quantum[p].priority
    {
      OnReady(s, p, q);
    }
    OnReady(s, IDLE, s.sched.quantum[IDLE].priority);
    ChoiceExists(s.sched.ready, 0, s.sched.quantum[IDLE].priority);
    ChoiceIs(s.sched.ready, 0);
  }

  // ---- Exit ---------------------------------------------------------------------------------

  /** After clear_proc(p), p is on no queue and every queue is what it was without p. */
  lemma ExitCleans(s: State, p: nat)
    requires Inv(s) && NR_TASKS <= p < |s.proc|
    ensures var s' := ClearProc(s, p);
            && (forall d :: 0 <= d < |s.proc| ==> p !in s'.callers[d] && s'.callers[d] == Without(s.callers[d], p))
            && (forall q :: 0 <= q < NR_SCHED_QUEUES ==>
                  p !in s'.sched.ready[q] && s'.sched.ready[q] == Without(s.sched.ready[q], p))
            && s'.proc[p].rts == SLOT_FREE
  {
    var s' := ClearProc(s, p);
    ClearProcInv(s, p);
    OffQueues(s', p);
    forall d | 0 <= d < |s.proc| ensures p !in s'.callers[d] && s'.callers[d] == Without(s.callers[d], p) {
      assert !s.proc[p].rts.sending ==> p !in s.callers[d];
      if p !in s.callers[d] { WithoutAbsent(s.callers[d], p); }
    }
    forall q | 0 <= q < NR_SCHED_QUEUES ensures s'.sched.ready[q] == Without(s.sched.ready[q], p) {
      ExitReady(s, p, q);
    }
  }

  lemma ExitReady(s: State, p: nat, q: nat)
    requires Sane(s) && Scheduled(s) && p < |s.proc| && q < NR_SCHED_QUEUES
    ensures ClearProc(s, p).sched.ready[q] == Without(s.sched.ready[q], p)
  {
    assert p in RunSet(s) <==> s.proc[p].rts == RUNNABLE;
    if p !in s.sched.ready[q] { WithoutAbsent(s.sched.ready[q], p); }
  }

  // ---- Callers of a process that exited ------------------------------------------------------

  lemma SendElsewhere(s: State, q: nat, d: nat, m: Msg, nonBlocking: bool, e: nat)
    requires Sane(s) && q < |s.proc| && d < |s.proc| && e < |s.proc|
    ensures s.callers[e] <= MiniSend(s, q, d, m, nonBlocking).0.callers[e]
  {
  }

  lemma ReceiveElsewhere(s: State, q: nat, src: Source, nonBlocking: bool, e: nat)
    requires Sane(s) && q < |s.proc| && e < |s.proc| && e != q
    ensures MiniReceive(s, q, src, nonBlocking).0.callers[e] == s.callers[e]
  {
  }

  lemma SendRecElsewhere(s: State, q: nat, d: nat, m: Msg, nonBlocking: bool, e: nat)
    requires Sane(s) && q < |s.proc| && d < |s.proc| && e < |s.proc| && e != q
    ensures s.callers[e] <= SendRec(s, q, d, m, nonBlocking).0.callers[e]
  {
    var s0 := SetBusy(s, q, true);
    SendElsewhere(s0, q, d, m, nonBlocking, e);
    ReceiveElsewhere(MiniSend(s0, q, d, m, nonBlocking).0, q, Only(d), nonBlocking, e);
  }

  /** A system call by `q` at most adds `q` to the queue of another process. */
  lemma PerformElsewhere(s: State, q: nat, r: Request, m: Msg, nonBlocking: bool, e: nat)
    requires Sane(s) && q < |s.proc| && Names(s, r) && e < |s.proc| && e != q
    ensures s.callers[e] <= Perform(s, q, r, m, nonBlocking).0.callers[e]
  {
    match r
    case DoSend(d) => SendElsewhere(s, q, d, m, nonBlocking, e);
    case DoSendRec(d) => SendRecElsewhere(s, q, d, m, nonBlocking, e);
    case DoReceive(src) => ReceiveElsewhere(SetBusy(s, q, false), q, src, nonBlocking, e);
    case DoNotify(d) =>
    case DoEcho =>
    case Refuse(error) =>
  }

  /** A free slot stays free: nothing in the kernel's steps fills it again. */
  lemma FreeStep(s: State, st: Step, p: nat)
    requires Protocol(s) && s.rights[IDLE].traps == {} && Enabled(s, st) && p < |s.proc| && s.proc[p].rts.slotFree
    ensures Apply(s, st).proc[p].rts.slotFree
  {
    match st
    case Call(t) => CallOther(s, t, p);
    case Reply(d, m) => SendOther(s, s.sched.current, d, m, true, p);
    case Note(q, d) => NotifyOther(s, q, d, p);
    case Irq(q, id) => InterruptOther(s, q, id, p);
    case Signal(q, sig) => SendSigOther(s, q, sig, p);
    case Kill(q, sig) => CauseSigOther(s, q, sig, p);
    case Fetch =>
    case Done(q) =>
    case Exit(q) =>
      if q != p {
        ExitOther(s, q, p);
      }
    case Tick(q, ticks) =>
    case Requeue(q) =>
    case Switch(q) =>
    case Shutdown =>
  }

  lemma CallElsewhere(s: State, t: Trap, e: nat)
    requires Protocol(s) && s.rights[IDLE].traps == {} && Enabled(s, Call(t)) && e < |s.proc| && e != s.sched.current
    ensures s.callers[e] <= SysCall(s, t).0.callers[e]
  {
    Decoded(s, t);
    PerformElsewhere(s, s.sched.current, Decode(s, s.sched.current, t), t.body, t.nonBlocking, e);
  }

  /** A caller in the queue of a free slot is not taken out of it, except by its own exit. */
  lemma StrandedStep(s: State, st: Step, p: nat, c: nat)
    requires Protocol(s) && s.rights[IDLE].traps == {} && Enabled(s, st) && p < |s.proc| && st != Exit(c)
    requires s.proc[p].rts.slotFree && c in s.callers[p]
    ensures c in Apply(s, st).callers[p]
  {
    if st.Call? {
      CallElsewhere(s, st.trap, p);
    } else if st.Reply? {
      SendElsewhere(s, s.sched.current, st.dest, st.body, true, p);
    } else if st.Exit? {
      ExitCallers(s, st.target, p);
      KeptWithout(s.callers[p], st.target, c);
    } else {
      SameCallers(s, st);
    }
  }

  lemma {:induction false} KeptWithout<T>(line: seq<T>, x: T, y: T)
    requires y in line && x != y
    ensures y in Without(line, x)
  {
    if line[0] != x && line[0] != y {
      KeptWithout(line[1..], x, y);
    }
  }

  lemma {:induction false} Stranded(s: State, steps: seq<Step>, s': State, p: nat, c: nat)
    requires Inv(s) && After(s, steps) == Some(s') && Exit(c) !in steps
    requires p < |s.proc| == |s'.proc| == |s'.callers| && s.proc[p].rts.slotFree && c in s.callers[p]
    ensures s'.proc[p].rts.slotFree && c in s'.callers[p]
    decreases steps
  {
    if steps != [] {
      var m := LastStep(s, steps, s');
      Stranded(s, steps[..|steps| - 1], m, p, c);
      FreeStep(m, steps[|steps| - 1], p);
      StrandedStep(m, steps[|steps| - 1], p, c);
    }
  }

  /**
   clear_proc() leaves the exiting process' own callers where they are: a process that is
   SENDING to it stays SENDING in every later run, until it exits itself.
   */
  lemma ExitStrands(s: State, p: nat, steps: seq<Step>, s': State, c: nat)
    requires Inv(s) && NR_TASKS <= p < |s.proc| == |s'.proc| == |s'.callers| && c < |s.proc| && c != p
    requires s.proc[c].rts.sending && s.proc[c].sendTo == p
    requires After(ClearProc(s, p), steps) == Some(s') && Exit(c) !in steps
    ensures s'.proc[c].rts.sending && s'.proc[c].sendTo == p
  {
    ExitCleans(s, p);
    ClearProcInv(s, p);
    KeptWithout(s.callers[p], p, c);
    Stranded(ClearProc(s, p), steps, s', p, c);
    AfterInv(ClearProc(s, p), steps, s');
  }
}
