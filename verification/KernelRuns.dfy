/**
 Whole runs: any interleaving of system calls by any processes, notifications,
 interrupts, signals, PM's signal calls, exits and context switches.
 */
module KernelRuns {
  import opened Lists
  import opened Scheduling
  import opened Ipc
  import opened WaitGraph
  import opened NoticeSearch
  import opened Invariants
  import opened Accounts

  /** What holds in every reachable state. */
  ghost predicate Inv(s: State) {
    && Protocol(s) && Scheduled(s) && Acyclic(s)
    && s.rights[IDLE].traps == {}
    && 0 <= s.sched.current < |s.proc|
  }

  // ---- The elementary updates keep Inv ------------------------------------------

  /** No process blocks sending: only protocol and scheduling remain to be shown. */
  lemma Settle(s: State, s': State)
    requires Inv(s) && Protocol(s') && Scheduled(s') && FewerEdges(s, s')
    requires s'.rights == s.rights && s'.sched.current == s.sched.current
    ensures Inv(s')
  {
    FewerEdgesAcyclic(s, s');
  }

  lemma HandOverInv(s: State, c: nat, d: nat, m: Msg)
    requires Inv(s) && c < |s.proc| && d < |s.proc| && s.proc[c].rts == RUNNABLE && Accepts(s, d, c)
    ensures Inv(HandOver(s, c, d, m))
  {
    HandOverProtocol(s, c, d, m);
    var s1 := Copy(Post(s, c, d, m), c, d, m);
    SameRts(s, s1);
    ReflagScheduled(s1, d, s1.proc[d].rts.(receiving := false));
    Settle(s, HandOver(s, c, d, m));
  }

  lemma BlockInv(s: State, c: nat, d: nat, m: Msg)
    requires Inv(s) && c < |s.proc| && d < |s.proc| && c != d && c != IDLE
    requires s.proc[c].rts == RUNNABLE && !Accepts(s, d, c) && !Deadlock(s, c, d)
    ensures Inv(Block(s, c, d, m))
  {
    BlockProtocol(s, c, d, m);
    BlockScheduled(s, c, d, m);
    OneMoreEdgeAcyclic(s, Block(s, c, d, m), c, d);
  }

  lemma BlockScheduled(s: State, c: nat, d: nat, m: Msg)
    requires Sane(s) && Scheduled(s) && c < |s.proc| && d < |s.proc| && c != IDLE
    ensures Scheduled(Block(s, c, d, m))
  {
    var s1 := Post(s, c, d, m);
    SameRts(s, s1);
    ReflagScheduled(s1, c, s1.proc[c].rts.(sending := true));
    SameRts(Reflag(s1, c, s1.proc[c].rts.(sending := true)), Block(s, c, d, m));
  }

  lemma TakeMessageInv(s: State, c: nat, x: nat)
    requires Inv(s) && c < |s.proc| && x in s.callers[c] && s.proc[c].rts == RUNNABLE
    ensures Inv(TakeMessage(s, c, x))
  {
    TakeMessageProtocol(s, c, x);
    var s1 := Copy(s, x, c, s.proc[x].outbox);
    SameRts(s, s1);
    ReflagScheduled(s1, x, s1.proc[x].rts.(sending := false));
    SameRts(Reflag(s1, x, s1.proc[x].rts.(sending := false)), TakeMessage(s, c, x));
    Settle(s, TakeMessage(s, c, x));
  }

  lemma TakeNoticeInv(s: State, c: nat, id: nat)
    requires Inv(s) && c < |s.proc| && id < |s.proc| && s.proc[c].rts == RUNNABLE
    ensures Inv(TakeNotice(s, c, id))
  {
    TakeNoticeProtocol(s, c, id);
    SameRts(s, TakeNotice(s, c, id));
    Settle(s, TakeNotice(s, c, id));
  }

  lemma AwaitInv(s: State, c: nat, src: Source)
    requires Inv(s) && c < |s.proc| && c != IDLE && !s.proc[c].rts.slotFree && !s.proc[c].rts.receiving
    requires FoundNotice(s, c, src) == None && FoundCaller(s, c, src) == None
    requires s.proc[c].rts.sending ==> src == Only(s.proc[c].sendTo) && s.proc[c].busy
    ensures Inv(Await(s, c, src))
  {
    AwaitProtocol(s, c, src);
    AwaitScheduled(s, c, src);
    Settle(s, Await(s, c, src));
  }

  lemma AwaitScheduled(s: State, c: nat, src: Source)
    requires Sane(s) && Scheduled(s) && IDLE < c < |s.proc|
    ensures Scheduled(Await(s, c, src))
  {
    var s1 := SetProc(s, c, s.proc[c].(getFrom := src));
    SameRts(s, s1);
    ReflagScheduled(s1, c, s1.proc[c].rts.(receiving := true));
  }

  lemma NotifyScheduled(s: State, src: nat, d: nat)
    requires Sane(s) && Scheduled(s) && src < |s.proc| && d < |s.proc|
    ensures Scheduled(MiniNotify(s, src, d))
  {
    if Accepts(s, d, src) && !s.proc[d].busy {
      var s1 := Announce(s, d, Some(src));
      SameRts(s, s1);
      ReflagScheduled(s1, d, s1.proc[d].rts.(receiving := false));
    } else {
      SameRts(s, MiniNotify(s, src, d));
    }
  }

  lemma NotifyEdges(s: State, src: nat, d: nat)
    requires Sane(s) && src < |s.proc| && d < |s.proc|
    ensures FewerEdges(s, MiniNotify(s, src, d)) && MiniNotify(s, src, d).rights == s.rights
  {
  }

  /** A notification sent after nothing but the pending arguments of `d` changed. */
  lemma ArmedNotifyInv(s: State, s1: State, src: nat, d: nat)
    requires Inv(s) && Sane(s1) && src < |s.proc| == |s1.proc| && d < |s.proc|
    requires s1.proc == s.proc[d := s1.proc[d]] && s1.rights == s.rights && s1.sched == s.sched
    requires s1.proc[d] == s.proc[d].(ints := s1.proc[d].ints, sigs := s1.proc[d].sigs)
    requires Protocol(MiniNotify(s1, src, d))
    ensures Inv(MiniNotify(s1, src, d))
  {
    SameRts(s, s1);
    NotifyScheduled(s1, src, d);
    NotifyEdges(s1, src, d);
    assert FewerEdges(s, MiniNotify(s1, src, d));
    Settle(s, MiniNotify(s1, src, d));
  }

  lemma NotifyInv(s: State, src: nat, d: nat)
    requires Inv(s) && src < |s.proc| && d < |s.proc|
    ensures Inv(MiniNotify(s, src, d))
  {
    NotifyProtocol(s, src, d);
    ArmedNotifyInv(s, s, src, d);
  }

  lemma InterruptInv(s: State, p: nat, id: nat)
    requires Inv(s) && p < |s.proc|
    ensures Inv(Interrupt(s, p, id))
  {
    InterruptProtocol(s, p, id);
    var s1 := SetProc(s, p, s.proc[p].(ints := s.proc[p].ints + {id}));
    var s2 := SetHist(s1, p, s1.hist[p].(irqs := s1.hist[p].irqs + [Sent(id)]));
    ArmedNotifyInv(s, s2, HARDWARE, p);
  }

  lemma SendSigInv(s: State, p: nat, sig: nat)
    requires Inv(s) && p < |s.proc|
    ensures Inv(SendSig(s, p, sig))
  {
    SendSigProtocol(s, p, sig);
    var s1 := SetProc(s, p, s.proc[p].(sigs := s.proc[p].sigs + {sig}));
    var s2 := SetHist(s1, p, s1.hist[p].(signals := s1.hist[p].signals + [Sent(sig)]));
    ArmedNotifyInv(s, s2, SYSTEM, p);
  }

  lemma BusyInv(s: State, c: nat, b: bool)
    requires Inv(s) && c < |s.proc| && s.proc[c].rts == RUNNABLE
    ensures Inv(SetBusy(s, c, b))
  {
    BusyProtocol(s, c, b);
    SameRts(s, SetBusy(s, c, b));
    Settle(s, SetBusy(s, c, b));
  }

  /** Changing the flags of one process without touching SENDING, and its signals. */
  lemma ReflagInv(s: State, s1: State, p: nat, r: Rts)
    requires Inv(s) && Sane(s1) && IDLE < p < |s.proc| == |s1.proc|
    requires s1.proc == s.proc[p := s.proc[p].(pending := s1.proc[p].pending)]
    requires r.sending ==> s.proc[p].rts.sending
    requires s1.sched == s.sched && s1.rights == s.rights
    requires Protocol(Reflag(s1, p, r))
    ensures Inv(Reflag(s1, p, r))
  {
    assert Scheduled(Reflag(s1, p, r)) by {
      SameRts(s, s1);
      ReflagScheduled(s1, p, r);
    }
    Settle(s, Reflag(s1, p, r));
  }

  lemma RaiseScheduled(s: State, p: nat, sig: nat)
    requires Sane(s) && Scheduled(s) && IDLE < p < |s.proc|
    ensures Scheduled(Raise(s, p, sig))
  {
    var s1 := SetProc(s, p, s.proc[p].(pending := s.proc[p].pending + {sig}));
    var s2 := SetHist(s1, p, s1.hist[p].(raised := s1.hist[p].raised + multiset{sig}));
    SameRts(s, s2);
    ReflagScheduled(s2, p, s2.proc[p].rts.(signaled := true, sigPending := true));
  }

  lemma CauseSigInv(s: State, p: nat, sig: nat)
    requires Inv(s) && NR_TASKS <= p < |s.proc|
    ensures Inv(CauseSig(s, p, sig))
  {
    if sig !in s.proc[p].pending {
      RaiseProtocol(s, p, sig);
      var s1 := SetProc(s, p, s.proc[p].(pending := s.proc[p].pending + {sig}));
      var s2 := SetHist(s1, p, s1.hist[p].(raised := s1.hist[p].raised + multiset{sig}));
      ReflagInv(s, s2, p, s2.proc[p].rts.(signaled := true, sigPending := true));
      if s.proc[p].rts.signaled {
        assert s.proc[p].rts.sigPending;
        assert CauseSig(s, p, sig) == Raise(s, p, sig);
      } else {
        SendSigInv(Raise(s, p, sig), PM, SIGKSIG);
      }
    }
  }

  lemma GetKsigInv(s: State)
    requires Inv(s)
    ensures Inv(GetKsig(s).0)
  {
    GetKsigProtocol(s);
    FirstSignaledIs(s, NR_TASKS);
    if FirstSignaled(s, NR_TASKS).Some? {
      var p := FirstSignaled(s, NR_TASKS).value;
      var s1 := SetProc(s, p, s.proc[p].(pending := {}));
      var s2 := SetHist(s1, p, GetKsig(s).0.hist[p]);
      assert GetKsig(s).0 == Reflag(s2, p, s.proc[p].rts.(signaled := false));
      ReflagInv(s, s2, p, s.proc[p].rts.(signaled := false));
    }
  }

  lemma EndKsigInv(s: State, p: nat)
    requires Inv(s) && NR_TASKS <= p < |s.proc|
    ensures Inv(EndKsig(s, p).0)
  {
    EndKsigProtocol(s, p);
    if EndKsig(s, p).0 != s {
      ReflagInv(s, s, p, s.proc[p].rts.(sigPending := false));
    }
  }

  lemma ClearProcInv(s: State, p: nat)
    requires Inv(s) && NR_TASKS <= p < |s.proc|
    ensures Inv(ClearProc(s, p))
  {
    ClearProcProtocol(s, p);
    ClearProcScheduled(s, p);
    ClearProcEdges(s, p);
    Settle(s, ClearProc(s, p));
  }

  lemma ClearProcEdges(s: State, p: nat)
    requires Sane(s) && p < |s.proc|
    ensures FewerEdges(s, ClearProc(s, p)) && ClearProc(s, p).rights == s.rights
  {
  }

  lemma ClearProcScheduled(s: State, p: nat)
    requires Sane(s) && Scheduled(s) && NR_TASKS <= p < |s.proc|
    ensures Scheduled(ClearProc(s, p))
  {
    ReflagScheduled(s, p, SLOT_FREE);
    SameRts(Reflag(s, p, SLOT_FREE), ClearProc(s, p));
  }

  // ---- System calls keep Inv ------------------------------------------------------

  lemma MiniSendInv(s: State, c: nat, d: nat, m: Msg, nonBlocking: bool)
    requires Inv(s) && c < |s.proc| && d < |s.proc| && (c != d || nonBlocking) && c != IDLE && s.proc[c].rts == RUNNABLE
    ensures Inv(MiniSend(s, c, d, m, nonBlocking).0)
  {
    if Deadlock(s, c, d) {
    } else if Accepts(s, d, c) {
      HandOverInv(s, c, d, m);
    } else if !nonBlocking {
      BlockInv(s, c, d, m);
    }
  }

  lemma MiniReceiveInv(s: State, c: nat, src: Source, nonBlocking: bool)
    requires Inv(s) && c < |s.proc| && c != IDLE
    requires s.proc[c].rts == RUNNABLE || s.proc[c].rts == RUNNABLE.(sending := true)
    requires s.proc[c].rts.sending ==> src == Only(s.proc[c].sendTo) && s.proc[c].busy
    ensures Inv(MiniReceive(s, c, src, nonBlocking).0)
  {
    if FoundNotice(s, c, src).Some? {
      ScanSound(s, s.proc[c].notified, src, 0);
      TakeNoticeInv(s, c, FoundNotice(s, c, src).value);
    } else if FoundCaller(s, c, src).Some? {
      TakeMessageInv(s, c, FoundCaller(s, c, src).value);
    } else if !nonBlocking {
      AwaitInv(s, c, src);
    }
  }

  lemma SendRecInv(s: State, c: nat, d: nat, m: Msg, nonBlocking: bool)
    requires Inv(s) && c < |s.proc| && d < |s.proc| && (c != d || nonBlocking) && c != IDLE && s.proc[c].rts == RUNNABLE
    ensures Inv(SendRec(s, c, d, m, nonBlocking).0)
  {
    var s0 := SetBusy(s, c, true);
    BusyInv(s, c, true);
    MiniSendInv(s0, c, d, m, nonBlocking);
    var (s1, result) := MiniSend(s0, c, d, m, nonBlocking);
    if result == OK {
      MiniReceiveInv(s1, c, Only(d), nonBlocking);
    }
  }

  lemma ReceiveInv(s: State, c: nat, src: Source, nonBlocking: bool)
    requires Inv(s) && c < |s.proc| && c != IDLE && s.proc[c].rts == RUNNABLE
    ensures Inv(MiniReceive(SetBusy(s, c, false), c, src, nonBlocking).0)
  {
    BusyInv(s, c, false);
    MiniReceiveInv(SetBusy(s, c, false), c, src, nonBlocking);
  }

  /** A blocking send is not to the caller itself, and a destination is a process. */
  ghost predicate Sound(s: State, t: Trap)
    requires 0 <= s.sched.current < |s.proc|
  {
    && (t.fn == SEND || t.fn == SENDREC ==> t.srcDst != s.sched.current - NR_TASKS || t.nonBlocking)
    && (ChecksDst(t.fn) && t.srcDst == ANY ==> IsSlot(s, ANY))
  }

  /** A request that was not refused comes from a process that may trap, and does not block on itself. */
  lemma Decoded(s: State, t: Trap)
    requires Sane(s) && 0 <= s.sched.current < |s.proc| && Sound(s, t) && s.rights[IDLE].traps == {}
    ensures var q := Decode(s, s.sched.current, t);
            && Names(s, q)
            && (!q.Refuse? ==> s.sched.current != IDLE)
            && (q.DoSend? || q.DoSendRec? ==> q.dest != s.sched.current || t.nonBlocking)
  {
  }

  lemma PerformInv(s: State, c: nat, q: Request, m: Msg, nonBlocking: bool)
    requires Inv(s) && c < |s.proc| && Names(s, q) && s.proc[c].rts == RUNNABLE
    requires !q.Refuse? ==> c != IDLE
    requires q.DoSend? || q.DoSendRec? ==> q.dest != c || nonBlocking
    ensures Inv(Perform(s, c, q, m, nonBlocking).0)
  {
    match q
    case DoSend(d) => MiniSendInv(s, c, d, m, nonBlocking);
    case DoSendRec(d) => SendRecInv(s, c, d, m, nonBlocking);
    case DoReceive(src) => ReceiveInv(s, c, src, nonBlocking);
    case DoNotify(d) => NotifyInv(s, c, d);
    case DoEcho =>
    case Refuse(error) =>
  }

  lemma SysCallInv(s: State, t: Trap)
    requires Inv(s) && Enabled(s, Call(t))
    ensures Inv(SysCall(s, t).0)
  {
    Decoded(s, t);
    PerformInv(s, s.sched.current, Decode(s, s.sched.current, t), t.body, t.nonBlocking);
  }

  // ---- Steps ------------------------------------------------------------------------

  /** Everything that happens to the process table, one atomic step each. */
  datatype Step =
    | Call(trap: Trap)                    // sys_call() by the running process
    | Reply(dest: nat, body: Msg)         // lock_send() by the running process
    | Note(from: nat, dest: nat)          // lock_notify()
    | Irq(target: nat, id: nat)           // generic_handler()
    | Signal(target: nat, sig: nat)       // send_sig()
    | Kill(target: nat, sig: nat)         // cause_sig()
    | Fetch                               // do_getksig()
    | Done(target: nat)                   // do_endksig()
    | Exit(target: nat)                   // clear_proc()
    | Tick(target: nat, ticks: nat)       // clock_handler() charges a process
    | Requeue(target: nat)                // do_clocktick() for a process out of time
    | Switch(target: nat)                 // proc_ptr moves to another process
    | Shutdown                            // shutdown_started is set

  /** Traps come from a runnable process; kernel tasks are neither signalled nor exited. */
  ghost predicate Enabled(s: State, st: Step) {
    && Sane(s) && 0 <= s.sched.current < |s.proc|
    && match st
       case Call(t) => Sound(s, t) && s.proc[s.sched.current].rts == RUNNABLE
       case Reply(d, _) =>
         d < |s.proc| && s.sched.current != IDLE && s.proc[s.sched.current].rts == RUNNABLE
       case Note(p, d) => p < |s.proc| && d < |s.proc|
       case Irq(p, _) => p < |s.proc|
       case Signal(p, _) => p < |s.proc|
       case Kill(p, _) => NR_TASKS <= p < |s.proc|
       case Fetch => true
       case Done(p) => NR_TASKS <= p < |s.proc|
       case Exit(p) => NR_TASKS <= p < |s.proc|
       case Tick(p, _) => p < |s.proc|
       case Requeue(p) => p < |s.proc| && s.proc[p].rts == RUNNABLE
       case Switch(p) => p < |s.proc|
       case Shutdown => true
  }

  ghost function Apply(s: State, st: Step): (s': State)
    requires Enabled(s, st)
    ensures Sane(s') && |s'.proc| == |s.proc| && s'.rights == s.rights
  {
    match st
    case Call(t) => SysCall(s, t).0
    case Reply(d, m) => MiniSend(s, s.sched.current, d, m, true).0
    case Note(p, d) => MiniNotify(s, p, d)
    case Irq(p, id) => Interrupt(s, p, id)
    case Signal(p, sig) => SendSig(s, p, sig)
    case Kill(p, sig) => CauseSig(s, p, sig)
    case Fetch => GetKsig(s).0
    case Done(p) => EndKsig(s, p).0
    case Exit(p) => ClearProc(s, p)
    case Tick(p, ticks) => s.(sched := Ticked(s.sched, p, ticks))
    case Requeue(p) => s.(sched := Requeued(s.sched, p))
    case Switch(p) => s.(sched := s.sched.(current := p))
    case Shutdown => s.(shutdown := true)
  }

  /** Only the scheduler's state changes, and the queues still hold the runnable processes. */
  lemma SchedInv(s: State, sc: Sched, shutdown: bool)
    requires Inv(s) && Queued(sc, RunSet(s)) && |sc.quantum| == |s.proc| && 0 <= sc.current < |s.proc|
    ensures Inv(s.(sched := sc, shutdown := shutdown))
  {
    var s' := s.(sched := sc, shutdown := shutdown);
    assert RunSet(s') == RunSet(s);
    assert IDLE in RunSet(s');
    assert Protocol(s');
    FewerEdgesAcyclic(s, s');
  }

  lemma CurrentQueued(sc: Sched, runnable: set<nat>, p: int)
    requires Queued(sc, runnable)
    ensures Queued(sc.(current := p), runnable)
  {
    var sc' := sc.(current := p);
    assert sc'.ready == sc.ready && sc'.quantum == sc.quantum && sc'.next == sc.next;
    forall x | 0 <= x < |sc'.quantum| ensures Ranked(x, sc'.quantum[x]) {
      assert Ranked(x, sc.quantum[x]);
    }
  }

  lemma StepInv(s: State, st: Step)
    requires Inv(s) && Enabled(s, st)
    ensures Inv(Apply(s, st))
  {
    match st
    case Call(t) => SysCallInv(s, t);
    case Reply(d, m) => MiniSendInv(s, s.sched.current, d, m, true);
    case Note(p, d) => NotifyInv(s, p, d);
    case Irq(p, id) => InterruptInv(s, p, id);
    case Signal(p, sig) => SendSigInv(s, p, sig);
    case Kill(p, sig) => CauseSigInv(s, p, sig);
    case Fetch => GetKsigInv(s);
    case Done(p) => EndKsigInv(s, p);
    case Exit(p) => ClearProcInv(s, p);
    case Tick(p, ticks) =>
      TickedQueued(s.sched, RunSet(s), p, ticks);
      SchedInv(s, Ticked(s.sched, p, ticks), s.shutdown);
    case Requeue(p) =>
      RequeuedQueued(s.sched, RunSet(s), p);
      SchedInv(s, Requeued(s.sched, p), s.shutdown);
    case Switch(p) =>
      CurrentQueued(s.sched, RunSet(s), p);
      SchedInv(s, s.sched.(current := p), s.shutdown);
    case Shutdown => SchedInv(s, s.sched, true);
  }

  // ---- Every step keeps the accounts ------------------------------------------------

  lemma MiniSendBalanced(s: State, c: nat, d: nat, m: Msg, nonBlocking: bool)
    requires Balanced(s) && c < |s.proc| && d < |s.proc| && (c != d || nonBlocking) && s.proc[c].rts == RUNNABLE
    ensures Balanced(MiniSend(s, c, d, m, nonBlocking).0)
  {
    if Deadlock(s, c, d) {
    } else if Accepts(s, d, c) {
      HandOverBalanced(s, c, d, m);
    } else if !nonBlocking {
      BlockBalanced(s, c, d, m);
    }
  }

  lemma MiniReceiveBalanced(s: State, c: nat, src: Source, nonBlocking: bool)
    requires Protocol(s) && Balanced(s) && c < |s.proc|
    ensures Balanced(MiniReceive(s, c, src, nonBlocking).0)
  {
    if FoundNotice(s, c, src).Some? {
      TakeNoticeBalanced(s, c, FoundNotice(s, c, src).value);
    } else if FoundCaller(s, c, src).Some? {
      TakeMessageBalanced(s, c, FoundCaller(s, c, src).value);
    } else if !nonBlocking {
      AwaitBalanced(s, c, src);
    }
  }

  lemma SendRecBalanced(s: State, c: nat, d: nat, m: Msg, nonBlocking: bool)
    requires Inv(s) && Balanced(s) && c < |s.proc| && d < |s.proc| && (c != d || nonBlocking) && c != IDLE
    requires s.proc[c].rts == RUNNABLE
    ensures Balanced(SendRec(s, c, d, m, nonBlocking).0)
  {
    var s0 := SetBusy(s, c, true);
    BusyInv(s, c, true);
    BusyBalanced(s, c, true);
    MiniSendInv(s0, c, d, m, nonBlocking);
    MiniSendBalanced(s0, c, d, m, nonBlocking);
    if MiniSend(s0, c, d, m, nonBlocking).1 == OK {
      MiniReceiveBalanced(MiniSend(s0, c, d, m, nonBlocking).0, c, Only(d), nonBlocking);
    }
  }

  lemma ReceiveBalanced(s: State, c: nat, src: Source, nonBlocking: bool)
    requires Protocol(s) && Balanced(s) && c < |s.proc| && s.proc[c].rts == RUNNABLE
    ensures Balanced(MiniReceive(SetBusy(s, c, false), c, src, nonBlocking).0)
  {
    BusyProtocol(s, c, false);
    BusyBalanced(s, c, false);
    MiniReceiveBalanced(SetBusy(s, c, false), c, src, nonBlocking);
  }

  lemma PerformBalanced(s: State, c: nat, q: Request, m: Msg, nonBlocking: bool)
    requires Inv(s) && Balanced(s) && c < |s.proc| && Names(s, q) && s.proc[c].rts == RUNNABLE
    requires !q.Refuse? ==> c != IDLE
    requires q.DoSend? || q.DoSendRec? ==> q.dest != c || nonBlocking
    ensures Balanced(Perform(s, c, q, m, nonBlocking).0)
  {
    match q
    case DoSend(d) => MiniSendBalanced(s, c, d, m, nonBlocking);
    case DoSendRec(d) => SendRecBalanced(s, c, d, m, nonBlocking);
    case DoReceive(src) => ReceiveBalanced(s, c, src, nonBlocking);
    case DoNotify(d) => NotifyBalanced(s, c, d);
    case DoEcho =>
    case Refuse(error) =>
  }

  lemma SysCallBalanced(s: State, t: Trap)
    requires Inv(s) && Balanced(s) && Enabled(s, Call(t))
    ensures Balanced(SysCall(s, t).0)
  {
    Decoded(s, t);
    PerformBalanced(s, s.sched.current, Decode(s, s.sched.current, t), t.body, t.nonBlocking);
  }

  lemma CauseSigBalanced(s: State, p: nat, sig: nat)
    requires Protocol(s) && Balanced(s) && p < |s.proc|
    ensures Balanced(CauseSig(s, p, sig))
  {
    if sig !in s.proc[p].pending {
      RaiseBalanced(s, p, sig);
      if s.proc[p].rts.signaled {
        assert CauseSig(s, p, sig) == Raise(s, p, sig);
      } else {
        SendSigBalanced(Raise(s, p, sig), PM, SIGKSIG);
      }
    }
  }

  lemma StepBalanced(s: State, st: Step)
    requires Inv(s) && Balanced(s) && Enabled(s, st)
    ensures Balanced(Apply(s, st))
  {
    match st
    case Call(t) => SysCallBalanced(s, t);
    case Reply(d, m) => MiniSendBalanced(s, s.sched.current, d, m, true);
    case Note(p, d) => NotifyBalanced(s, p, d);
    case Irq(p, id) => InterruptBalanced(s, p, id);
    case Signal(p, sig) => SendSigBalanced(s, p, sig);
    case Kill(p, sig) => CauseSigBalanced(s, p, sig);
    case Fetch => GetKsigBalanced(s);
    case Done(p) => EndKsigBalanced(s, p);
    case Exit(p) => ClearProcBalanced(s, p);
    case Tick(p, ticks) =>
    case Requeue(p) =>
    case Switch(p) =>
    case Shutdown =>
  }

  // ---- Runs -------------------------------------------------------------------------

  /** The state after the steps in order, if each is enabled when its turn comes. */
  ghost function After(s: State, steps: seq<Step>): Option<State> {
    if steps == [] then Some(s) else
      var front, last := steps[..|steps| - 1], steps[|steps| - 1];
      match After(s, front)
      case None => None
      case Some(m) => if Enabled(m, last) then Some(Apply(m, last)) else None
  }

  /** The process table before the boot image is loaded: every slot free, nothing queued. */
  ghost predicate PoweredOn(s: State) {
    && Sane(s) && 0 <= s.sched.current < |s.proc| && s.rights[IDLE].traps == {} && s.sched.next == NIL
    && (forall q :: 0 <= q < NR_SCHED_QUEUES ==> s.sched.ready[q] == [])
    && forall p :: 0 <= p < |s.proc| ==>
      && s.proc[p].rts == SLOT_FREE && s.callers[p] == [] && s.hist[p] == NO_HISTORY
      && s.proc[p].owner == Some(p) && !s.proc[p].busy
      && s.proc[p].notified == s.proc[p].pending == s.proc[p].ints == s.proc[p].sigs == {}
  }

  const NO_HISTORY := History([], [], [], [], [], [], multiset{}, multiset{})

  /** main() (kernel/main.c): one slot of the boot image is set up. */
  function BootSlot(s: State, p: nat): (s': State)
    requires Sane(s) && p < |s.proc|
    ensures Sane(s') && |s'.proc| == |s.proc|
  {
    if p == HARDWARE then SetProc(s, p, s.proc[p].(rts := RUNNABLE.(noMap := true)))
    else Reflag(s, p, RUNNABLE)
  }

  function Boot(s: State, image: seq<nat>): (s': State)
    requires Sane(s) && forall i :: 0 <= i < |image| ==> image[i] < |s.proc|
    ensures Sane(s') && |s'.proc| == |s.proc|
  {
    if image == [] then s else BootSlot(Boot(s, image[..|image| - 1]), image[|image| - 1])
  }

  /** What holds while the image is loaded; IDLE comes first. */
  ghost predicate Booting(s: State) {
    && Protocol(s) && Queued(s.sched, RunSet(s))
    && (forall p :: 0 <= p < |s.proc| ==> !s.proc[p].rts.sending)
    && s.rights[IDLE].traps == {} && 0 <= s.sched.current < |s.proc|
  }

  lemma BootSlotKeeps(s: State, p: nat)
    requires Booting(s) && p < |s.proc| && s.proc[p].rts == SLOT_FREE && s.proc[p].pending == {}
    ensures Booting(BootSlot(s, p))
  {
    var s' := BootSlot(s, p);
    OneProc(s, s', p);
    if p == HARDWARE {
      assert RunSet(s') == RunSet(s);
    } else {
      assert RunSet(s') == RunSet(s) + {p};
      EnqueueQueued(s.sched, RunSet(s), p);
    }
  }

  lemma PoweredOnBooting(s: State)
    requires PoweredOn(s)
    ensures Booting(s)
  {
    assert RunSet(s) == {};
    ChoiceEmpty(s.sched.ready, 0);
  }

  /** Loading the image changes nothing but flags: of its own slots, to runnable; HARDWARE never is. */
  ghost predicate Loaded(s: State, s': State, image: seq<nat>) {
    && s'.hist == s.hist && |s'.proc| == |s.proc|
    && forall p :: 0 <= p < |s.proc| ==>
      && s'.proc[p] == s.proc[p].(rts := s'.proc[p].rts)
      && (p !in image ==> s'.proc[p].rts == s.proc[p].rts)
      && (p in image ==> s'.proc[p].rts == if p == HARDWARE then RUNNABLE.(noMap := true) else RUNNABLE)
  }

  lemma {:induction false} BootLoads(s: State, image: seq<nat>)
    requires Sane(s) && forall i :: 0 <= i < |image| ==> image[i] < |s.proc|
    ensures Loaded(s, Boot(s, image), image)
  {
    if image != [] {
      var front, p := image[..|image| - 1], image[|image| - 1];
      BootLoads(s, front);
      assert image == front + [p];
      LoadedMore(s, Boot(s, front), front, p);
    }
  }

  lemma LoadedMore(s: State, s1: State, front: seq<nat>, p: nat)
    requires Loaded(s, s1, front) && Sane(s1) && p < |s1.proc|
    ensures Loaded(s, BootSlot(s1, p), front + [p])
  {
    var s' := BootSlot(s1, p);
    assert s'.proc == s1.proc[p := s'.proc[p]] && s'.proc[p] == s1.proc[p].(rts := s'.proc[p].rts);
    forall q | 0 <= q < |s.proc|
      ensures s'.proc[q] == s.proc[q].(rts := s'.proc[q].rts)
      ensures q !in front + [p] ==> s'.proc[q].rts == s.proc[q].rts
      ensures q in front + [p] ==> s'.proc[q].rts == if q == HARDWARE then RUNNABLE.(noMap := true) else RUNNABLE
    {
      assert q in front + [p] <==> q in front || q == p;
    }
  }

  lemma {:induction false} BootKeeps(s: State, image: seq<nat>)
    requires PoweredOn(s) && NoDup(image) && forall i :: 0 <= i < |image| ==> image[i] < |s.proc|
    ensures Booting(Boot(s, image)) && Loaded(s, Boot(s, image), image)
  {
    BootLoads(s, image);
    if image == [] {
      PoweredOnBooting(s);
    } else {
      var front, p := image[..|image| - 1], image[|image| - 1];
      BootKeeps(s, front);
      assert p !in front && s.proc[p].rts == SLOT_FREE && s.proc[p].pending == {};
      BootSlotKeeps(Boot(s, front), p);
    }
  }

  lemma BootInv(s: State, image: seq<nat>)
    requires PoweredOn(s) && NoDup(image) && IDLE in image
    requires forall i :: 0 <= i < |image| ==> image[i] < |s.proc|
    ensures Inv(Boot(s, image))
  {
    BootKeeps(s, image);
    var s' := Boot(s, image);
    forall x, k | 0 <= x < |s'.proc| && k > 0 ensures Hop(s', x, k) != Some(x) {
      assert Hop(s', x, k) == None;
    }
  }

  /** The accounts of a machine that was just booted are all empty. */
  lemma BootBalanced(s: State, image: seq<nat>)
    requires PoweredOn(s) && NoDup(image) && forall i :: 0 <= i < |image| ==> image[i] < |s.proc|
    ensures Balanced(Boot(s, image))
  {
    BootKeeps(s, image);
    var s' := Boot(s, image);
    forall p | 0 <= p < |s'.proc|
      ensures PostedOk(s'.proc[p], s'.hist[p]) && NoticesOk(s'.proc[p], s'.hist[p]) && KsigOk(s'.proc[p], s'.hist[p])
    {
      assert s'.hist[p] == NO_HISTORY && s'.proc[p] == s.proc[p].(rts := s'.proc[p].rts);
      EmptyAccount(s'.proc[p]);
    }
    forall x, q | 0 <= x < |s'.hist| && 0 <= q < |s'.hist|
      ensures MessagesTo(s'.hist[x].arrived, q) == MessagesFrom(s'.hist[q].mail, x)
    {
      assert s'.hist[x] == NO_HISTORY && s'.hist[q] == NO_HISTORY;
    }
  }

  lemma EmptyAccount(v: Proc)
    requires !v.rts.sending && v.sigs == v.ints == v.pending == {}
    ensures PostedOk(v, NO_HISTORY) && NoticesOk(v, NO_HISTORY) && KsigOk(v, NO_HISTORY)
  {
  }

  /** The next slot of the image is still free when its turn comes. */
  lemma BootNext(s: State, image: seq<nat>, i: nat)
    requires PoweredOn(s) && NoDup(image) && i < |image| && forall k :: 0 <= k < |image| ==> image[k] < |s.proc|
    ensures var s1 := Boot(s, image[..i]);
            Booting(s1) && s1.proc[image[i]].rts == SLOT_FREE
  {
    BootKeeps(s, image[..i]);
    assert image[i] !in image[..i] && s.proc[image[i]].rts == SLOT_FREE;
  }

  lemma BootMore(s: State, image: seq<nat>, i: nat)
    requires Sane(s) && i < |image| && forall k :: 0 <= k < |image| ==> image[k] < |s.proc|
    ensures Boot(s, image[..i + 1]) == BootSlot(Boot(s, image[..i]), image[i])
  {
    assert image[..i + 1][..i] == image[..i];
  }

  lemma {:induction false} AfterInv(s: State, steps: seq<Step>, s': State)
    requires Inv(s) && After(s, steps) == Some(s')
    ensures Inv(s') && |s'.proc| == |s.proc|
    ensures Balanced(s) ==> Balanced(s')
    decreases steps
  {
    if steps != [] {
      var front, last := steps[..|steps| - 1], steps[|steps| - 1];
      var m := After(s, front).value;
      AfterInv(s, front, m);
      StepInv(m, last);
      if Balanced(s) {
        StepBalanced(m, last);
      }
    }
  }

  /** Any number of steps after a boot, the invariants hold and the accounts balance. */
  lemma ReachableInv(s: State, image: seq<nat>, steps: seq<Step>, s': State)
    requires PoweredOn(s) && NoDup(image) && IDLE in image
    requires forall j :: 0 <= j < |image| ==> image[j] < |s.proc|
    requires After(Boot(s, image), steps) == Some(s')
    ensures Inv(s') && Balanced(s')
  {
    BootInv(s, image);
    BootBalanced(s, image);
    AfterInv(Boot(s, image), steps, s');
  }
}
