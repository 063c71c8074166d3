/**
 What every state of the kernel satisfies, and why each elementary update keeps it.
 */
module Invariants {
  import opened Lists
  import opened Scheduling
  import opened Ipc
  import opened NoticeSearch

  ghost function RunSet(s: State): set<nat> {
    set p: nat | p < |s.proc| && s.proc[p].rts == RUNNABLE
  }

  /** Ready queues hold the runnable processes, next_ptr is the right choice, IDLE can run. */
  ghost predicate Scheduled(s: State) {
    Queued(s.sched, RunSet(s)) && IDLE in RunSet(s)
  }

  /** A process is SENDING iff it stands, once, in the caller queue of its p_sendto only. */
  ghost predicate QueuesOk(s: State)
    requires Sane(s)
  {
    && (forall d :: 0 <= d < |s.proc| ==> NoDup(s.callers[d]))
    && (forall d, x :: 0 <= d < |s.proc| && 0 <= x < |s.proc| ==>
         (x in s.callers[d] <==> s.proc[x].rts.sending && s.proc[x].sendTo == d))
  }

  /** No missed rendezvous: no sender waits for a process that is waiting for it. */
  ghost predicate RendezvousOk(s: State)
    requires Sane(s)
  {
    forall x :: 0 <= x < |s.proc| && s.proc[x].rts.sending ==> !Accepts(s, s.proc[x].sendTo, x)
  }

  /** Pending interrupts and signals have their notification pending. */
  ghost predicate ArgsOk(v: Proc) {
    && (v.ints != {} ==> HARDWARE in v.notified)
    && (v.sigs != {} ==> SYSTEM in v.notified)
  }

  /**
   In SENDREC a process waits for the one it sends to; a free slot is not in the middle
   of anything; a process blocked in receive(ANY) outside SENDREC has no notification
   pending; signals for PM are pending iff SIGNALED, and then the process is held back.
   */
  ghost predicate FlagsOk(v: Proc) {
    && (v.rts.sending && v.rts.receiving ==> v.getFrom == Only(v.sendTo) && v.busy)
    && (v.rts.slotFree ==> !v.rts.sending && !v.rts.receiving)
    && (v.rts.receiving && !v.rts.sending && !v.busy && v.getFrom == Any ==> v.notified == {})
    && (v.rts.signaled ==> v.rts.sigPending)
    && (!v.rts.slotFree ==> (v.pending != {} <==> v.rts.signaled))
  }

  /** Each privilege structure belongs to its own slot, or to none after an exit. */
  ghost predicate OwnerOk(p: int, v: Proc) {
    && (v.owner == None || v.owner == Some(p))
    && (p < NR_TASKS ==> v.owner == Some(p))
  }

  ghost predicate ProcsOk(s: State) {
    forall p :: 0 <= p < |s.proc| ==> ArgsOk(s.proc[p]) && FlagsOk(s.proc[p]) && OwnerOk(p, s.proc[p])
  }

  /** Everything but scheduling, acyclicity and the accounts. */
  ghost predicate Protocol(s: State) {
    Sane(s) && QueuesOk(s) && RendezvousOk(s) && ProcsOk(s)
  }

  /** Same flags and same scheduler. */
  lemma SameRts(s: State, s': State)
    requires Scheduled(s) && |s'.proc| == |s.proc| && s'.sched == s.sched
    requires forall p :: 0 <= p < |s.proc| ==> s'.proc[p].rts == s.proc[p].rts
    ensures Scheduled(s')
  {
    assert RunSet(s') == RunSet(s);
  }

  lemma ReflagScheduled(s: State, p: nat, r: Rts)
    requires Scheduled(s) && p < |s.proc| == |s.sched.quantum| && p != IDLE
    ensures Scheduled(Reflag(s, p, r))
  {
    var s' := Reflag(s, p, r);
    if s.proc[p].rts == RUNNABLE && r != RUNNABLE {
      assert RunSet(s') == RunSet(s) - {p};
      DequeueQueued(s.sched, RunSet(s), p);
    } else if s.proc[p].rts != RUNNABLE && r == RUNNABLE {
      assert RunSet(s') == RunSet(s) + {p};
      EnqueueQueued(s.sched, RunSet(s), p);
    } else {
      assert RunSet(s') == RunSet(s);
    }
  }

  /** Changing nothing but one process that keeps its place in the wait-for graph. */
  lemma OneProc(s: State, s': State, c: nat)
    requires Sane(s) && QueuesOk(s) && RendezvousOk(s)
    requires Sane(s') && c < |s.proc| == |s'.proc| && s'.callers == s.callers
    requires s'.proc == s.proc[c := s'.proc[c]]
    requires forall p :: 0 <= p < |s.proc| && p != c ==>
      ArgsOk(s.proc[p]) && FlagsOk(s.proc[p]) && OwnerOk(p, s.proc[p])
    requires s'.proc[c].rts.sending == s.proc[c].rts.sending && s'.proc[c].sendTo == s.proc[c].sendTo
    requires ArgsOk(s'.proc[c]) && FlagsOk(s'.proc[c]) && OwnerOk(c, s'.proc[c])
    requires forall x :: x in s.callers[c] && Accepts(s', c, x) ==> Accepts(s, c, x)
    ensures Protocol(s')
  {
  }

  lemma HandOverProtocol(s: State, c: nat, d: nat, m: Msg)
    requires Protocol(s) && c < |s.proc| && d < |s.proc| && Accepts(s, d, c)
    ensures Protocol(HandOver(s, c, d, m))
  {
    OneProc(s, HandOver(s, c, d, m), d);
  }

  lemma BlockProtocol(s: State, c: nat, d: nat, m: Msg)
    requires Protocol(s) && c < |s.proc| && d < |s.proc| && c != d
    requires s.proc[c].rts == RUNNABLE && !Accepts(s, d, c)
    ensures Protocol(Block(s, c, d, m))
  {
    BlockQueues(s, c, d, m);
  }

  lemma BlockQueues(s: State, c: nat, d: nat, m: Msg)
    requires Protocol(s) && c < |s.proc| && d < |s.proc| && !s.proc[c].rts.sending
    ensures QueuesOk(Block(s, c, d, m))
  {
    AppendNoDup(s.callers[d], c);
  }

  lemma TakeMessageProtocol(s: State, c: nat, x: nat)
    requires Protocol(s) && c < |s.proc| && x in s.callers[c] && s.proc[c].rts == RUNNABLE
    ensures Protocol(TakeMessage(s, c, x))
  {
    TakeMessageSlots(s, c, x);
    TakeMessageQueues(s, c, x);
  }

  lemma TakeMessageSlots(s: State, c: nat, x: nat)
    requires Protocol(s) && c < |s.proc| && x in s.callers[c] && s.proc[c].rts == RUNNABLE
    ensures var s' := TakeMessage(s, c, x);
            && s'.proc == s.proc[x := s.proc[x].(rts := s.proc[x].rts.(sending := false))]
            && ProcsOk(s') && RendezvousOk(s')
  {
    var s' := TakeMessage(s, c, x);
    assert s'.proc == s.proc[x := s.proc[x].(rts := s.proc[x].rts.(sending := false))];
    forall y | 0 <= y < |s'.proc| && s'.proc[y].rts.sending ensures !Accepts(s', s'.proc[y].sendTo, y) {
      assert !Accepts(s, s.proc[y].sendTo, y);
      NowAccepts(s, c, x, y);
    }
  }

  /** A sender taken from a queue may be in SENDREC; then it waits for the one that took it. */
  lemma NowAccepts(s: State, c: nat, x: nat, y: nat)
    requires Protocol(s) && c < |s.proc| && x in s.callers[c] && s.proc[c].rts == RUNNABLE
    requires y < |s.proc| && y != x && s.proc[y].rts.sending && !Accepts(s, s.proc[y].sendTo, y)
    ensures !Accepts(TakeMessage(s, c, x), s.proc[y].sendTo, y)
  {
    var d := s.proc[y].sendTo;
    assert s.proc[x].rts.sending && s.proc[x].sendTo == c;
    if d == x && s.proc[x].rts.receiving {
      assert s.proc[x].getFrom == Only(c) && y != c;
    }
  }

  lemma TakeMessageQueues(s: State, c: nat, x: nat)
    requires Protocol(s) && c < |s.proc| && x in s.callers[c]
    ensures QueuesOk(TakeMessage(s, c, x))
  {
    WithoutNoDup(s.callers[c], x);
  }

  lemma TakeNoticeProtocol(s: State, c: nat, id: nat)
    requires Protocol(s) && c < |s.proc| && id < |s.proc| && s.proc[c].rts == RUNNABLE
    ensures Protocol(TakeNotice(s, c, id))
  {
    OneProc(s, TakeNotice(s, c, id), c);
  }

  lemma AwaitProtocol(s: State, c: nat, src: Source)
    requires Protocol(s) && c < |s.proc| && !s.proc[c].rts.slotFree && !s.proc[c].rts.receiving
    requires FoundNotice(s, c, src) == None && FoundCaller(s, c, src) == None
    requires s.proc[c].rts.sending ==> src == Only(s.proc[c].sendTo) && s.proc[c].busy
    ensures Protocol(Await(s, c, src))
  {
    ScanAny(s, s.proc[c].notified, 0);
    OneProc(s, Await(s, c, src), c);
  }

  lemma NotifyProtocol(s: State, src: nat, d: nat)
    requires Sane(s) && QueuesOk(s) && RendezvousOk(s) && src < |s.proc| && d < |s.proc|
    requires forall p :: 0 <= p < |s.proc| ==> FlagsOk(s.proc[p]) && OwnerOk(p, s.proc[p])
    requires forall p :: 0 <= p < |s.proc| && p != d ==> ArgsOk(s.proc[p])
    requires ArgsOk(s.proc[d].(notified := s.proc[d].notified + {src}))
    ensures Protocol(MiniNotify(s, src, d))
  {
    NotifySlot(s, src, d);
    OneProc(s, MiniNotify(s, src, d), d);
  }

  /** What a notification leaves behind in the slot of its destination. */
  lemma NotifySlot(s: State, src: nat, d: nat)
    requires Sane(s) && src < |s.proc| && d < |s.proc| && FlagsOk(s.proc[d]) && OwnerOk(d, s.proc[d])
    requires ArgsOk(s.proc[d].(notified := s.proc[d].notified + {src}))
    ensures var v, v' := s.proc[d], MiniNotify(s, src, d).proc[d];
            && ArgsOk(v') && FlagsOk(v') && OwnerOk(d, v')
            && v'.rts.sending == v.rts.sending && v'.sendTo == v.sendTo && v'.getFrom == v.getFrom
            && (v'.rts.receiving ==> v.rts.receiving)
  {
    if Accepts(s, d, src) && !s.proc[d].busy {
      NotifyGiven(s, src, d);
    }
  }

  /** The notification was delivered: its argument was taken along, and the receiver runs on. */
  lemma NotifyGiven(s: State, src: nat, d: nat)
    requires Sane(s) && src < |s.proc| && d < |s.proc| && FlagsOk(s.proc[d])
    requires Accepts(s, d, src) && !s.proc[d].busy && ArgsOk(s.proc[d].(notified := s.proc[d].notified + {src}))
    ensures var v, v' := s.proc[d], MiniNotify(s, src, d).proc[d];
            && ArgsOk(v') && FlagsOk(v')
            && v' == v.(rts := v.rts.(receiving := false), ints := v'.ints, sigs := v'.sigs)
  {
  }

  lemma BusyProtocol(s: State, c: nat, b: bool)
    requires Protocol(s) && c < |s.proc| && s.proc[c].rts == RUNNABLE
    ensures Protocol(SetBusy(s, c, b))
  {
    OneProc(s, SetBusy(s, c, b), c);
  }

  lemma InterruptProtocol(s: State, p: nat, id: nat)
    requires Protocol(s) && p < |s.proc|
    ensures Protocol(Interrupt(s, p, id))
  {
    var s1 := SetProc(s, p, s.proc[p].(ints := s.proc[p].ints + {id}));
    var s2 := SetHist(s1, p, s1.hist[p].(irqs := s1.hist[p].irqs + [Sent(id)]));
    NotifyProtocol(s2, HARDWARE, p);
  }

  lemma SendSigProtocol(s: State, p: nat, sig: nat)
    requires Protocol(s) && p < |s.proc|
    ensures Protocol(SendSig(s, p, sig))
  {
    var s1 := SetProc(s, p, s.proc[p].(sigs := s.proc[p].sigs + {sig}));
    var s2 := SetHist(s1, p, s1.hist[p].(signals := s1.hist[p].signals + [Sent(sig)]));
    NotifyProtocol(s2, SYSTEM, p);
  }

  lemma RaiseProtocol(s: State, p: nat, sig: nat)
    requires Protocol(s) && p < |s.proc|
    ensures Protocol(Raise(s, p, sig))
  {
    OneProc(s, Raise(s, p, sig), p);
  }

  lemma {:induction false} FirstSignaledIs(s: State, p: nat)
    ensures var r := FirstSignaled(s, p);
            match r
            case Some(q) => p <= q < |s.proc| && s.proc[q].rts.signaled &&
                            forall i :: p <= i < q ==> !s.proc[i].rts.signaled
            case None => forall i :: p <= i < |s.proc| ==> !s.proc[i].rts.signaled
    decreases |s.proc| - p
  {
    if p < |s.proc| && !s.proc[p].rts.signaled {
      FirstSignaledIs(s, p + 1);
    }
  }

  lemma GetKsigProtocol(s: State)
    requires Protocol(s)
    ensures Protocol(GetKsig(s).0) && |GetKsig(s).0.proc| == |s.proc|
  {
    FirstSignaledIs(s, NR_TASKS);
    if FirstSignaled(s, NR_TASKS).Some? {
      OneProc(s, GetKsig(s).0, FirstSignaled(s, NR_TASKS).value);
    }
  }

  lemma EndKsigProtocol(s: State, p: nat)
    requires Protocol(s) && p < |s.proc|
    ensures Protocol(EndKsig(s, p).0)
  {
    if EndKsig(s, p).0 != s {
      OneProc(s, EndKsig(s, p).0, p);
    }
  }

  lemma PurgeOk(callers: seq<seq<nat>>, p: nat)
    requires forall d :: 0 <= d < |callers| ==> NoDup(callers[d])
    ensures forall d :: 0 <= d < |callers| ==> NoDup(Purge(callers, p)[d])
    ensures forall d, x :: 0 <= d < |callers| ==> (x in Purge(callers, p)[d] <==> x in callers[d] && x != p)
  {
    forall d | 0 <= d < |callers|
      ensures NoDup(Purge(callers, p)[d])
      ensures forall x :: x in Purge(callers, p)[d] <==> x in callers[d] && x != p
    {
      WithoutNoDup(callers[d], p);
    }
  }

  lemma ClearProcProtocol(s: State, p: nat)
    requires Protocol(s) && NR_TASKS <= p < |s.proc|
    ensures Protocol(ClearProc(s, p))
  {
    ClearProcQueues(s, p);
    ClearProcSlots(s, p);
  }

  lemma ClearProcSlots(s: State, p: nat)
    requires Protocol(s) && NR_TASKS <= p < |s.proc|
    ensures var s' := ClearProc(s, p);
            && ProcsOk(s') && RendezvousOk(s')
            && s'.proc == s.proc[p := s'.proc[p]] && s'.proc[p].rts == SLOT_FREE
  {
    var s' := ClearProc(s, p);
    assert s'.proc == s.proc[p := s'.proc[p]];
    forall x | 0 <= x < |s'.proc| && s'.proc[x].rts.sending ensures !Accepts(s', s'.proc[x].sendTo, x) {
      assert !Accepts(s, s.proc[x].sendTo, x);
    }
  }

  lemma ClearProcQueues(s: State, p: nat)
    requires Protocol(s) && p < |s.proc|
    ensures QueuesOk(ClearProc(s, p))
  {
    PurgeOk(s.callers, p);
  }
}
