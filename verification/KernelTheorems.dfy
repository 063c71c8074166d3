/**
 What a process can rely on, whatever the others do.
 */
module KernelTheorems {
  import opened Scheduling
  import opened Ipc
  import opened WaitGraph
  import opened Invariants
  import opened Accounts
  import opened KernelRuns

  // ---- Deadlock detection is exact -------------------------------------------------

  /** The wait-for graph with `c` blocked on `d`. */
  ghost function WithEdge(s: State, c: nat, d: nat): (s': State)
    requires Sane(s) && c < |s.proc| && d < |s.proc|
    ensures Sane(s')
  {
    SetProc(s, c, s.proc[c].(sendTo := d, rts := s.proc[c].rts.(sending := true)))
  }

  /** ELOCKED is returned iff blocking the caller would close a cycle, self-sends apart. */
  lemma LockedIffCycle(s: State, c: nat, d: nat, m: Msg, nonBlocking: bool)
    requires Sane(s) && Acyclic(s) && c < |s.proc| && d < |s.proc| && s.proc[c].rts == RUNNABLE
    ensures MiniSend(s, c, d, m, nonBlocking).1 == ELOCKED <==> c != d && !Acyclic(WithEdge(s, c, d))
  {
    OneMoreEdgeAcyclic(s, WithEdge(s, c, d), c, d);
    assert forall k :: k > 0 ==> Hop(s, c, k) == None;
  }

  /** SEND keeps the graph acyclic except for a blocking send to oneself, which never does. */
  lemma BlockAcyclic(s: State, c: nat, d: nat, m: Msg)
    requires Sane(s) && Acyclic(s) && c < |s.proc| && d < |s.proc| && s.proc[c].rts == RUNNABLE && !Deadlock(s, c, d)
    ensures Acyclic(Block(s, c, d, m)) <==> c != d
  {
    assert forall k :: k > 0 ==> Hop(s, c, k) == None;
    OneMoreEdgeAcyclic(s, Block(s, c, d, m), c, d);
  }

  lemma SendAcyclic(s: State, c: nat, d: nat, m: Msg, nonBlocking: bool)
    requires Sane(s) && Acyclic(s) && c < |s.proc| && d < |s.proc| && s.proc[c].rts == RUNNABLE
    ensures Acyclic(MiniSend(s, c, d, m, nonBlocking).0) <==> !(c == d && !nonBlocking)
  {
    if !Deadlock(s, c, d) && !Accepts(s, d, c) && !nonBlocking {
      BlockAcyclic(s, c, d, m);
    } else {
      assert c == d ==> Hop(s, c, 1) == None && forall k :: k > 0 ==> Hop(s, c, k) == None;
      FewerEdgesAcyclic(s, MiniSend(s, c, d, m, nonBlocking).0);
    }
  }

  // ---- What one step can do to a process that is not running ------------------------

  ghost predicate SameHistory(h: History, h': History) {
    h'.posted == h.posted && h'.arrived == h.arrived && h'.aborted == h.aborted
  }

  /** Blocked as before, nothing sent or received. */
  ghost predicate Quiet(v: Proc, h: History, v': Proc, h': History) {
    && v'.sendTo == v.sendTo && v'.getFrom == v.getFrom && v'.outbox == v.outbox && v'.busy == v.busy
    && v'.rts.sending == v.rts.sending && v'.rts.receiving == v.rts.receiving
    && SameHistory(h, h') && h'.mail == h.mail
  }

  /** A receiver may be given `x`: genuine messages always, notices not during SENDREC. */
  ghost predicate Fits(v: Proc, x: Mail) {
    match x
    case Message(from, _) => v.getFrom == Any || v.getFrom == Only(from)
    case Notice(origin, _) => !v.busy && origin.Some? && (v.getFrom == Any || v.getFrom == Only(origin.value))
  }

  /** It was waiting, and got one piece of mail that fits. */
  ghost predicate Served(v: Proc, h: History, v': Proc, h': History) {
    && v.rts.receiving && !v.rts.sending && !v'.rts.receiving && !v'.rts.sending && v'.busy == v.busy
    && SameHistory(h, h')
    && |h'.mail| == |h.mail| + 1 && h'.mail[..|h.mail|] == h.mail && Fits(v, h'.mail[|h.mail|])
  }

  /** It was sending, and its message was copied to its destination. */
  ghost predicate Released(v: Proc, h: History, v': Proc, h': History) {
    && v.rts.sending && !v'.rts.sending && v'.rts.receiving == v.rts.receiving
    && v'.sendTo == v.sendTo && v'.getFrom == v.getFrom && v'.busy == v.busy
    && h'.arrived == h.arrived + [(v.sendTo, v.outbox)]
    && h'.posted == h.posted && h'.aborted == h.aborted && h'.mail == h.mail
  }

  /** The only three things that happen to a process while it does not run. */
  ghost predicate Passive(s: State, s': State, c: nat)
    requires c < |s.proc| == |s'.proc| == |s.hist| == |s'.hist|
  {
    var v, h, v', h' := s.proc[c], s.hist[c], s'.proc[c], s'.hist[c];
    && v.notified <= v'.notified
    && (Quiet(v, h, v', h') || Served(v, h, v', h') || Released(v, h, v', h'))
  }

  /** Kernel signals and the life of the slot are as before. */
  ghost predicate SameSignals(v: Proc, v': Proc) {
    && v'.rts.signaled == v.rts.signaled && v'.rts.sigPending == v.rts.sigPending
    && v'.rts.slotFree == v.rts.slotFree && v'.pending == v.pending
  }

  /** Nothing of a process changed. */
  lemma Untouched(s: State, s': State, c: nat)
    requires c < |s.proc| == |s'.proc| == |s.hist| == |s'.hist|
    requires s'.proc[c] == s.proc[c] && s'.hist[c] == s.hist[c]
    ensures Passive(s, s', c) && SameSignals(s.proc[c], s'.proc[c])
  {
    assert Quiet(s.proc[c], s.hist[c], s'.proc[c], s'.hist[c]);
  }

  lemma HandOverOther(s: State, q: nat, d: nat, m: Msg, c: nat)
    requires Sane(s) && q < |s.proc| && d < |s.proc| && c < |s.proc| && c != q && Accepts(s, d, q)
    ensures Passive(s, HandOver(s, q, d, m), c) && SameSignals(s.proc[c], HandOver(s, q, d, m).proc[c])
  {
    var s' := HandOver(s, q, d, m);
    if c == d {
      Snoc(s.hist[c].mail, Message(q, m));
      assert s'.hist[c] == s.hist[c].(mail := s.hist[c].mail + [Message(q, m)]);
      assert Served(s.proc[c], s.hist[c], s'.proc[c], s'.hist[c]);
    } else {
      Untouched(s, s', c);
    }
  }

  lemma SendOther(s: State, q: nat, d: nat, m: Msg, nonBlocking: bool, c: nat)
    requires Sane(s) && q < |s.proc| && d < |s.proc| && c < |s.proc| && c != q && !s.proc[q].rts.receiving
    ensures Passive(s, MiniSend(s, q, d, m, nonBlocking).0, c)
    ensures SameSignals(s.proc[c], MiniSend(s, q, d, m, nonBlocking).0.proc[c])
  {
    if !Deadlock(s, q, d) && Accepts(s, d, q) {
      HandOverOther(s, q, d, m, c);
    } else {
      Untouched(s, MiniSend(s, q, d, m, nonBlocking).0, c);
    }
  }

  lemma TakeOther(s: State, q: nat, x: nat, c: nat)
    requires Sane(s) && QueuesOk(s) && q < |s.proc| && c < |s.proc| && c != q && x in s.callers[q]
    ensures Passive(s, TakeMessage(s, q, x), c) && SameSignals(s.proc[c], TakeMessage(s, q, x).proc[c])
  {
    assert s.proc[x].rts.sending && s.proc[x].sendTo == q;
  }

  lemma ReceiveOther(s: State, q: nat, src: Source, nonBlocking: bool, c: nat)
    requires Sane(s) && QueuesOk(s) && q < |s.proc| && c < |s.proc| && c != q
    ensures Passive(s, MiniReceive(s, q, src, nonBlocking).0, c)
    ensures SameSignals(s.proc[c], MiniReceive(s, q, src, nonBlocking).0.proc[c])
  {
    var s' := MiniReceive(s, q, src, nonBlocking).0;
    if FoundNotice(s, q, src).None? && FoundCaller(s, q, src).Some? {
      TakeOther(s, q, FoundCaller(s, q, src).value, c);
    } else {
      assert Quiet(s.proc[c], s.hist[c], s'.proc[c], s'.hist[c]);
    }
  }

  /** The destination of a notification. */
  lemma NotifyTarget(s: State, src: nat, d: nat)
    requires Sane(s) && src < |s.proc| && d < |s.proc|
    ensures Passive(s, MiniNotify(s, src, d), d) && SameSignals(s.proc[d], MiniNotify(s, src, d).proc[d])
  {
    var s' := MiniNotify(s, src, d);
    if Accepts(s, d, src) && !s.proc[d].busy {
      Snoc(s.hist[d].mail, s'.hist[d].mail[|s.hist[d].mail|]);
      assert Served(s.proc[d], s.hist[d], s'.proc[d], s'.hist[d]);
    } else {
      assert Quiet(s.proc[d], s.hist[d], s'.proc[d], s'.hist[d]);
    }
  }

  lemma NotifyOther(s: State, src: nat, d: nat, c: nat)
    requires Sane(s) && src < |s.proc| && d < |s.proc| && c < |s.proc|
    ensures Passive(s, MiniNotify(s, src, d), c)
    ensures SameSignals(s.proc[c], MiniNotify(s, src, d).proc[c])
  {
    if c == d {
      NotifyTarget(s, src, d);
    } else {
      Untouched(s, MiniNotify(s, src, d), c);
    }
  }

  lemma ReceiveCallOther(s: State, q: nat, src: Source, nonBlocking: bool, c: nat)
    requires Protocol(s) && q < |s.proc| && c < |s.proc| && c != q && s.proc[q].rts == RUNNABLE
    ensures Passive(s, MiniReceive(SetBusy(s, q, false), q, src, nonBlocking).0, c)
    ensures SameSignals(s.proc[c], MiniReceive(SetBusy(s, q, false), q, src, nonBlocking).0.proc[c])
  {
    BusyProtocol(s, q, false);
    ReceiveOther(SetBusy(s, q, false), q, src, nonBlocking, c);
  }

  lemma PerformOther(s: State, q: nat, r: Request, m: Msg, nonBlocking: bool, c: nat)
    requires Protocol(s) && q < |s.proc| && Names(s, r) && s.proc[q].rts == RUNNABLE && c < |s.proc| && c != q
    requires r.DoSend? || r.DoSendRec? ==> r.dest != q || nonBlocking
    ensures Passive(s, Perform(s, q, r, m, nonBlocking).0, c)
    ensures SameSignals(s.proc[c], Perform(s, q, r, m, nonBlocking).0.proc[c])
  {
    match r
    case DoSend(d) => SendOther(s, q, d, m, nonBlocking, c);
    case DoSendRec(d) => SendRecOther(s, q, d, m, nonBlocking, c);
    case DoReceive(src) => ReceiveCallOther(s, q, src, nonBlocking, c);
    case DoNotify(d) => NotifyOther(s, q, d, c);
    case DoEcho =>
    case Refuse(error) =>
  }

  lemma CallOther(s: State, t: Trap, c: nat)
    requires Protocol(s) && Enabled(s, Call(t)) && c < |s.proc| && c != s.sched.current
    requires s.rights[IDLE].traps == {}
    ensures Passive(s, SysCall(s, t).0, c)
    ensures SameSignals(s.proc[c], SysCall(s, t).0.proc[c])
  {
    Decoded(s, t);
    PerformOther(s, s.sched.current, Decode(s, s.sched.current, t), t.body, t.nonBlocking, c);
  }

  lemma SendRecOther(s: State, q: nat, d: nat, m: Msg, nonBlocking: bool, c: nat)
    requires Protocol(s) && q < |s.proc| && d < |s.proc| && c < |s.proc| && c != q && (q != d || nonBlocking)
    requires s.proc[q].rts == RUNNABLE
    ensures Passive(s, SendRec(s, q, d, m, nonBlocking).0, c)
    ensures SameSignals(s.proc[c], SendRec(s, q, d, m, nonBlocking).0.proc[c])
  {
    var s0 := SetBusy(s, q, true);
    SendOther(s0, q, d, m, nonBlocking, c);
    var (s1, result) := MiniSend(s0, q, d, m, nonBlocking);
    if result == OK {
      BusyProtocol(s, q, true);
      SendRecAwaits(s0, q, d, m, nonBlocking);
    }
  }

  /** A SENDREC whose send succeeds finds nothing to receive: it blocks until the answer. */
  lemma SendRecAwaits(s: State, q: nat, d: nat, m: Msg, nonBlocking: bool)
    requires Protocol(s) && q < |s.proc| && d < |s.proc| && (q != d || nonBlocking) && s.proc[q].rts == RUNNABLE
    requires s.proc[q].busy
    requires MiniSend(s, q, d, m, nonBlocking).1 == OK
    ensures var s1 := MiniSend(s, q, d, m, nonBlocking).0;
            && FoundNotice(s1, q, Only(d)) == None && FoundCaller(s1, q, Only(d)) == None
            && MiniReceive(s1, q, Only(d), nonBlocking) ==
               if nonBlocking then (s1, ENOTREADY) else (Await(s1, q, Only(d)), OK)
  {
    QueuedMeansDeadlock(s, q, d);
  }

  lemma QueuedMeansDeadlock(s: State, q: nat, d: nat)
    requires Sane(s) && QueuesOk(s) && q < |s.proc| && d < |s.proc|
    ensures d in s.callers[q] ==> Deadlock(s, q, d)
  {
    if d in s.callers[q] {
      assert Hop(s, d, 1) == Hop(s, q, 0) == Some(q);
    }
  }

  // ---- ... whatever the step --------------------------------------------------------

  /** First nothing but pending sets change, then one of the three happens. */
  lemma QuietThen(s: State, s1: State, s': State, c: nat)
    requires c < |s.proc| == |s1.proc| == |s'.proc| == |s.hist| == |s1.hist| == |s'.hist|
    requires Quiet(s.proc[c], s.hist[c], s1.proc[c], s1.hist[c]) && s1.proc[c].notified == s.proc[c].notified
    requires Passive(s1, s', c)
    ensures Passive(s, s', c)
  {
  }

  lemma SendSigOther(s: State, p: nat, sig: nat, c: nat)
    requires Sane(s) && p < |s.proc| && c < |s.proc|
    ensures Passive(s, SendSig(s, p, sig), c)
    ensures SameSignals(s.proc[c], SendSig(s, p, sig).proc[c])
  {
    var s1 := SetProc(s, p, s.proc[p].(sigs := s.proc[p].sigs + {sig}));
    var s2 := SetHist(s1, p, s1.hist[p].(signals := s1.hist[p].signals + [Sent(sig)]));
    NotifyOther(s2, SYSTEM, p, c);
    QuietThen(s, s2, SendSig(s, p, sig), c);
  }

  lemma InterruptOther(s: State, p: nat, id: nat, c: nat)
    requires Sane(s) && p < |s.proc| && c < |s.proc|
    ensures Passive(s, Interrupt(s, p, id), c)
    ensures SameSignals(s.proc[c], Interrupt(s, p, id).proc[c])
  {
    var s1 := SetProc(s, p, s.proc[p].(ints := s.proc[p].ints + {id}));
    var s2 := SetHist(s1, p, s1.hist[p].(irqs := s1.hist[p].irqs + [Sent(id)]));
    NotifyOther(s2, HARDWARE, p, c);
    QuietThen(s, s2, Interrupt(s, p, id), c);
  }

  lemma CauseSigOther(s: State, p: nat, sig: nat, c: nat)
    requires Sane(s) && p < |s.proc| && c < |s.proc|
    ensures Passive(s, CauseSig(s, p, sig), c)
    ensures SameSignals(s.proc[c], CauseSig(s, p, sig).proc[c]) ||
            (c == p && CauseSig(s, p, sig).proc[c].rts.slotFree == s.proc[c].rts.slotFree &&
             (s.proc[c].rts.sigPending ==> CauseSig(s, p, sig).proc[c].rts.sigPending))
  {
    if sig !in s.proc[p].pending && !s.proc[p].rts.signaled {
      var s1 := Raise(s, p, sig);
      SendSigOther(s1, PM, SIGKSIG, c);
      QuietThen(s, s1, CauseSig(s, p, sig), c);
    }
  }

  lemma FetchOther(s: State, c: nat)
    requires Sane(s) && c < |s.proc|
    ensures Passive(s, GetKsig(s).0, c) && GetKsig(s).0.proc[c].rts.sigPending == s.proc[c].rts.sigPending
  {
  }

  lemma DoneOther(s: State, p: nat, c: nat)
    requires Sane(s) && p < |s.proc| && c < |s.proc|
    ensures Passive(s, EndKsig(s, p).0, c)
    ensures p != c || s.proc[p].rts.signaled ==> EndKsig(s, p).0.proc[c].rts.sigPending == s.proc[c].rts.sigPending
  {
  }

  lemma ExitOther(s: State, p: nat, c: nat)
    requires Sane(s) && p < |s.proc| && c < |s.proc| && c != p
    ensures Passive(s, ClearProc(s, p), c) && SameSignals(s.proc[c], ClearProc(s, p).proc[c])
  {
    Untouched(s, ClearProc(s, p), c);
  }

  /** One step of anybody, seen by a process `c` that is not running. */
  lemma StepOther(s: State, st: Step, c: nat)
    requires Protocol(s) && s.rights[IDLE].traps == {} && Enabled(s, st) && c < |s.proc| && st != Exit(c)
    requires st.Call? || st.Reply? ==> c != s.sched.current
    ensures Passive(s, Apply(s, st), c)
  {
    match st
    case Call(t) => CallOther(s, t, c);
    case Reply(d, m) => SendOther(s, s.sched.current, d, m, true, c);
    case Note(p, d) => NotifyOther(s, p, d, c);
    case Irq(p, id) => InterruptOther(s, p, id, c);
    case Signal(p, sig) => SendSigOther(s, p, sig, c);
    case Kill(p, sig) => CauseSigOther(s, p, sig, c);
    case Fetch => FetchOther(s, c);
    case Done(p) => DoneOther(s, p, c);
    case Exit(p) => ExitOther(s, p, c);
    case Tick(p, ticks) =>
    case Requeue(p) =>
    case Switch(p) =>
    case Shutdown =>
  }

  // ---- What was received and what was copied out only grows -------------------------

  ghost predicate Grows(s: State, s': State, c: nat)
    requires c < |s.hist| == |s'.hist|
  {
    s.hist[c].mail <= s'.hist[c].mail && s.hist[c].arrived <= s'.hist[c].arrived
  }

  lemma SendSelf(s: State, c: nat, d: nat, m: Msg, nonBlocking: bool)
    requires Sane(s) && c < |s.proc| && d < |s.proc| && (c != d || nonBlocking) && s.proc[c].rts == RUNNABLE
    ensures Grows(s, MiniSend(s, c, d, m, nonBlocking).0, c)
    ensures MiniSend(s, c, d, m, nonBlocking).0.hist[c].mail == s.hist[c].mail
    ensures MiniSend(s, c, d, m, nonBlocking).0.proc[c].busy == s.proc[c].busy
    ensures MiniSend(s, c, d, m, nonBlocking).1 == OK ==>
      MiniSend(s, c, d, m, nonBlocking).0.hist[c].posted == s.hist[c].posted + [(d, m)]
  {
    if !Deadlock(s, c, d) {
      if Accepts(s, d, c) {
        HandOverSelf(s, c, d, m);
      } else if !nonBlocking {
        BlockSelf(s, c, d, m);
      }
    }
  }

  lemma HandOverSelf(s: State, c: nat, d: nat, m: Msg)
    requires Sane(s) && c < |s.proc| && d < |s.proc| && c != d
    ensures var s' := HandOver(s, c, d, m);
            && s'.proc[c] == s.proc[c]
            && s'.hist[c] == s.hist[c].(posted := s.hist[c].posted + [(d, m)], arrived := s.hist[c].arrived + [(d, m)])
  {
  }

  lemma BlockSelf(s: State, c: nat, d: nat, m: Msg)
    requires Sane(s) && c < |s.proc| && d < |s.proc|
    ensures var s' := Block(s, c, d, m);
            && s'.hist[c] == s.hist[c].(posted := s.hist[c].posted + [(d, m)])
            && s'.proc[c].busy == s.proc[c].busy
  {
  }

  /** One more piece of mail. */
  ghost predicate OneMore(h: History, h': History) {
    h'.arrived == h.arrived && |h'.mail| == |h.mail| + 1 && h.mail <= h'.mail
  }

  lemma NoticeSelf(s: State, c: nat, id: nat)
    requires Sane(s) && c < |s.proc|
    ensures OneMore(s.hist[c], TakeNotice(s, c, id).hist[c])
  {
  }

  lemma MessageSelf(s: State, c: nat, x: nat)
    requires Sane(s) && c < |s.proc| && x < |s.proc| && x != c
    ensures OneMore(s.hist[c], TakeMessage(s, c, x).hist[c])
  {
    assert TakeMessage(s, c, x).hist[c].mail == s.hist[c].mail + [Message(x, s.proc[x].outbox)];
  }

  lemma ReceiveSelf(s: State, c: nat, src: Source, nonBlocking: bool)
    requires Sane(s) && QueuesOk(s) && c < |s.proc| && s.proc[c].rts == RUNNABLE
    ensures var h, h' := s.hist[c], MiniReceive(s, c, src, nonBlocking).0.hist[c]; h' == h || OneMore(h, h')
  {
    if FoundNotice(s, c, src).Some? {
      NoticeSelf(s, c, FoundNotice(s, c, src).value);
    } else if FoundCaller(s, c, src).Some? {
      assert FoundCaller(s, c, src).value != c;
      MessageSelf(s, c, FoundCaller(s, c, src).value);
    }
  }

  /** `c` is inside a SENDREC to `d`, blocked sending, receiving or both. */
  ghost predicate InSendRec(s: State, c: nat, d: nat)
    requires c < |s.proc|
  {
    s.proc[c].rts.receiving && s.proc[c].busy && s.proc[c].getFrom == Only(d)
  }

  /** A SENDREC that returns OK has posted its message and is waiting for the answer. */
  lemma SendRecSelf(s: State, c: nat, d: nat, m: Msg, nonBlocking: bool)
    requires Protocol(s) && c < |s.proc| && d < |s.proc| && (c != d || nonBlocking) && s.proc[c].rts == RUNNABLE
    ensures var (s', result) := SendRec(s, c, d, m, nonBlocking);
            && s'.hist[c].mail == s.hist[c].mail && s.hist[c].arrived <= s'.hist[c].arrived
            && (result == OK ==> InSendRec(s', c, d) && s'.hist[c].posted == s.hist[c].posted + [(d, m)])
  {
    var s0 := SetBusy(s, c, true);
    BusyProtocol(s, c, true);
    SendSelf(s0, c, d, m, nonBlocking);
    if MiniSend(s0, c, d, m, nonBlocking).1 == OK {
      SendRecAwaits(s0, c, d, m, nonBlocking);
    }
  }

  lemma ReceiveCallSelf(s: State, c: nat, src: Source, nonBlocking: bool)
    requires Protocol(s) && c < |s.proc| && s.proc[c].rts == RUNNABLE
    ensures Grows(s, MiniReceive(SetBusy(s, c, false), c, src, nonBlocking).0, c)
  {
    BusyProtocol(s, c, false);
    ReceiveSelf(SetBusy(s, c, false), c, src, nonBlocking);
  }

  lemma PerformSelf(s: State, c: nat, r: Request, m: Msg, nonBlocking: bool)
    requires Protocol(s) && c < |s.proc| && Names(s, r) && s.proc[c].rts == RUNNABLE
    requires r.DoSend? || r.DoSendRec? ==> r.dest != c || nonBlocking
    ensures Grows(s, Perform(s, c, r, m, nonBlocking).0, c)
  {
    match r
    case DoSend(d) => SendSelf(s, c, d, m, nonBlocking);
    case DoSendRec(d) => SendRecSelf(s, c, d, m, nonBlocking);
    case DoReceive(src) => ReceiveCallSelf(s, c, src, nonBlocking);
    case DoNotify(d) => NotifyOther(s, c, d, c);
    case DoEcho =>
    case Refuse(error) =>
  }

  lemma CallSelf(s: State, t: Trap)
    requires Protocol(s) && Enabled(s, Call(t)) && s.rights[IDLE].traps == {}
    ensures Grows(s, SysCall(s, t).0, s.sched.current)
  {
    Decoded(s, t);
    PerformSelf(s, s.sched.current, Decode(s, s.sched.current, t), t.body, t.nonBlocking);
  }

  lemma PassiveGrows(s: State, s': State, c: nat)
    requires c < |s.proc| == |s'.proc| == |s.hist| == |s'.hist| && Passive(s, s', c)
    ensures Grows(s, s', c)
  {
  }

  lemma ExitGrows(s: State, p: nat)
    requires Sane(s) && p < |s.proc|
    ensures Grows(s, ClearProc(s, p), p)
  {
  }

  lemma StepGrows(s: State, st: Step, c: nat)
    requires Protocol(s) && s.rights[IDLE].traps == {} && Enabled(s, st) && c < |s.proc|
    ensures Grows(s, Apply(s, st), c)
  {
    if st.Call? && c == s.sched.current {
      CallSelf(s, st.trap);
    } else if st.Reply? && c == s.sched.current {
      SendSelf(s, c, st.dest, st.body, true);
    } else if st == Exit(c) {
      ExitGrows(s, c);
    } else {
      StepOther(s, st, c);
      PassiveGrows(s, Apply(s, st), c);
    }
  }

  // ---- Whole runs ------------------------------------------------------------------

  /** The last of several steps, taken in a state that satisfies the protocol. */
  lemma LastStep(s: State, steps: seq<Step>, s': State) returns (m: State)
    requires Inv(s) && steps != [] && After(s, steps) == Some(s')
    ensures After(s, steps[..|steps| - 1]) == Some(m) && |m.proc| == |s.proc|
    ensures Protocol(m) && m.rights[IDLE].traps == {}
    ensures Enabled(m, steps[|steps| - 1]) && s' == Apply(m, steps[|steps| - 1])
  {
    m := After(s, steps[..|steps| - 1]).value;
    AfterInv(s, steps[..|steps| - 1], m);
  }

  /** `c` is where it was in its SENDREC to `d`, or got a genuine message from `d` next. */
  ghost predicate WaitsOrAnswered(s: State, s': State, c: nat, d: nat)
    requires c < |s'.proc| && c < |s.hist| && c < |s'.hist|
  {
    var m, m' := s.hist[c].mail, s'.hist[c].mail;
    || (m' == m && InSendRec(s', c, d))
    || (|m'| > |m| && m'[|m|].Message? && m'[|m|].from == d)
  }

  lemma SendRecStep(s: State, st: Step, c: nat, d: nat)
    requires Protocol(s) && s.rights[IDLE].traps == {} && Enabled(s, st) && c < |s.proc| && st != Exit(c)
    ensures InSendRec(s, c, d) ==> WaitsOrAnswered(s, Apply(s, st), c, d)
    ensures s.hist[c].mail <= Apply(s, st).hist[c].mail
  {
    StepGrows(s, st, c);
    if InSendRec(s, c, d) {
      StepOther(s, st, c);
    }
  }

  /**
   SENDREC is atomic: whatever the other processes do, the first thing a process gets
   after a SENDREC to `d` is a genuine message from `d`, no notification and nothing from
   a third party.
   */
  lemma {:induction false} SendRecAtomic(s: State, steps: seq<Step>, s': State, c: nat, d: nat)
    requires Inv(s) && After(s, steps) == Some(s') && Exit(c) !in steps
    requires c < |s.proc| == |s'.proc| == |s'.hist| && InSendRec(s, c, d)
    ensures WaitsOrAnswered(s, s', c, d)
    decreases steps
  {
    if steps != [] {
      var m := LastStep(s, steps, s');
      SendRecAtomic(s, steps[..|steps| - 1], m, c, d);
      SendRecStep(m, steps[|steps| - 1], c, d);
    }
  }

  /**
   `c`, SENDING in `s`, still is in `s'`, with the same message to the same process, or
   the next thing that was copied out of it is that message.
   */
  ghost predicate WaitsOrSent(s: State, s': State, c: nat)
    requires c < |s.proc| == |s'.proc| == |s.hist| == |s'.hist|
  {
    var v, v', a, a' := s.proc[c], s'.proc[c], s.hist[c].arrived, s'.hist[c].arrived;
    || (a' == a && v'.rts.sending && v'.sendTo == v.sendTo && v'.outbox == v.outbox)
    || (|a'| > |a| && a'[|a|] == (v.sendTo, v.outbox))
  }

  lemma SenderStep(s: State, st: Step, c: nat)
    requires Protocol(s) && s.rights[IDLE].traps == {} && Enabled(s, st) && c < |s.proc| && st != Exit(c)
    ensures s.proc[c].rts.sending ==> WaitsOrSent(s, Apply(s, st), c)
    ensures s.hist[c].arrived <= Apply(s, st).hist[c].arrived
  {
    StepGrows(s, st, c);
    if s.proc[c].rts.sending {
      StepOther(s, st, c);
    }
  }

  /** A blocked sender stays blocked until its message was copied. */
  lemma {:induction false} SenderWaits(s: State, steps: seq<Step>, s': State, c: nat)
    requires Inv(s) && After(s, steps) == Some(s') && Exit(c) !in steps
    requires c < |s.proc| == |s'.proc| == |s'.hist| && s.proc[c].rts.sending
    ensures WaitsOrSent(s, s', c)
    decreases steps
  {
    if steps != [] {
      var m := LastStep(s, steps, s');
      SenderWaits(s, steps[..|steps| - 1], m, c);
      SenderStep(m, steps[|steps| - 1], c);
    }
  }

  // ---- A signalled process is held back until PM is done with it ---------------------

  /** The step by which PM, having seen every signal of `p`, releases it. */
  ghost predicate Releases(s: State, st: Step, p: nat)
    requires p < |s.proc|
  {
    st == Exit(p) || (st == Done(p) && !s.proc[p].rts.signaled)
  }

  /** None of the steps is one that releases `p`. */
  ghost predicate NeverReleased(s: State, steps: seq<Step>, p: nat) {
    steps != [] ==>
      var front, last := steps[..|steps| - 1], steps[|steps| - 1];
      && NeverReleased(s, front, p)
      && (After(s, front).Some? && p < |After(s, front).value.proc| ==> !Releases(After(s, front).value, last, p))
  }

  lemma HeldStep(s: State, st: Step, p: nat)
    requires Protocol(s) && s.rights[IDLE].traps == {} && Enabled(s, st) && p < |s.proc|
    requires s.proc[p].rts.sigPending && !Releases(s, st, p)
    ensures Apply(s, st).proc[p].rts.sigPending
  {
    match st
    case Call(t) => CallOther(s, t, p);
    case Reply(d, m) => SendOther(s, s.sched.current, d, m, true, p);
    case Note(q, d) => NotifyOther(s, q, d, p);
    case Irq(q, id) => InterruptOther(s, q, id, p);
    case Signal(q, sig) => SendSigOther(s, q, sig, p);
    case Kill(q, sig) => CauseSigOther(s, q, sig, p);
    case Fetch => FetchOther(s, p);
    case Done(q) => DoneOther(s, q, p);
    case Exit(q) => ExitOther(s, q, p);
    case Tick(q, ticks) =>
    case Requeue(q) =>
    case Switch(q) =>
    case Shutdown =>
  }

  lemma {:induction false} HeldBack(s: State, steps: seq<Step>, s': State, p: nat)
    requires Inv(s) && After(s, steps) == Some(s') && NeverReleased(s, steps, p)
    requires p < |s.proc| == |s'.proc| && s.proc[p].rts.sigPending
    ensures s'.proc[p].rts.sigPending
    decreases steps
  {
    if steps != [] {
      var m := LastStep(s, steps, s');
      HeldBack(s, steps[..|steps| - 1], m, p);
      HeldStep(m, steps[|steps| - 1], p);
    }
  }

  lemma OffQueues(s: State, p: nat)
    requires Sane(s) && Scheduled(s) && p < |s.proc| && s.proc[p].rts != RUNNABLE
    ensures forall q :: 0 <= q < NR_SCHED_QUEUES ==> p !in s.sched.ready[q]
  {
    assert p !in RunSet(s);
  }

  /** From cause_sig() until PM releases it, a process is on no ready queue. */
  lemma HeldOffQueues(s: State, sig: nat, steps: seq<Step>, s': State, p: nat)
    requires Inv(s) && NR_TASKS <= p < |s.proc| == |s'.proc| && !s.proc[p].rts.slotFree
    requires After(CauseSig(s, p, sig), steps) == Some(s') && NeverReleased(CauseSig(s, p, sig), steps, p)
    ensures |s'.sched.ready| == NR_SCHED_QUEUES
    ensures forall q :: 0 <= q < NR_SCHED_QUEUES ==> p !in s'.sched.ready[q]
  {
    var s1 := CauseSig(s, p, sig);
    CauseSigInv(s, p, sig);
    assert s1.proc[p].rts.sigPending by {
      if !s.proc[p].rts.signaled { SendSigOther(Raise(s, p, sig), PM, SIGKSIG, p); }
    }
    HeldBack(s1, steps, s', p);
    AfterInv(s1, steps, s');
    OffQueues(s', p);
  }
}
