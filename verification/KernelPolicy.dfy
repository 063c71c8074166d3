/**
 What the kernel's rules amount to over whole runs: a process cannot reach those it may not
 send to, and one that keeps running out of time sinks.
 */
module KernelPolicy {
  import opened Lists
  import opened Scheduling
  import opened Ipc
  import opened NoticeSearch
  import opened Invariants
  import opened Accounts
  import opened KernelRuns
  import opened KernelTheorems
  import opened KernelOutcomes

  // ---- Out of reach ---------------------------------------------------------------------

  /** A process with these rights may not send to `d` or notify it. */
  predicate Barred(r: Rights, d: nat) {
    d !in r.ipcTo || (SEND !in r.traps && SENDREC !in r.traps && NOTIFY !in r.traps)
  }

  /** How many notifications from `c` are among the mail. */
  ghost function NoticesFrom(mail: seq<Mail>, c: nat): nat {
    if mail == [] then 0 else
      var last := mail[|mail| - 1];
      NoticesFrom(mail[..|mail| - 1], c) + if last.Notice? && last.origin == Some(c) then 1 else 0
  }

  lemma NoticesSnoc(mail: seq<Mail>, x: Mail, c: nat)
    ensures NoticesFrom(mail + [x], c) == NoticesFrom(mail, c) + if x.Notice? && x.origin == Some(c) then 1 else 0
  {
    Snoc(mail, x);
  }

  /** `d` was not notified by `c`, and no notification from `c` is newly pending for it. */
  ghost predicate Spared(s: State, s': State, c: nat, d: nat)
    requires d < |s.proc| == |s'.proc| == |s.hist| == |s'.hist|
  {
    && (c in s'.proc[d].notified ==> c in s.proc[d].notified)
    && NoticesFrom(s'.hist[d].mail, c) == NoticesFrom(s.hist[d].mail, c)
  }

  /** `c` sent nothing to `d`. */
  ghost predicate Silent(h: History, h': History, d: nat) {
    h.posted <= h'.posted && forall i :: |h.posted| <= i < |h'.posted| ==> h'.posted[i].0 != d
  }

  lemma SendSpares(s: State, q: nat, e: nat, m: Msg, nonBlocking: bool, c: nat, d: nat)
    requires Sane(s) && q < |s.proc| && e < |s.proc| && s.proc[q].rts == RUNNABLE && d < |s.proc|
    ensures Spared(s, MiniSend(s, q, e, m, nonBlocking).0, c, d)
  {
    if !Deadlock(s, q, e) {
      if Accepts(s, e, q) {
        HandOverSpares(s, q, e, m, c, d);
      } else if !nonBlocking {
        BlockSpares(s, q, e, m, c, d);
      }
    }
  }

  lemma HandOverSpares(s: State, q: nat, e: nat, m: Msg, c: nat, d: nat)
    requires Sane(s) && q < |s.proc| && e < |s.proc| && q != e && d < |s.proc|
    ensures Spared(s, HandOver(s, q, e, m), c, d)
  {
    HandOverMeans(s, q, e, m);
    NoticesSnoc(s.hist[e].mail, Message(q, m), c);
  }

  lemma BlockSpares(s: State, q: nat, e: nat, m: Msg, c: nat, d: nat)
    requires Sane(s) && q < |s.proc| && e < |s.proc| && s.proc[q].rts == RUNNABLE && d < |s.proc|
    ensures Spared(s, Block(s, q, e, m), c, d)
  {
    BlockMeans(s, q, e, m);
  }

  lemma SpareThen(s: State, s1: State, s': State, c: nat, d: nat)
    requires d < |s.proc| == |s1.proc| == |s'.proc| == |s.hist| == |s1.hist| == |s'.hist|
    requires s1.proc[d].notified == s.proc[d].notified && s1.hist[d].mail == s.hist[d].mail && Spared(s1, s', c, d)
    ensures Spared(s, s', c, d)
  {
  }

  lemma ListeningSpares(s: State, q: nat, src: Source, s': State, d: nat)
    requires Sane(s) && Sane(s') && q < |s.proc| == |s'.proc| && d < |s.proc| && Listening(s, q, src, s')
    ensures s'.proc[d].notified == s.proc[d].notified && s'.hist[d].mail == s.hist[d].mail
  {
  }

  lemma SendRecSpares(s: State, q: nat, e: nat, m: Msg, nonBlocking: bool, c: nat, d: nat)
    requires Protocol(s) && q < |s.proc| && e < |s.proc| && (q != e || nonBlocking) && s.proc[q].rts == RUNNABLE
    requires d < |s.proc|
    ensures Spared(s, SendRec(s, q, e, m, nonBlocking).0, c, d)
  {
    var s0 := SetBusy(s, q, true);
    BusyProtocol(s, q, true);
    SendSpares(s0, q, e, m, nonBlocking, c, d);
    var (s1, r1) := MiniSend(s0, q, e, m, nonBlocking);
    SpareThen(s, s0, s1, c, d);
    if r1 == OK {
      SendRecAwaits(s0, q, e, m, nonBlocking);
      AwaitMeans(s1, q, Only(e));
      ListeningSpares(s1, q, Only(e), Await(s1, q, Only(e)), d);
    }
  }

  lemma TakeNoticeSpares(s: State, q: nat, id: nat, c: nat, d: nat)
    requires Sane(s) && q < |s.proc| && d < |s.proc| && id < |s.proc| && id in s.proc[q].notified
    requires s.proc[id].owner in {None, Some(id)} && c !in s.proc[d].notified
    ensures Spared(s, TakeNotice(s, q, id), c, d)
  {
    TakeNoticeMeans(s, q, id);
    NoticesSnoc(s.hist[q].mail, Notice(s.proc[id].owner, Carried(s.proc[q], s.proc[id].owner)), c);
  }

  lemma TakeMessageSpares(s: State, q: nat, x: nat, c: nat, d: nat)
    requires Sane(s) && q < |s.proc| && d < |s.proc| && x < |s.proc| && x != q
    ensures Spared(s, TakeMessage(s, q, x), c, d)
  {
    TakeMessageMeans(s, q, x);
    NoticesSnoc(s.hist[q].mail, Message(x, s.proc[x].outbox), c);
  }

  lemma ReceiveSpares(s: State, q: nat, src: Source, nonBlocking: bool, c: nat, d: nat)
    requires Protocol(s) && q < |s.proc| && d < |s.proc| && c !in s.proc[d].notified
    ensures Spared(s, MiniReceive(s, q, src, nonBlocking).0, c, d)
  {
    if FoundNotice(s, q, src).Some? {
      NoticeSearchBound(s, q, src);
      TakeNoticeSpares(s, q, FoundNotice(s, q, src).value, c, d);
    } else if FoundCaller(s, q, src).Some? {
      assert s.proc[FoundCaller(s, q, src).value].rts.sending;
      TakeMessageSpares(s, q, FoundCaller(s, q, src).value, c, d);
    } else {
      AwaitMeans(s, q, src);
    }
  }

  /** What the search finds is pending and belongs to its own slot or to none. */
  lemma NoticeSearchBound(s: State, q: nat, src: Source)
    requires Protocol(s) && q < |s.proc| && FoundNotice(s, q, src).Some?
    ensures var id := FoundNotice(s, q, src).value;
            id < |s.proc| && id in s.proc[q].notified && s.proc[id].owner in {None, Some(id)}
  {
    ScanSound(s, s.proc[q].notified, src, 0);
    assert OwnerOk(FoundNotice(s, q, src).value, s.proc[FoundNotice(s, q, src).value]);
  }

  lemma NotifySpares(s: State, src: nat, e: nat, c: nat, d: nat)
    requires Sane(s) && src < |s.proc| && e < |s.proc| && d < |s.proc| && (src != c || e != d)
    ensures Spared(s, MiniNotify(s, src, e), c, d)
  {
    NotifyMeans(s, src, e);
    NoticesSnoc(s.hist[e].mail, Notice(Some(src), Carried(s.proc[e], Some(src))), c);
  }

  lemma AlertSpares(s: State, p: nat, origin: nat, ints: set<nat>, sigs: set<nat>, s': State, c: nat, d: nat)
    requires Sane(s) && Sane(s') && p < |s.proc| == |s'.proc| && d < |s.proc| && origin != c
    requires Alerted(s, p, origin, ints, sigs, s')
    ensures Spared(s, s', c, d)
  {
    NoticesSnoc(s.hist[p].mail, Notice(Some(origin), if origin == HARDWARE then ints else sigs), c);
  }

  lemma KillSpares(s: State, p: nat, sig: nat, c: nat, d: nat)
    requires Sane(s) && p < |s.proc| && d < |s.proc| && c != SYSTEM
    ensures Spared(s, CauseSig(s, p, sig), c, d)
  {
    if sig !in s.proc[p].pending && !s.proc[p].rts.signaled {
      var s1 := Raise(s, p, sig);
      SendSigMeans(s1, PM, SIGKSIG);
      AlertSpares(s1, PM, SYSTEM, s1.proc[PM].ints, s1.proc[PM].sigs + {SIGKSIG}, CauseSig(s, p, sig), c, d);
    }
  }

  /** A request that passed the checks is not one its maker is barred from. */
  lemma BarredRequest(s: State, t: Trap, d: nat)
    requires Sane(s) && Enabled(s, Call(t)) && Barred(s.rights[s.sched.current], d)
    ensures var q := Decode(s, s.sched.current, t); q.DoSend? || q.DoSendRec? || q.DoNotify? ==> q.dest != d
  {
    DecodeMeans(s, t);
    CheckBits();
  }

  lemma CallSpares(s: State, t: Trap, c: nat, d: nat)
    requires Protocol(s) && Enabled(s, Call(t)) && s.rights[IDLE].traps == {} && c < |s.proc| && d < |s.proc|
    requires Barred(s.rights[c], d) && c !in s.proc[d].notified
    ensures Spared(s, SysCall(s, t).0, c, d)
  {
    var q := s.sched.current;
    Decoded(s, t);
    if q == c {
      BarredRequest(s, t, d);
    }
    match Decode(s, q, t)
    case DoSend(e) => SendSpares(s, q, e, t.body, t.nonBlocking, c, d);
    case DoSendRec(e) => SendRecSpares(s, q, e, t.body, t.nonBlocking, c, d);
    case DoReceive(src) =>
      BusyProtocol(s, q, false);
      ReceiveSpares(SetBusy(s, q, false), q, src, t.nonBlocking, c, d);
    case DoNotify(e) => NotifySpares(s, q, e, c, d);
    case DoEcho =>
    case Refuse(_) =>
  }

  lemma StepSpares(s: State, st: Step, c: nat, d: nat)
    requires Protocol(s) && s.rights[IDLE].traps == {} && Enabled(s, st) && c < |s.proc| && d < |s.proc|
    requires Barred(s.rights[c], d) && c !in s.proc[d].notified && c !in {SYSTEM, HARDWARE} && st != Note(c, d)
    ensures Spared(s, Apply(s, st), c, d)
  {
    match st
    case Call(t) => CallSpares(s, t, c, d);
    case Reply(e, m) => SendSpares(s, s.sched.current, e, m, true, c, d);
    case Note(p, e) => NotifySpares(s, p, e, c, d);
    case Irq(p, id) =>
      InterruptMeans(s, p, id);
      AlertSpares(s, p, HARDWARE, s.proc[p].ints + {id}, s.proc[p].sigs, Interrupt(s, p, id), c, d);
    case Signal(p, sig) =>
      SendSigMeans(s, p, sig);
      AlertSpares(s, p, SYSTEM, s.proc[p].ints, s.proc[p].sigs + {sig}, SendSig(s, p, sig), c, d);
    case Kill(p, sig) => KillSpares(s, p, sig, c, d);
    case Fetch => GetKsigMeans(s);
    case Done(p) => EndKsigMeans(s, p);
    case Exit(p) => ExitMeans(s, p);
    case Tick(p, ticks) =>
    case Requeue(p) =>
    case Switch(p) =>
    case Shutdown =>
  }

  // ---- What a process sends -------------------------------------------------------------

  lemma SendSilent(s: State, c: nat, e: nat, m: Msg, nonBlocking: bool, d: nat)
    requires Sane(s) && c < |s.proc| && e < |s.proc| && s.proc[c].rts == RUNNABLE && e != d
    ensures Silent(s.hist[c], MiniSend(s, c, e, m, nonBlocking).0.hist[c], d)
  {
    SendMeans(s, c, e, m, nonBlocking);
  }

  lemma ReceiveSilent(s: State, c: nat, src: Source, nonBlocking: bool)
    requires Protocol(s) && c < |s.proc|
    ensures MiniReceive(s, c, src, nonBlocking).0.hist[c].posted == s.hist[c].posted
  {
    if FoundNotice(s, c, src).Some? {
      NoticeSearchBound(s, c, src);
      TakeNoticeMeans(s, c, FoundNotice(s, c, src).value);
    } else if FoundCaller(s, c, src).Some? {
      var x := FoundCaller(s, c, src).value;
      assert s.proc[x].rts.sending;
      TakeMessageMeans(s, c, x);
    }
  }

  lemma SendRecSilent(s: State, c: nat, e: nat, m: Msg, nonBlocking: bool, d: nat)
    requires Protocol(s) && c < |s.proc| && e < |s.proc| && (c != e || nonBlocking) && s.proc[c].rts == RUNNABLE
    requires e != d
    ensures Silent(s.hist[c], SendRec(s, c, e, m, nonBlocking).0.hist[c], d)
  {
    var s0 := SetBusy(s, c, true);
    BusyProtocol(s, c, true);
    SendSilent(s0, c, e, m, nonBlocking, d);
    if MiniSend(s0, c, e, m, nonBlocking).1 == OK {
      SendRecAwaits(s0, c, e, m, nonBlocking);
    }
  }

  lemma CallSilent(s: State, t: Trap, d: nat)
    requires Protocol(s) && Enabled(s, Call(t)) && s.rights[IDLE].traps == {} && Barred(s.rights[s.sched.current], d)
    ensures Silent(s.hist[s.sched.current], SysCall(s, t).0.hist[s.sched.current], d)
  {
    var c := s.sched.current;
    Decoded(s, t);
    BarredRequest(s, t, d);
    match Decode(s, c, t)
    case DoSend(e) => SendSilent(s, c, e, t.body, t.nonBlocking, d);
    case DoSendRec(e) => SendRecSilent(s, c, e, t.body, t.nonBlocking, d);
    case DoReceive(src) =>
      BusyProtocol(s, c, false);
      ReceiveSilent(SetBusy(s, c, false), c, src, t.nonBlocking);
    case DoNotify(e) => NotifyMeans(s, c, e);
    case DoEcho =>
    case Refuse(_) =>
  }

  lemma StepSilent(s: State, st: Step, c: nat, d: nat)
    requires Protocol(s) && s.rights[IDLE].traps == {} && Enabled(s, st) && c < |s.proc| && d < |s.proc|
    requires Barred(s.rights[c], d) && !(st.Reply? && st.dest == d)
    ensures Silent(s.hist[c], Apply(s, st).hist[c], d)
  {
    if st.Call? && c == s.sched.current {
      CallSilent(s, st.trap, d);
    } else if st.Reply? && c == s.sched.current {
      SendSilent(s, c, st.dest, st.body, true, d);
    } else if st == Exit(c) {
      ExitMeans(s, c);
    } else {
      StepOther(s, st, c);
    }
  }

  // ---- Over a run -------------------------------------------------------------------------

  /**
   Whatever a process and all others do, nothing from it reaches a process that it may not
   send to, or to which it may make no such call: no message is accepted from it and no
   notification is pending or delivered, unless the kernel itself sends in its name.
   */
  lemma {:induction false} OutOfReachForever(s: State, steps: seq<Step>, s': State, c: nat, d: nat)
    requires Inv(s) && After(s, steps) == Some(s') && c < |s.proc| == |s'.proc| == |s'.hist| == |s'.rights|
    requires d < |s.proc| && Barred(s.rights[c], d) && c !in s.proc[d].notified && c !in {SYSTEM, HARDWARE}
    requires forall i :: 0 <= i < |steps| ==> steps[i] != Note(c, d) && !(steps[i].Reply? && steps[i].dest == d)
    ensures c !in s'.proc[d].notified && Spared(s, s', c, d) && Silent(s.hist[c], s'.hist[c], d)
    ensures s'.rights == s.rights
    decreases steps
  {
    if steps != [] {
      var front, last := steps[..|steps| - 1], steps[|steps| - 1];
      var m := LastStep(s, steps, s');
      OutOfReachForever(s, front, m, c, d);
      StepSpares(m, last, c, d);
      StepSilent(m, last, c, d);
    }
  }

  // ---- A looping process sinks -----------------------------------------------------------

  /** The process uses up one quantum after the other. */
  ghost function Spins(p: nat, ticks: seq<nat>): seq<Step> {
    if ticks == [] then [] else Spins(p, ticks[..|ticks| - 1]) + [Tick(p, ticks[|ticks| - 1]), Requeue(p)]
  }

  function Sunk(priority: int, k: nat): int {
    if priority + k <= IDLE_Q - 1 then priority + k else IDLE_Q - 1
  }

  /** One used-up quantum. */
  lemma SpinOnce(sc: Sched, p: nat, ticks: nat)
    requires Sized(sc) && NR_TASKS <= p < |sc.quantum| && sc.prev == p
    requires ticks >= sc.quantum[p].ticksLeft
    ensures Sized(Ticked(sc, p, ticks))
    ensures var r := Requeued(Ticked(sc, p, ticks), p);
            && r.prev == p && r.quantum[p].ticksLeft == r.quantum[p].size == sc.quantum[p].size
            && r.quantum[p].priority == Sunk(sc.quantum[p].priority, 1)
  {
    var sc1 := Ticked(sc, p, ticks);
    forall x | 0 <= x < |sc1.quantum| ensures Ranked(x, sc1.quantum[x]) {
      assert Ranked(x, sc.quantum[x]);
    }
    DequeueMeans(sc1, p);
    EnqueueMeans(Dequeue(sc1, p), p);
  }

  lemma AfterTwo(s: State, steps: seq<Step>, a: Step, b: Step, m: State)
    requires After(s, steps) == Some(m) && Enabled(m, a) && Enabled(Apply(m, a), b)
    ensures After(s, steps + [a, b]) == Some(Apply(Apply(m, a), b))
  {
    var t := steps + [a, b];
    assert t[..|t| - 1] == steps + [a] && (steps + [a])[..|steps|] == steps;
  }

  /**
   A process that was the last to run out of time and uses up `k` more quanta in a row is `k`
   queues further down, or in the last queue before IDLE's.
   */
  lemma {:induction false} LoopingSinks(s: State, p: nat, ticks: seq<nat>)
    requires Inv(s) && NR_TASKS <= p < |s.proc| && s.proc[p].rts == RUNNABLE && s.sched.prev == p
    requires forall i :: 0 <= i < |ticks| ==>
      ticks[i] >= s.sched.quantum[p].ticksLeft && ticks[i] >= s.sched.quantum[p].size
    ensures After(s, Spins(p, ticks)).Some?
    ensures var s' := After(s, Spins(p, ticks)).value;
            && Inv(s') && s'.proc == s.proc && s'.sched.prev == p && s'.sched.quantum[p].size == s.sched.quantum[p].size
            && s'.sched.quantum[p].ticksLeft <= Greater(s.sched.quantum[p].ticksLeft, s.sched.quantum[p].size)
            && s'.sched.quantum[p].priority == Sunk(s.sched.quantum[p].priority, |ticks|)
    decreases ticks
  {
    if ticks != [] {
      var front, last := ticks[..|ticks| - 1], ticks[|ticks| - 1];
      LoopingSinks(s, p, front);
      var m := After(s, Spins(p, front)).value;
      SpinSteps(m, p, last);
      AfterTwo(s, Spins(p, front), Tick(p, last), Requeue(p), m);
    }
  }

  lemma SpinSteps(m: State, p: nat, ticks: nat)
    requires Inv(m) && NR_TASKS <= p < |m.proc| && m.proc[p].rts == RUNNABLE && m.sched.prev == p
    requires ticks >= m.sched.quantum[p].ticksLeft
    ensures Enabled(m, Tick(p, ticks)) && Enabled(Apply(m, Tick(p, ticks)), Requeue(p))
    ensures var s' := Apply(Apply(m, Tick(p, ticks)), Requeue(p));
            && Inv(s') && s'.proc == m.proc && s'.sched.prev == p
            && s'.sched.quantum[p].ticksLeft == s'.sched.quantum[p].size == m.sched.quantum[p].size
            && s'.sched.quantum[p].priority == Sunk(m.sched.quantum[p].priority, 1)
  {
    SpinOnce(m.sched, p, ticks);
    StepInv(m, Tick(p, ticks));
    StepInv(Apply(m, Tick(p, ticks)), Requeue(p));
  }

  function Greater(a: int, b: int): int { if a > b then a else b }

  // ---- HARDWARE never runs ---------------------------------------------------------------

  /** A process keeps its memory map, or the lack of one. */
  ghost predicate SameMap(s: State, s': State, p: nat)
    requires p < |s.proc| == |s'.proc|
  {
    s'.proc[p].rts.noMap == s.proc[p].rts.noMap
  }

  lemma SendMap(s: State, c: nat, d: nat, m: Msg, nonBlocking: bool, p: nat)
    requires Sane(s) && c < |s.proc| && d < |s.proc| && p < |s.proc| && s.proc[c].rts == RUNNABLE
    ensures SameMap(s, MiniSend(s, c, d, m, nonBlocking).0, p)
  {
  }

  lemma ReceiveMap(s: State, c: nat, src: Source, nonBlocking: bool, p: nat)
    requires Sane(s) && c < |s.proc| && p < |s.proc|
    ensures SameMap(s, MiniReceive(s, c, src, nonBlocking).0, p)
  {
  }

  lemma NotifyMap(s: State, src: nat, d: nat, p: nat)
    requires Sane(s) && src < |s.proc| && d < |s.proc| && p < |s.proc|
    ensures SameMap(s, MiniNotify(s, src, d), p)
  {
  }

  lemma SendRecMap(s: State, c: nat, d: nat, m: Msg, nonBlocking: bool, p: nat)
    requires Sane(s) && c < |s.proc| && d < |s.proc| && p < |s.proc| && s.proc[c].rts == RUNNABLE
    ensures SameMap(s, SendRec(s, c, d, m, nonBlocking).0, p)
  {
    var s0 := SetBusy(s, c, true);
    SendMap(s0, c, d, m, nonBlocking, p);
    ReceiveMap(MiniSend(s0, c, d, m, nonBlocking).0, c, Only(d), nonBlocking, p);
  }

  lemma CallMap(s: State, t: Trap, p: nat)
    requires Enabled(s, Call(t)) && p < |s.proc|
    ensures SameMap(s, SysCall(s, t).0, p)
  {
    var c := s.sched.current;
    DecodeNames(s, c, t);
    match Decode(s, c, t)
    case DoSend(d) => SendMap(s, c, d, t.body, t.nonBlocking, p);
    case DoSendRec(d) => SendRecMap(s, c, d, t.body, t.nonBlocking, p);
    case DoReceive(src) => ReceiveMap(SetBusy(s, c, false), c, src, t.nonBlocking, p);
    case DoNotify(d) => NotifyMap(s, c, d, p);
    case DoEcho =>
    case Refuse(_) =>
  }

  lemma SignalMap(s: State, q: nat, sig: nat, p: nat)
    requires Sane(s) && q < |s.proc| && p < |s.proc|
    ensures SameMap(s, SendSig(s, q, sig), p)
  {
  }

  lemma KillMap(s: State, q: nat, sig: nat, p: nat)
    requires Sane(s) && q < |s.proc| && p < |s.proc|
    ensures SameMap(s, CauseSig(s, q, sig), p)
  {
    if !s.proc[q].rts.signaled {
      SignalMap(Raise(s, q, sig), PM, SIGKSIG, p);
    }
  }

  lemma StepMap(s: State, st: Step, p: nat)
    requires Enabled(s, st) && p < |s.proc| && st != Exit(p)
    ensures SameMap(s, Apply(s, st), p)
  {
    match st
    case Call(t) => CallMap(s, t, p);
    case Reply(d, m) => SendMap(s, s.sched.current, d, m, true, p);
    case Note(c, d) => NotifyMap(s, c, d, p);
    case Irq(c, id) =>
    case Signal(c, sig) => SignalMap(s, c, sig, p);
    case Kill(c, sig) => KillMap(s, c, sig, p);
    case Fetch =>
    case Done(c) =>
    case Exit(c) => ExitOther(s, c, p);
    case Tick(c, ticks) =>
    case Requeue(c) =>
    case Switch(c) =>
    case Shutdown =>
  }

  /** The process without a memory map stays without one. */
  lemma {:induction false} NoMapStays(s: State, steps: seq<Step>, s': State, p: nat)
    requires After(s, steps) == Some(s') && p < |s.proc| == |s'.proc| && s.proc[p].rts.noMap
    requires Inv(s) && p < NR_TASKS
    ensures s'.proc[p].rts.noMap
    decreases steps
  {
    if steps != [] {
      var m := LastStep(s, steps, s');
      NoMapStays(s, steps[..|steps| - 1], m, p);
      StepMap(m, steps[|steps| - 1], p);
    }
  }

  /** The choice comes from a queue. */
  lemma {:induction false} ChosenIsQueued(ready: seq<seq<nat>>, q: nat, p: nat)
    requires q <= |ready| && forall i :: q <= i < |ready| ==> p !in ready[i]
    ensures Choice(ready, q) != p
    decreases |ready| - q
  {
    if q < |ready| && ready[q] == [] {
      ChosenIsQueued(ready, q + 1, p);
    }
  }

  lemma NeverReady(s: State, p: nat)
    requires Inv(s) && p < |s.proc| && s.proc[p].rts.noMap
    ensures |s.sched.ready| == NR_SCHED_QUEUES && s.sched.next != p
    ensures forall q :: 0 <= q < NR_SCHED_QUEUES ==> p !in s.sched.ready[q]
  {
    OffQueues(s, p);
    ChosenIsQueued(s.sched.ready, 0, p);
  }

  /** From boot on, whatever happens, HARDWARE is on no ready queue and never chosen to run. */
  lemma HardwareNeverReady(s: State, image: seq<nat>, steps: seq<Step>, s': State)
    requires PoweredOn(s) && NoDup(image) && IDLE in image && HARDWARE in image
    requires forall j :: 0 <= j < |image| ==> image[j] < |s.proc|
    requires After(Boot(s, image), steps) == Some(s')
    ensures |s'.sched.ready| == NR_SCHED_QUEUES && s'.sched.next != HARDWARE
    ensures forall q :: 0 <= q < NR_SCHED_QUEUES ==> HARDWARE !in s'.sched.ready[q]
  {
    BootInv(s, image);
    assert Boot(s, image).proc[HARDWARE].rts.noMap by { BootLoads(s, image); }
    AfterInv(Boot(s, image), steps, s');
    NoMapStays(Boot(s, image), steps, s', HARDWARE);
    NeverReady(s', HARDWARE);
  }
}
