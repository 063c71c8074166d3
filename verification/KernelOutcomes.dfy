/**
 What each kernel operation means for the processes involved, told from the flags, queues
 and pending sets they had before: when it delivers, when it blocks, when it refuses, and
 what it leaves alone.
 */
module KernelOutcomes {
  import opened Lists
  import opened Scheduling
  import opened Ipc
  import opened NoticeSearch
  import opened Invariants
  import opened KernelRuns
  import opened KernelTheorems

  /** A process whose flags went from `before` to `after` left or joined its ready queue. */
  ghost predicate Moved(sc: Sched, p: nat, before: Rts, after: Rts, sc': Sched) {
    if before == RUNNABLE && after != RUNNABLE then Dequeued(sc, p, sc')
    else if before != RUNNABLE && after == RUNNABLE then Enqueued(sc, p, sc')
    else sc' == sc
  }

  lemma ReflagMeans(s: State, p: nat, r: Rts)
    requires p < |s.proc| == |s.sched.quantum| && Sized(s.sched)
    ensures Moved(s.sched, p, s.proc[p].rts, r, Reflag(s, p, r).sched)
  {
    EnqueueMeans(s.sched, p);
    DequeueMeans(s.sched, p);
  }

  // ---- mini_send() --------------------------------------------------------------------

  /** The process is blocked in a receive that takes something from `x`. */
  predicate Wants(v: Proc, x: nat) {
    v.rts.receiving && !v.rts.sending && v.getFrom in {Any, Only(x)}
  }

  /** `d` got the message and is no longer RECEIVING; nobody else changed. */
  ghost predicate Handed(s: State, c: nat, d: nat, m: Msg, s': State)
    requires Sane(s) && Sane(s') && c < |s.proc| == |s'.proc| && d < |s.proc|
  {
    var v, h, g := s.proc[d], s.hist[c], s.hist[d];
    && s'.callers == s.callers && c != d
    && s'.proc == s.proc[d := v.(rts := v.rts.(receiving := false))]
    && Moved(s.sched, d, v.rts, v.rts.(receiving := false), s'.sched)
    && s'.hist == s.hist[c := h.(posted := h.posted + [(d, m)], arrived := h.arrived + [(d, m)])]
                        [d := g.(mail := g.mail + [Message(c, m)])]
  }

  /** `c` is SENDING, off its ready queue and at the end of `d`'s caller queue, with its message. */
  ghost predicate Waiting(s: State, c: nat, d: nat, m: Msg, s': State)
    requires Sane(s) && Sane(s') && c < |s.proc| == |s'.proc| && d < |s.proc|
  {
    var v, h := s.proc[c], s.hist[c];
    && s'.callers == s.callers[d := s.callers[d] + [c]]
    && s'.proc == s.proc[c := v.(rts := v.rts.(sending := true), sendTo := d, outbox := m)]
    && Dequeued(s.sched, c, s'.sched)
    && s'.hist == s.hist[c := h.(posted := h.posted + [(d, m)])]
  }

  /**
   A send that is not locked is handed over iff the destination wants it; otherwise the caller
   waits in the queue, unless it said not to block: then nothing at all happens.
   */
  ghost predicate SendOutcome(s: State, c: nat, d: nat, m: Msg, nonBlocking: bool, s': State, r: Result)
    requires Sane(s) && Sane(s') && c < |s.proc| == |s'.proc| && d < |s.proc|
  {
    && r in {OK, ELOCKED, ENOTREADY} && (r != OK ==> s' == s)
    && (nonBlocking ==> s'.callers == s.callers && s'.proc[c] == s.proc[c])
    && (nonBlocking && r != ELOCKED ==> (r == OK <==> Wants(s.proc[d], c)))
    && (!nonBlocking ==> r != ENOTREADY)
    && (r == OK && Wants(s.proc[d], c) ==> Handed(s, c, d, m, s'))
    && (r == OK && !Wants(s.proc[d], c) ==> Waiting(s, c, d, m, s'))
  }

  lemma HandOverMeans(s: State, c: nat, d: nat, m: Msg)
    requires Sane(s) && c < |s.proc| && d < |s.proc| && c != d
    ensures Handed(s, c, d, m, HandOver(s, c, d, m))
  {
    var s1 := Copy(Post(s, c, d, m), c, d, m);
    ReflagMeans(s1, d, s1.proc[d].rts.(receiving := false));
  }

  lemma BlockMeans(s: State, c: nat, d: nat, m: Msg)
    requires Sane(s) && c < |s.proc| && d < |s.proc| && s.proc[c].rts == RUNNABLE
    ensures Waiting(s, c, d, m, Block(s, c, d, m))
  {
    ReflagMeans(Post(s, c, d, m), c, s.proc[c].rts.(sending := true));
  }

  lemma SendMeans(s: State, c: nat, d: nat, m: Msg, nonBlocking: bool)
    requires Sane(s) && c < |s.proc| && d < |s.proc| && s.proc[c].rts == RUNNABLE
    ensures var (s', r) := MiniSend(s, c, d, m, nonBlocking); SendOutcome(s, c, d, m, nonBlocking, s', r)
  {
    var (s', r) := MiniSend(s, c, d, m, nonBlocking);
    if r == OK {
      if Wants(s.proc[d], c) {
        HandOverMeans(s, c, d, m);
      } else {
        BlockMeans(s, c, d, m);
      }
    }
  }

  // ---- mini_notify() ------------------------------------------------------------------

  /** What a notification from `origin` carries: pending interrupts, pending signals, or nothing. */
  function Carried(v: Proc, origin: Option<nat>): set<nat> {
    if origin == Some(HARDWARE) then v.ints else if origin == Some(SYSTEM) then v.sigs else {}
  }

  /** The slot after a notification took along what it carries. */
  function Emptied(v: Proc, origin: Option<nat>): Proc {
    v.(ints := if origin == Some(HARDWARE) then {} else v.ints, sigs := if origin == Some(SYSTEM) then {} else v.sigs)
  }

  /** `q` got the notification, with what was pending for it, and the rest of its slot became `v`. */
  ghost predicate Noticed(s: State, q: nat, origin: Option<nat>, v: Proc, s': State)
    requires Sane(s) && Sane(s') && q < |s.proc| == |s'.proc|
  {
    && s'.callers == s.callers && s'.proc == s.proc[q := Emptied(v, origin)]
    && s'.hist == s.hist[q := s'.hist[q]]
    && s'.hist[q].mail == s.hist[q].mail + [Notice(origin, Carried(s.proc[q], origin))]
    && s'.hist[q].posted == s.hist[q].posted && s'.hist[q].arrived == s.hist[q].arrived
  }

  /**
   A notification is delivered at once iff its destination wants it and is not in SENDREC; the
   receiver is then no longer RECEIVING.  Otherwise nothing but its pending bit changes.
   */
  ghost predicate NotifyOutcome(s: State, src: nat, d: nat, s': State)
    requires Sane(s) && Sane(s') && d < |s.proc| == |s'.proc|
  {
    var v := s.proc[d];
    if Wants(v, src) && !v.busy then
      && Noticed(s, d, Some(src), v.(rts := v.rts.(receiving := false)), s')
      && Moved(s.sched, d, v.rts, v.rts.(receiving := false), s'.sched)
    else
      s' == s.(proc := s.proc[d := v.(notified := v.notified + {src})])
  }

  lemma NotifyMeans(s: State, src: nat, d: nat)
    requires Sane(s) && src < |s.proc| && d < |s.proc|
    ensures NotifyOutcome(s, src, d, MiniNotify(s, src, d))
  {
    var s1 := Announce(s, d, Some(src));
    ReflagMeans(s1, d, s1.proc[d].rts.(receiving := false));
  }

  // ---- mini_receive() -----------------------------------------------------------------

  /** The pending notification that a receive takes: the lowest, or x's if none lower is in its chunk. */
  ghost predicate Due(s: State, c: nat, src: Source, id: nat)
    requires c < |s.proc|
  {
    var v := s.proc[c];
    && !v.rts.sending && !v.busy && id in v.notified && id < |s.proc|
    && match src
       case Any => forall i :: i in v.notified ==> id <= i
       case Only(x) => id == x && Visible(v.notified, x) && s.proc[x].owner == Some(x)
  }

  /** The queued caller that a receive takes: the longest waiting, or the one it names. */
  ghost predicate Next(s: State, c: nat, src: Source, x: nat)
    requires c < |s.proc| == |s.callers|
  {
    && !s.proc[c].rts.sending && x in s.callers[c]
    && match src case Any => s.callers[c][0] == x case Only(y) => x == y
  }

  /** `c` got the message `x` was SENDING; `x` left the queue and nobody else changed. */
  ghost predicate Fetched(s: State, c: nat, x: nat, s': State)
    requires Sane(s) && Sane(s') && c < |s.proc| == |s'.proc| && x < |s.proc|
  {
    var v, h, g := s.proc[x], s.hist[x], s.hist[c];
    && s'.callers == s.callers[c := Without(s.callers[c], x)] && x != c
    && s'.proc == s.proc[x := v.(rts := v.rts.(sending := false))]
    && Moved(s.sched, x, v.rts, v.rts.(sending := false), s'.sched)
    && s'.hist == s.hist[x := h.(arrived := h.arrived + [(c, v.outbox)])]
                        [c := g.(mail := g.mail + [Message(x, v.outbox)])]
  }

  /** `c` is RECEIVING from `src` and nobody else changed. */
  ghost predicate Listening(s: State, c: nat, src: Source, s': State)
    requires Sane(s) && Sane(s') && c < |s.proc| == |s'.proc|
  {
    var v := s.proc[c];
    && s'.callers == s.callers && s'.hist == s.hist
    && s'.proc == s.proc[c := v.(rts := v.rts.(receiving := true), getFrom := src)]
    && Moved(s.sched, c, v.rts, v.rts.(receiving := true), s'.sched)
  }

  /**
   A pending notification that fits is taken, whatever the caller queue holds; only without one
   a queued caller is served; only without either the process waits, unless it said not to.
   */
  ghost predicate ReceiveOutcome(s: State, c: nat, src: Source, nonBlocking: bool, s': State, r: Result)
    requires Sane(s) && Sane(s') && c < |s.proc| == |s'.proc|
  {
    && (forall id: nat :: Due(s, c, src, id) ==>
          && r == OK && s'.sched == s.sched
          && Noticed(s, c, s.proc[id].owner, s.proc[c].(notified := s.proc[c].notified - {id}), s'))
    && ((forall id: nat :: !Due(s, c, src, id)) ==>
          && (forall x: nat :: Next(s, c, src, x) ==> r == OK && x < |s.proc| && Fetched(s, c, x, s'))
          && ((forall x: nat :: !Next(s, c, src, x)) ==>
                if nonBlocking then r == ENOTREADY && s' == s else r == OK && Listening(s, c, src, s')))
  }

  /** The search through the pending bits finds what is due. */
  lemma SearchFinds(s: State, c: nat, src: Source)
    requires Protocol(s) && c < |s.proc| && (src.Only? ==> src.slot < |s.proc|)
    ensures forall id: nat :: Due(s, c, src, id) <==> FoundNotice(s, c, src) == Some(id)
  {
    var bits := s.proc[c].notified;
    assert OwnersOk(s);
    match src
    case Any => ScanAny(s, bits, 0);
    case Only(x) =>
      if s.proc[x].owner == Some(x) {
        ScanOnly(s, bits, x);
      } else {
        ScanSound(s, bits, src, 0);
      }
  }

  lemma CallerFound(s: State, c: nat, src: Source)
    requires Sane(s) && c < |s.proc|
    ensures forall x: nat :: Next(s, c, src, x) <==> FoundCaller(s, c, src) == Some(x)
  {
  }

  lemma TakeNoticeMeans(s: State, c: nat, id: nat)
    requires Sane(s) && c < |s.proc| && id < |s.proc|
    ensures Noticed(s, c, s.proc[id].owner, s.proc[c].(notified := s.proc[c].notified - {id}), TakeNotice(s, c, id))
    ensures TakeNotice(s, c, id).sched == s.sched
  {
  }

  lemma TakeMessageMeans(s: State, c: nat, x: nat)
    requires Sane(s) && c < |s.proc| && x < |s.proc| && x != c
    ensures Fetched(s, c, x, TakeMessage(s, c, x))
  {
    var s1 := Copy(s, x, c, s.proc[x].outbox);
    ReflagMeans(s1, x, s1.proc[x].rts.(sending := false));
  }

  lemma AwaitMeans(s: State, c: nat, src: Source)
    requires Sane(s) && c < |s.proc|
    ensures Listening(s, c, src, Await(s, c, src))
  {
    var s1 := SetProc(s, c, s.proc[c].(getFrom := src));
    ReflagMeans(s1, c, s1.proc[c].rts.(receiving := true));
  }

  lemma NoticeFirst(s: State, c: nat, src: Source, nonBlocking: bool, id: nat)
    requires Protocol(s) && c < |s.proc| && (src.Only? ==> src.slot < |s.proc|) && Due(s, c, src, id)
    ensures var (s', r) := MiniReceive(s, c, src, nonBlocking);
            && r == OK && s'.sched == s.sched && (forall i: nat :: Due(s, c, src, i) ==> i == id)
            && Noticed(s, c, s.proc[id].owner, s.proc[c].(notified := s.proc[c].notified - {id}), s')
  {
    SearchFinds(s, c, src);
    TakeNoticeMeans(s, c, id);
  }

  lemma CallerSecond(s: State, c: nat, src: Source, nonBlocking: bool, x: nat)
    requires Protocol(s) && c < |s.proc| && (src.Only? ==> src.slot < |s.proc|) && Next(s, c, src, x)
    requires forall id: nat :: !Due(s, c, src, id)
    ensures var (s', r) := MiniReceive(s, c, src, nonBlocking); r == OK && x < |s.proc| && Fetched(s, c, x, s')
  {
    SearchFinds(s, c, src);
    CallerFound(s, c, src);
    assert s.proc[x].rts.sending;
    TakeMessageMeans(s, c, x);
  }

  lemma WaitLast(s: State, c: nat, src: Source, nonBlocking: bool)
    requires Protocol(s) && c < |s.proc| && (src.Only? ==> src.slot < |s.proc|)
    requires (forall id: nat :: !Due(s, c, src, id)) && (forall x: nat :: !Next(s, c, src, x))
    ensures var (s', r) := MiniReceive(s, c, src, nonBlocking);
            if nonBlocking then r == ENOTREADY && s' == s else r == OK && Listening(s, c, src, s')
  {
    SearchFinds(s, c, src);
    CallerFound(s, c, src);
    AwaitMeans(s, c, src);
  }

  lemma ReceiveMeans(s: State, c: nat, src: Source, nonBlocking: bool)
    requires Protocol(s) && c < |s.proc| && (src.Only? ==> src.slot < |s.proc|)
    ensures var (s', r) := MiniReceive(s, c, src, nonBlocking); ReceiveOutcome(s, c, src, nonBlocking, s', r)
  {
    if id: nat :| Due(s, c, src, id) {
      NoticeFirst(s, c, src, nonBlocking, id);
    } else {
      forall x: nat | Next(s, c, src, x)
        ensures var (s', r) := MiniReceive(s, c, src, nonBlocking); r == OK && x < |s.proc| && Fetched(s, c, x, s')
      {
        CallerSecond(s, c, src, nonBlocking, x);
      }
      if forall x: nat :: !Next(s, c, src, x) {
        WaitLast(s, c, src, nonBlocking);
      }
    }
  }

  // ---- sys_call() ---------------------------------------------------------------------

  /** Which calls have a message buffer, and which name a destination. */
  lemma CheckBits()
    ensures forall fn :: fn in {SEND, RECEIVE, SENDREC, NOTIFY, ECHO} ==>
      (ChecksPtr(fn) <==> fn != NOTIFY) && (ChecksDst(fn) <==> fn != RECEIVE && fn != ECHO)
  {
  }

  /** The trap is not allowed to the caller, or is not one a kernel task answers. */
  predicate Untrapped(s: State, c: nat, t: Trap)
    requires c < |s.rights|
  {
    t.fn !in s.rights[c].traps || (t.srcDst < 0 && t.fn !in {SENDREC, RECEIVE})
  }

  /** It names neither a process nor ANY. */
  predicate Nobody(s: State, t: Trap) {
    !(0 <= t.srcDst + NR_TASKS < |s.proc|) && t.srcDst != ANY && t.fn != ECHO
  }

  /** Its destination is not among those the caller may send to. */
  predicate OutOfReach(s: State, c: nat, t: Trap)
    requires c < |s.rights|
  {
    ChecksDst(t.fn) && t.srcDst + NR_TASKS !in s.rights[c].ipcTo
  }

  /** Its destination has exited, and the system is not going down. */
  predicate DeadTarget(s: State, t: Trap) {
    && ChecksDst(t.fn) && !s.shutdown && 0 <= t.srcDst + NR_TASKS < |s.proc|
    && s.proc[t.srcDst + NR_TASKS].rts == SLOT_FREE
  }

  /** The error of the first check that a trap fails, or OK. */
  function Refusal(s: State, c: nat, t: Trap): Result
    requires c < |s.rights|
  {
    if Untrapped(s, c, t) then ECALLDENIED
    else if Nobody(s, t) then EBADSRCDST
    else if ChecksPtr(t.fn) && !t.ptrOk then EFAULT
    else if OutOfReach(s, c, t) then ECALLDENIED
    else if DeadTarget(s, t) then EDEADDST
    else if t.fn !in {SEND, RECEIVE, SENDREC, NOTIFY, ECHO} then EBADCALL
    else OK
  }

  /** What a trap that passes the checks asks for. */
  ghost predicate Requested(s: State, t: Trap, q: Request) {
    match q
    case DoSend(d) => t.fn == SEND && d == t.srcDst + NR_TASKS
    case DoSendRec(d) => t.fn == SENDREC && d == t.srcDst + NR_TASKS
    case DoReceive(src) =>
      t.fn == RECEIVE && if t.srcDst == ANY then src == Any else src.Only? && src.slot == t.srcDst + NR_TASKS
    case DoNotify(d) => t.fn == NOTIFY && d == t.srcDst + NR_TASKS
    case DoEcho => t.fn == ECHO
    case Refuse(_) => false
  }

  /** A trap is refused exactly for the first check it fails. */
  lemma DecodeMeans(s: State, t: Trap)
    requires Sane(s) && Enabled(s, Call(t))
    ensures var c, q := s.sched.current, Decode(s, s.sched.current, t);
            && (Refusal(s, c, t) != OK ==> q == Refuse(Refusal(s, c, t)))
            && (Refusal(s, c, t) == OK ==> Requested(s, t, q) && Names(s, q))
            && (q.DoReceive? && q.src.Only? ==> q.src.slot < |s.proc|)
  {
    CheckBits();
  }

  /**
   SENDREC: the caller is marked busy and sends.  If that went well it waits for the answer of
   the same process, or gives up at once if it may not block.
   */
  ghost predicate SendRecOutcome(s: State, c: nat, d: nat, m: Msg, nonBlocking: bool, s': State, r: Result)
    requires Sane(s) && Sane(s') && c < |s.proc| == |s'.proc| && d < |s.proc|
  {
    var s0 := s.(proc := s.proc[c := s.proc[c].(busy := true)]);
    var (s1, r1) := MiniSend(s0, c, d, m, nonBlocking);
    && SendOutcome(s0, c, d, m, nonBlocking, s1, r1)
    && (r1 != OK ==> r == r1 && s' == s0)
    && (r1 == OK && nonBlocking ==> r == ENOTREADY && s' == s1)
    && (r1 == OK && !nonBlocking ==> r == OK && Listening(s1, c, Only(d), s'))
  }

  lemma SendRecMeans(s: State, c: nat, d: nat, m: Msg, nonBlocking: bool)
    requires Protocol(s) && c < |s.proc| && d < |s.proc| && (c != d || nonBlocking) && s.proc[c].rts == RUNNABLE
    ensures var (s', r) := SendRec(s, c, d, m, nonBlocking); SendRecOutcome(s, c, d, m, nonBlocking, s', r)
  {
    var s0 := SetBusy(s, c, true);
    BusyProtocol(s, c, true);
    SendMeans(s0, c, d, m, nonBlocking);
    var (s1, r1) := MiniSend(s0, c, d, m, nonBlocking);
    if r1 == OK {
      SendRecAwaits(s0, c, d, m, nonBlocking);
      AwaitMeans(s1, c, Only(d));
    }
  }

  /** What the operations that a trap may ask for do. */
  ghost predicate PerformOutcome(s: State, c: nat, q: Request, m: Msg, nonBlocking: bool, s': State, r: Result)
    requires Sane(s) && Sane(s') && c < |s.proc| == |s'.proc| && Names(s, q)
  {
    match q
    case DoSend(d) => SendOutcome(s, c, d, m, nonBlocking, s', r)
    case DoSendRec(d) => SendRecOutcome(s, c, d, m, nonBlocking, s', r)
    case DoReceive(src) =>
      ReceiveOutcome(s.(proc := s.proc[c := s.proc[c].(busy := false)]), c, src, nonBlocking, s', r)
    case DoNotify(d) => r == OK && NotifyOutcome(s, c, d, s')
    case DoEcho => r == OK && s' == s
    case Refuse(error) => r == error && s' == s
  }

  lemma PerformMeans(s: State, c: nat, q: Request, m: Msg, nonBlocking: bool)
    requires Protocol(s) && c < |s.proc| && Names(s, q) && s.proc[c].rts == RUNNABLE
    requires q.DoSend? || q.DoSendRec? ==> q.dest != c || nonBlocking
    requires q.DoReceive? && q.src.Only? ==> q.src.slot < |s.proc|
    ensures var (s', r) := Perform(s, c, q, m, nonBlocking); PerformOutcome(s, c, q, m, nonBlocking, s', r)
  {
    match q
    case DoSend(d) => SendMeans(s, c, d, m, nonBlocking);
    case DoSendRec(d) => SendRecMeans(s, c, d, m, nonBlocking);
    case DoReceive(src) =>
      BusyProtocol(s, c, false);
      ReceiveMeans(SetBusy(s, c, false), c, src, nonBlocking);
    case DoNotify(d) => NotifyMeans(s, c, d);
    case DoEcho =>
    case Refuse(error) =>
  }

  /**
   A system call that fails a check returns that check's error and changes nothing; any other
   does what it asks for.
   */
  ghost predicate CallOutcome(s: State, t: Trap, s': State, r: Result)
    requires Sane(s) && Sane(s') && |s'.proc| == |s.proc| && 0 <= s.sched.current < |s.proc|
  {
    var c := s.sched.current;
    && (Refusal(s, c, t) != OK ==> r == Refusal(s, c, t) && s' == s)
    && (Refusal(s, c, t) == OK ==>
          exists q: Request :: Names(s, q) && Requested(s, t, q) &&
            PerformOutcome(s, c, q, t.body, t.nonBlocking, s', r))
  }

  lemma CallMeans(s: State, t: Trap)
    requires Inv(s) && Enabled(s, Call(t))
    ensures var (s', r) := SysCall(s, t); CallOutcome(s, t, s', r)
  {
    Decoded(s, t);
    DecodeMeans(s, t);
    PerformMeans(s, s.sched.current, Decode(s, s.sched.current, t), t.body, t.nonBlocking);
  }

  /** These errors come from the checks alone. */
  lemma ErrorsMean(s: State, t: Trap)
    requires Inv(s) && Enabled(s, Call(t))
    ensures var r, c := SysCall(s, t).1, s.sched.current;
            r in {ECALLDENIED, EBADSRCDST, EFAULT, EDEADDST, EBADCALL} <==> Refusal(s, c, t) != OK
  {
    Decoded(s, t);
    DecodeMeans(s, t);
    PerformResult(s, s.sched.current, Decode(s, s.sched.current, t), t.body, t.nonBlocking);
  }

  lemma PerformResult(s: State, c: nat, q: Request, m: Msg, nonBlocking: bool)
    requires Sane(s) && c < |s.proc| && Names(s, q)
    ensures q.Refuse? || Perform(s, c, q, m, nonBlocking).1 in {OK, ELOCKED, ENOTREADY}
  {
  }

  // ---- Interrupts, signals and exit --------------------------------------------------------

  /** Pending interrupts or signals became `args`, and `p` is told of them now or later. */
  ghost predicate Alerted(s: State, p: nat, origin: nat, ints: set<nat>, sigs: set<nat>, s': State)
    requires Sane(s) && Sane(s') && p < |s.proc| == |s'.proc|
  {
    var v, v' := s.proc[p].(ints := ints, sigs := sigs), s'.proc[p];
    var arg := if origin == HARDWARE then ints else sigs;
    && s'.callers == s.callers && s'.proc == s.proc[p := v'] && s'.hist == s.hist[p := s'.hist[p]]
    && if Wants(v, origin) && !v.busy then
         && s'.hist[p].mail == s.hist[p].mail + [Notice(Some(origin), arg)]
         && v' == Emptied(v, Some(origin)).(rts := v.rts.(receiving := false))
       else
         && s'.hist[p].mail == s.hist[p].mail
         && v' == v.(notified := v.notified + {origin})
  }

  /** An interrupt is told of in a HARDWARE notification, with all that came before it. */
  lemma InterruptMeans(s: State, p: nat, id: nat)
    requires Sane(s) && p < |s.proc|
    ensures Alerted(s, p, HARDWARE, s.proc[p].ints + {id}, s.proc[p].sigs, Interrupt(s, p, id))
  {
    var s1 := SetProc(s, p, s.proc[p].(ints := s.proc[p].ints + {id}));
    var s2 := SetHist(s1, p, s1.hist[p].(irqs := s1.hist[p].irqs + [Sent(id)]));
    NotifyMeans(s2, HARDWARE, p);
  }

  /** A signal to a system process is told of in a SYSTEM notification, with all that came before it. */
  lemma SendSigMeans(s: State, p: nat, sig: nat)
    requires Sane(s) && p < |s.proc|
    ensures Alerted(s, p, SYSTEM, s.proc[p].ints, s.proc[p].sigs + {sig}, SendSig(s, p, sig))
    ensures SendSig(s, p, sig).hist[p].raised == s.hist[p].raised
  {
    var s1 := SetProc(s, p, s.proc[p].(sigs := s.proc[p].sigs + {sig}));
    var s2 := SetHist(s1, p, s1.hist[p].(signals := s1.hist[p].signals + [Sent(sig)]));
    NotifyMeans(s2, SYSTEM, p);
  }

  /** The process has one more signal for PM and is held back. */
  ghost predicate Raised(s: State, p: nat, sig: nat, s': State)
    requires Sane(s) && Sane(s') && p < |s.proc| == |s'.proc|
  {
    && s'.proc[p].pending == s.proc[p].pending + {sig}
    && s'.proc[p].rts.signaled && s'.proc[p].rts.sigPending
    && s'.hist[p].raised == s.hist[p].raised + multiset{sig}
  }

  /** PM was told of SIGKSIG: in the notice it was waiting for, or with its bit pending. */
  ghost predicate PmTold(s: State, s': State)
    requires Sane(s) && Sane(s') && |s.proc| == |s'.proc|
  {
    var v, v' := s.proc[PM], s'.proc[PM];
    if Wants(v, SYSTEM) && !v.busy then
      s'.hist[PM].mail == s.hist[PM].mail + [Notice(Some(SYSTEM), v.sigs + {SIGKSIG})] && v'.sigs == {}
    else
      s'.hist[PM].mail == s.hist[PM].mail && v'.sigs == v.sigs + {SIGKSIG} && v'.notified == v.notified + {SYSTEM}
  }

  /** A repeated signal is dropped; the first of several is reported to PM, the others are added to it. */
  ghost predicate CauseSigOutcome(s: State, p: nat, sig: nat, s': State)
    requires Sane(s) && Sane(s') && p < |s.proc| == |s'.proc|
  {
    var v, h := s.proc[p], s.hist[p];
    if sig in v.pending then s' == s
    else if v.rts.signaled then
      s' == s.(proc := s.proc[p := v.(pending := v.pending + {sig})],
               hist := s.hist[p := h.(raised := h.raised + multiset{sig})])
    else Raised(s, p, sig, s') && PmTold(s, s')
  }

  lemma CauseSigMeans(s: State, p: nat, sig: nat)
    requires Sane(s) && p < |s.proc|
    ensures CauseSigOutcome(s, p, sig, CauseSig(s, p, sig))
  {
    if sig !in s.proc[p].pending && !s.proc[p].rts.signaled {
      RaiseMeans(s, p, sig);
      SendSigMeans(Raise(s, p, sig), PM, SIGKSIG);
    }
  }

  lemma RaiseMeans(s: State, p: nat, sig: nat)
    requires Sane(s) && p < |s.proc|
    ensures var s', v, h := Raise(s, p, sig), s.proc[p], s.hist[p];
            && s'.proc == s.proc[p := v.(pending := v.pending + {sig},
                                         rts := v.rts.(signaled := true, sigPending := true))]
            && s'.hist == s.hist[p := h.(raised := h.raised + multiset{sig})]
  {
  }

  /**
   PM is told of the first user process that is SIGNALED, with exactly the signals pending for
   it, which are then no longer pending; and of none exactly when there is none.
   */
  ghost predicate GetKsigOutcome(s: State, s': State, r: Option<(nat, set<nat>)>)
    requires Sane(s)
  {
    match r
    case None => s' == s && forall p :: NR_TASKS <= p < |s.proc| ==> !s.proc[p].rts.signaled
    case Some(a) =>
      && NR_TASKS <= a.0 < |s.proc| && s.proc[a.0].rts.signaled && a.1 == s.proc[a.0].pending
      && (forall p :: NR_TASKS <= p < a.0 ==> !s.proc[p].rts.signaled)
      && var v, h := s.proc[a.0], s.hist[a.0];
         s' == s.(proc := s.proc[a.0 := v.(pending := {}, rts := v.rts.(signaled := false))],
                  hist := s.hist[a.0 := h.(reported := h.reported + multiset(a.1))])
  }

  lemma GetKsigMeans(s: State)
    requires Sane(s)
    ensures var (s', r) := GetKsig(s); GetKsigOutcome(s, s', r)
  {
    FirstSignaledIs(s, NR_TASKS);
  }

  /**
   PM is done with a process: it was wrong about that, or newer signals keep the process back,
   or it is released, onto its ready queue if no other flag is left.
   */
  ghost predicate EndKsigOutcome(s: State, p: nat, s': State, r: Result)
    requires Sane(s) && Sane(s') && p < |s.proc| == |s'.proc|
  {
    var v := s.proc[p];
    var free := v.rts.(sigPending := false);
    && (r == EINVAL <==> !v.rts.sigPending) && (r != EINVAL ==> r == OK)
    && (!v.rts.sigPending || v.rts.signaled ==> s' == s)
    && (v.rts.sigPending && !v.rts.signaled ==>
          s'.proc == s.proc[p := v.(rts := free)] && s' == s.(proc := s'.proc, sched := s'.sched) &&
          if free == RUNNABLE then Enqueued(s.sched, p, s'.sched) else s'.sched == s.sched)
  }

  lemma EndKsigMeans(s: State, p: nat)
    requires Sane(s) && p < |s.proc|
    ensures var (s', r) := EndKsig(s, p); EndKsigOutcome(s, p, s', r)
  {
    ReflagMeans(s, p, s.proc[p].rts.(sigPending := false));
  }

  /** An exiting process frees its slot and leaves all else but the queues it was on. */
  lemma ExitMeans(s: State, p: nat)
    requires Sane(s) && p < |s.proc|
    ensures var s', v := ClearProc(s, p), s.proc[p];
            && s'.proc == s.proc[p := v.(rts := SLOT_FREE, owner := if s.rights[p].sysProc then None else v.owner)]
            && Moved(s.sched, p, v.rts, SLOT_FREE, s'.sched)
            && (s'.callers != s.callers ==> v.rts.sending)
            && (forall q :: 0 <= q < |s.proc| ==>
                  s'.hist[q].mail == s.hist[q].mail && s'.hist[q].posted == s.hist[q].posted)
  {
    ReflagMeans(Withdrawn(s, p), p, SLOT_FREE);
  }
}
