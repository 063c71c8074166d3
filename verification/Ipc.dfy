/**
 The rendezvous half of the MINIX process table (kernel/proc.c) as a state machine:
 every system call, notification, signal and exit is one atomic step on `State`.

 The functions below follow the C code branch by branch; the caller queues and the
 ready queues appear as sequences.  Class Kernel (Kernel.dfy) does the same with
 linked lists in place and is proved to compute these functions.
 */
module Ipc {
  import opened Lists
  import opened Scheduling

  type Msg(==, !new)      // the contents of a message; opaque to the kernel

  datatype Option<T> = None | Some(value: T)

  /** Whom a process is willing to receive from: ANY or one slot. */
  datatype Source = Any | Only(slot: nat)

  /** p_rts_flags, bit by bit. */
  datatype Rts = Rts(
    slotFree: bool, noMap: bool, sending: bool, receiving: bool,
    signaled: bool, sigPending: bool, stopped: bool, noPriv: bool)

  const RUNNABLE := Rts(false, false, false, false, false, false, false, false)
  const SLOT_FREE := RUNNABLE.(slotFree := true)

  /** What a receiver's message buffer is filled with. */
  datatype Mail =
    | Message(from: nat, body: Msg)
    | Notice(origin: Option<nat>, arg: set<nat>)

  /**
   One slot: p_rts_flags, p_sendto, p_getfrom, the message waiting in p_messbuf while
   SENDING, p_pending, and from the slot's privilege structure SENDREC_BUSY,
   s_notify_pending, s_int_pending, s_sig_pending and s_proc_nr.
   */
  datatype Proc = Proc(
    rts: Rts, sendTo: nat, getFrom: Source, outbox: Msg, pending: set<nat>,
    busy: bool, notified: set<nat>, ints: set<nat>, sigs: set<nat>, owner: Option<nat>)

  /** s_trap_mask, s_ipc_to and SYS_PROC: fixed while the modelled steps run. */
  datatype Rights = Rights(traps: set<int>, ipcTo: set<int>, sysProc: bool)

  /** Something with a number happened, or a notification told of what had happened. */
  datatype SigEvent = Sent(sig: nat) | Told(sigs: set<nat>)

  /**
   What happened to a slot so far.  `posted` are the messages mini_send accepted from
   it, `arrived` those of them that were copied out, `aborted` one it was blocked on
   when it exited; `mail` is everything copied to it.  `signals` interleaves send_sig
   calls with SYSTEM notifications, `irqs` interrupts with HARDWARE notifications;
   `raised` and `reported` count kernel signals.
   */
  datatype History = History(
    posted: seq<(nat, Msg)>, arrived: seq<(nat, Msg)>, aborted: seq<(nat, Msg)>,
    mail: seq<Mail>, signals: seq<SigEvent>, irqs: seq<SigEvent>,
    raised: multiset<nat>, reported: multiset<nat>)

  datatype State = State(
    proc: seq<Proc>, callers: seq<seq<nat>>, sched: Sched,
    rights: seq<Rights>, shutdown: bool, hist: seq<History>)

  datatype Result =
    | OK | ELOCKED | ENOTREADY | ECALLDENIED | EBADSRCDST | EFAULT | EDEADDST | EBADCALL | EINVAL

  ghost predicate Sane(s: State) {
    && PM < |s.proc| == |s.callers| == |s.rights| == |s.hist| == |s.sched.quantum|
    && Sized(s.sched)
    && (forall p :: 0 <= p < |s.proc| ==> s.proc[p].sendTo < |s.proc|)
    && (forall p, x :: 0 <= p < |s.proc| && x in s.proc[p].notified ==> x < |s.proc|)
    && (forall p, x :: 0 <= p < |s.proc| && x in s.callers[p] ==> x < |s.proc|)
  }

  // ---- Updates of one slot ---------------------------------------------------

  function SetProc(s: State, p: nat, v: Proc): State
    requires p < |s.proc|
  {
    s.(proc := s.proc[p := v])
  }

  function SetHist(s: State, p: nat, h: History): State
    requires p < |s.hist|
  {
    s.(hist := s.hist[p := h])
  }

  /**
   Give `p` the flags `r`, taking it off or putting it on its ready queue when that
   makes it unrunnable or runnable: the pattern around every flag update in the kernel.
   */
  function Reflag(s: State, p: nat, r: Rts): (s': State)
    requires p < |s.proc| == |s.sched.quantum| && Sized(s.sched)
    ensures Sized(s'.sched) && |s'.sched.quantum| == |s.proc| && s'.sched.current == s.sched.current
    ensures s' == s.(proc := s.proc[p := s.proc[p].(rts := r)], sched := s'.sched)
  {
    var before := s.proc[p].rts;
    var s1 := SetProc(s, p, s.proc[p].(rts := r));
    if before == RUNNABLE && r != RUNNABLE then s1.(sched := Dequeue(s.sched, p))
    else if before != RUNNABLE && r == RUNNABLE then s1.(sched := Enqueue(s.sched, p))
    else s1
  }

  // ---- mini_send ---------------------------------------------------------------

  /** `q` is blocked receiving, not also sending, and would take something from `x`. */
  predicate Accepts(s: State, q: nat, x: nat)
    requires q < |s.proc|
  {
    && s.proc[q].rts.receiving && !s.proc[q].rts.sending
    && (s.proc[q].getFrom == Any || s.proc[q].getFrom == Only(x))
  }

  /** Where `k` hops along p_sendto lead from `x`, each hop leaving a SENDING process. */
  function Hop(s: State, x: nat, k: nat): Option<nat>
    requires x < |s.proc| && forall p :: 0 <= p < |s.proc| ==> s.proc[p].sendTo < |s.proc|
    decreases k
  {
    if k == 0 then Some(x)
    else if s.proc[x].rts.sending then Hop(s, s.proc[x].sendTo, k - 1)
    else None
  }

  /** The destination waits, over one or more senders, for the caller itself. */
  ghost predicate Deadlock(s: State, c: nat, d: nat)
    requires Sane(s) && d < |s.proc|
  {
    exists k :: k > 0 && Hop(s, d, k) == Some(c)
  }

  /** `x`'s message reaches `q`. */
  function Copy(s: State, x: nat, q: nat, m: Msg): State
    requires x < |s.hist| && q < |s.hist|
  {
    var s1 := SetHist(s, x, s.hist[x].(arrived := s.hist[x].arrived + [(q, m)]));
    SetHist(s1, q, s1.hist[q].(mail := s1.hist[q].mail + [Message(x, m)]))
  }

  function Post(s: State, c: nat, d: nat, m: Msg): State
    requires c < |s.hist|
  {
    SetHist(s, c, s.hist[c].(posted := s.hist[c].posted + [(d, m)]))
  }

  /** The destination is waiting: copy the message and unblock it. */
  function HandOver(s: State, c: nat, d: nat, m: Msg): (s': State)
    requires Sane(s) && c < |s.proc| && d < |s.proc|
    ensures Sane(s') && |s'.proc| == |s.proc| && s'.sched.current == s.sched.current && s'.rights == s.rights
  {
    var s1 := Copy(Post(s, c, d, m), c, d, m);
    Reflag(s1, d, s1.proc[d].rts.(receiving := false))
  }

  /** The destination is not waiting: block the caller at the end of its queue. */
  function Block(s: State, c: nat, d: nat, m: Msg): (s': State)
    requires Sane(s) && c < |s.proc| && d < |s.proc|
    ensures Sane(s') && |s'.proc| == |s.proc| && s'.sched.current == s.sched.current && s'.rights == s.rights
    ensures s'.proc == s.proc[c := s'.proc[c]] && s'.hist == s.hist[c := s'.hist[c]]
  {
    var s1 := Post(s, c, d, m);
    var s2 := Reflag(s1, c, s1.proc[c].rts.(sending := true));
    var s3 := SetProc(s2, c, s2.proc[c].(sendTo := d, outbox := m));
    s3.(callers := s3.callers[d := s3.callers[d] + [c]])
  }

  ghost function MiniSend(s: State, c: nat, d: nat, m: Msg, nonBlocking: bool): (r: (State, Result))
    requires Sane(s) && c < |s.proc| && d < |s.proc|
    ensures Sane(r.0) && |r.0.proc| == |s.proc| && r.0.sched.current == s.sched.current && r.0.rights == s.rights
  {
    if Deadlock(s, c, d) then (s, ELOCKED)
    else if Accepts(s, d, c) then (HandOver(s, c, d, m), OK)
    else if !nonBlocking then (Block(s, c, d, m), OK)
    else (s, ENOTREADY)
  }

  // ---- Notifications -----------------------------------------------------------

  const CHUNK: nat := 16      // BITCHUNK_BITS

  /** The lowest id in `bits` that is at least `lo` and below `hi`. */
  function Lowest(bits: set<nat>, lo: nat, hi: nat): Option<nat>
    decreases hi - lo
  {
    if lo >= hi then None
    else if lo in bits then Some(lo)
    else Lowest(bits, lo + 1, hi)
  }

  function Owner(s: State, id: nat): Option<nat> {
    if id < |s.proc| then s.proc[id].owner else None
  }

  /**
   mini_receive()'s search of s_notify_pending, chunk by chunk from `lo`: only the
   lowest bit of a chunk is looked at, and one that does not fit ends that chunk.
   */
  function Scan(s: State, bits: set<nat>, src: Source, lo: nat): Option<nat>
    decreases |s.proc| - lo
  {
    if lo >= |s.proc| then None
    else
      match Lowest(bits, lo, lo + CHUNK)
      case None => Scan(s, bits, src, lo + CHUNK)
      case Some(id) =>
        if id >= |s.proc| then None
        else if src == Any || (Owner(s, id).Some? && src == Only(Owner(s, id).value)) then Some(id)
        else Scan(s, bits, src, lo + CHUNK)
  }

  /** BuildMess and CopyMess: the notification reaches `q`, with what it carries. */
  function Announce(s: State, q: nat, origin: Option<nat>): (s': State)
    requires q < |s.proc| == |s.hist|
    ensures |s'.proc| == |s'.hist| == |s.proc|
    ensures s' == s.(proc := s.proc[q := s'.proc[q]], hist := s.hist[q := s'.hist[q]])
    ensures s'.proc[q] == s.proc[q].(ints := s'.proc[q].ints, sigs := s'.proc[q].sigs)
    ensures Sane(s) ==> Sane(s')
  {
    var p, h := s.proc[q], s.hist[q];
    if origin == Some(HARDWARE) then
      SetHist(SetProc(s, q, p.(ints := {})), q,
              h.(mail := h.mail + [Notice(origin, p.ints)], irqs := h.irqs + [Told(p.ints)]))
    else if origin == Some(SYSTEM) then
      SetHist(SetProc(s, q, p.(sigs := {})), q,
              h.(mail := h.mail + [Notice(origin, p.sigs)], signals := h.signals + [Told(p.sigs)]))
    else
      SetHist(s, q, h.(mail := h.mail + [Notice(origin, {})]))
  }

  function MiniNotify(s: State, src: nat, d: nat): (s': State)
    requires Sane(s) && src < |s.proc| && d < |s.proc|
    ensures Sane(s') && |s'.proc| == |s.proc| && s'.sched.current == s.sched.current && s'.rights == s.rights
    ensures s'.callers == s.callers && s'.proc == s.proc[d := s'.proc[d]] && s'.hist == s.hist[d := s'.hist[d]]
  {
    if Accepts(s, d, src) && !s.proc[d].busy then
      var s1 := Announce(s, d, Some(src));
      Reflag(s1, d, s1.proc[d].rts.(receiving := false))
    else
      SetProc(s, d, s.proc[d].(notified := s.proc[d].notified + {src}))
  }

  // ---- mini_receive --------------------------------------------------------------

  /** The longest-waiting caller that fits. */
  function FirstCaller(line: seq<nat>, src: Source): (r: Option<nat>)
    ensures r.Some? ==> r.value in line
  {
    match src
    case Any => if line == [] then None else Some(line[0])
    case Only(x) => if x in line then Some(x) else None
  }

  /** Take a pending notification. */
  function TakeNotice(s: State, c: nat, id: nat): (s': State)
    requires c < |s.proc| == |s.hist|
    ensures Sane(s) ==> Sane(s') && |s'.proc| == |s.proc| && s'.sched.current == s.sched.current
    ensures s'.rights == s.rights
  {
    Announce(SetProc(s, c, s.proc[c].(notified := s.proc[c].notified - {id})), c, Owner(s, id))
  }

  /** Take the message of the queued caller `x` and unblock it. */
  function TakeMessage(s: State, c: nat, x: nat): (s': State)
    requires Sane(s) && c < |s.proc| && x < |s.proc|
    ensures Sane(s') && |s'.proc| == |s.proc| && s'.sched.current == s.sched.current && s'.rights == s.rights
  {
    var s1 := Copy(s, x, c, s.proc[x].outbox);
    var s2 := Reflag(s1, x, s1.proc[x].rts.(sending := false));
    s2.(callers := s2.callers[c := Without(s2.callers[c], x)])
  }

  /** Nothing fits: wait for it. */
  function Await(s: State, c: nat, src: Source): (s': State)
    requires Sane(s) && c < |s.proc|
    ensures Sane(s') && |s'.proc| == |s.proc| && s'.sched.current == s.sched.current && s'.rights == s.rights
    ensures s'.proc == s.proc[c := s'.proc[c]] && s'.hist == s.hist && s'.callers == s.callers
  {
    var s1 := SetProc(s, c, s.proc[c].(getFrom := src));
    Reflag(s1, c, s1.proc[c].rts.(receiving := true))
  }

  function FoundNotice(s: State, c: nat, src: Source): Option<nat>
    requires c < |s.proc|
  {
    if s.proc[c].rts.sending || s.proc[c].busy then None else Scan(s, s.proc[c].notified, src, 0)
  }

  function FoundCaller(s: State, c: nat, src: Source): Option<nat>
    requires c < |s.proc| == |s.callers|
  {
    if s.proc[c].rts.sending then None else FirstCaller(s.callers[c], src)
  }

  function MiniReceive(s: State, c: nat, src: Source, nonBlocking: bool): (r: (State, Result))
    requires Sane(s) && c < |s.proc|
    ensures Sane(r.0) && |r.0.proc| == |s.proc| && r.0.sched.current == s.sched.current && r.0.rights == s.rights
  {
    match FoundNotice(s, c, src)
    case Some(id) => (TakeNotice(s, c, id), OK)
    case None =>
      match FoundCaller(s, c, src)
      case Some(x) => (TakeMessage(s, c, x), OK)
      case None => if nonBlocking then (s, ENOTREADY) else (Await(s, c, src), OK)
  }

  // ---- sys_call ------------------------------------------------------------------

  const SEND := 1
  const RECEIVE := 2
  const SENDREC := 3
  const NOTIFY := 4
  const ECHO := 8
  const ANY: int := 0x7ace

  predicate Bit(n: nat, weight: nat)
    requires weight > 0
  {
    n / weight % 2 == 1
  }

  /** function & CHECK_PTR, function & CHECK_DST */
  predicate ChecksPtr(fn: nat) { Bit(fn, 1) || Bit(fn, 2) || Bit(fn, 8) }
  predicate ChecksDst(fn: nat) { Bit(fn, 1) || Bit(fn, 4) }

  /** isokprocn() on a process number, and the slot it names. */
  predicate IsSlot(s: State, nr: int) { 0 <= nr + NR_TASKS < |s.proc| }

  /** What a trap asks for; `ptrOk` says that the buffer lies in the caller's memory. */
  datatype Trap = Trap(fn: nat, srcDst: int, nonBlocking: bool, ptrOk: bool, body: Msg)

  /** What a trap turns out to be once sys_call() has checked it. */
  datatype Request =
    | DoSend(dest: nat) | DoSendRec(dest: nat) | DoReceive(src: Source) | DoNotify(dest: nat)
    | DoEcho | Refuse(error: Result)

  /** The checks of sys_call() in their order, and its dispatch on the function number. */
  function Decode(s: State, c: nat, t: Trap): Request
    requires c < |s.proc| == |s.rights|
    requires ChecksDst(t.fn) && t.srcDst == ANY ==> IsSlot(s, ANY)
  {
    if t.fn !in s.rights[c].traps || (t.srcDst < 0 && t.fn != SENDREC && t.fn != RECEIVE) then Refuse(ECALLDENIED)
    else if !(IsSlot(s, t.srcDst) || t.srcDst == ANY || t.fn == ECHO) then Refuse(EBADSRCDST)
    else if ChecksPtr(t.fn) && !t.ptrOk then Refuse(EFAULT)
    else if ChecksDst(t.fn) && t.srcDst + NR_TASKS !in s.rights[c].ipcTo then Refuse(ECALLDENIED)
    else if ChecksDst(t.fn) && s.proc[t.srcDst + NR_TASKS].rts == SLOT_FREE && !s.shutdown then Refuse(EDEADDST)
    else if t.fn == SEND then DoSend(t.srcDst + NR_TASKS)
    else if t.fn == SENDREC then DoSendRec(t.srcDst + NR_TASKS)
    else if t.fn == RECEIVE then DoReceive(if t.srcDst == ANY then Any else Only(t.srcDst + NR_TASKS))
    else if t.fn == NOTIFY then DoNotify(t.srcDst + NR_TASKS)
    else if t.fn == ECHO then DoEcho
    else Refuse(EBADCALL)
  }

  /** A request for a process names one. */
  predicate Names(s: State, q: Request) {
    && (q.DoSend? || q.DoSendRec? || q.DoNotify? ==> q.dest < |s.proc|)
    && (q.Refuse? ==> q.error != OK)
  }

  lemma DecodeNames(s: State, c: nat, t: Trap)
    requires c < |s.proc| == |s.rights|
    requires ChecksDst(t.fn) && t.srcDst == ANY ==> IsSlot(s, ANY)
    ensures Names(s, Decode(s, c, t))
  {
  }

  function SetBusy(s: State, c: nat, b: bool): State
    requires c < |s.proc|
  {
    SetProc(s, c, s.proc[c].(busy := b))
  }

  ghost function Perform(s: State, c: nat, q: Request, m: Msg, nonBlocking: bool): (r: (State, Result))
    requires Sane(s) && c < |s.proc| && Names(s, q)
    ensures Sane(r.0) && |r.0.proc| == |s.proc| && r.0.sched.current == s.sched.current && r.0.rights == s.rights
  {
    match q
    case DoSend(d) => MiniSend(s, c, d, m, nonBlocking)
    case DoSendRec(d) => SendRec(s, c, d, m, nonBlocking)
    case DoReceive(src) => MiniReceive(SetBusy(s, c, false), c, src, nonBlocking)
    case DoNotify(d) => (MiniNotify(s, c, d), OK)
    case DoEcho => (s, OK)
    case Refuse(error) => (s, error)
  }

  /**
   sys_call() by the running process.  A destination must be a process, never ANY:
   the C code would index the process table with it.
   */
  ghost function SysCall(s: State, t: Trap): (r: (State, Result))
    requires Sane(s) && 0 <= s.sched.current < |s.proc|
    requires ChecksDst(t.fn) && t.srcDst == ANY ==> IsSlot(s, ANY)
    ensures Sane(r.0) && |r.0.proc| == |s.proc| && r.0.sched.current == s.sched.current && r.0.rights == s.rights
  {
    DecodeNames(s, s.sched.current, t);
    Perform(s, s.sched.current, Decode(s, s.sched.current, t), t.body, t.nonBlocking)
  }

  ghost function SendRec(s: State, c: nat, d: nat, m: Msg, nonBlocking: bool): (r: (State, Result))
    requires Sane(s) && c < |s.proc| && d < |s.proc|
    ensures Sane(r.0) && |r.0.proc| == |s.proc| && r.0.sched.current == s.sched.current && r.0.rights == s.rights
  {
    var (s1, result) := MiniSend(SetBusy(s, c, true), c, d, m, nonBlocking);
    if result != OK then (s1, result)
    else MiniReceive(s1, c, Only(d), nonBlocking)
  }

  // ---- Interrupts, signals and exit ------------------------------------------------

  const SIGKSIG: nat := 19

  /** generic_handler() (system/do_irqctl.c) */
  function Interrupt(s: State, p: nat, id: nat): (s': State)
    requires Sane(s) && p < |s.proc|
    ensures Sane(s') && |s'.proc| == |s.proc| && s'.sched.current == s.sched.current && s'.rights == s.rights
    ensures s'.callers == s.callers && s'.proc == s.proc[p := s'.proc[p]] && s'.hist == s.hist[p := s'.hist[p]]
  {
    var s1 := SetProc(s, p, s.proc[p].(ints := s.proc[p].ints + {id}));
    var s2 := SetHist(s1, p, s1.hist[p].(irqs := s1.hist[p].irqs + [Sent(id)]));
    MiniNotify(s2, HARDWARE, p)
  }

  /** send_sig() */
  function SendSig(s: State, p: nat, sig: nat): (s': State)
    requires Sane(s) && p < |s.proc|
    ensures Sane(s') && |s'.proc| == |s.proc| && s'.sched.current == s.sched.current && s'.rights == s.rights
    ensures s'.callers == s.callers && s'.proc == s.proc[p := s'.proc[p]] && s'.hist == s.hist[p := s'.hist[p]]
  {
    var s1 := SetProc(s, p, s.proc[p].(sigs := s.proc[p].sigs + {sig}));
    var s2 := SetHist(s1, p, s1.hist[p].(signals := s1.hist[p].signals + [Sent(sig)]));
    MiniNotify(s2, SYSTEM, p)
  }

  /** Make `sig` pending for PM and hold the process back. */
  function Raise(s: State, p: nat, sig: nat): (s': State)
    requires Sane(s) && p < |s.proc|
    ensures Sane(s') && |s'.proc| == |s.proc| && s'.sched.current == s.sched.current && s'.rights == s.rights
    ensures s'.callers == s.callers && s'.proc == s.proc[p := s'.proc[p]] && s'.hist == s.hist[p := s'.hist[p]]
  {
    var s1 := SetProc(s, p, s.proc[p].(pending := s.proc[p].pending + {sig}));
    var s2 := SetHist(s1, p, s1.hist[p].(raised := s1.hist[p].raised + multiset{sig}));
    Reflag(s2, p, s2.proc[p].rts.(signaled := true, sigPending := true))
  }

  /** cause_sig() */
  function CauseSig(s: State, p: nat, sig: nat): (s': State)
    requires Sane(s) && p < |s.proc|
    ensures Sane(s') && |s'.proc| == |s.proc| && s'.sched.current == s.sched.current && s'.rights == s.rights
    ensures s'.callers == s.callers
  {
    if sig in s.proc[p].pending then s
    else if s.proc[p].rts.signaled then
      var s1 := SetProc(s, p, s.proc[p].(pending := s.proc[p].pending + {sig}));
      SetHist(s1, p, s1.hist[p].(raised := s1.hist[p].raised + multiset{sig}))
    else SendSig(Raise(s, p, sig), PM, SIGKSIG)
  }

  /** The first user slot from `p` on with a signal for PM. */
  function FirstSignaled(s: State, p: nat): Option<nat>
    decreases |s.proc| - p
  {
    if p >= |s.proc| then None
    else if s.proc[p].rts.signaled then Some(p)
    else FirstSignaled(s, p + 1)
  }

  /** do_getksig(): PM is told of one process and its signals, or of none. */
  function GetKsig(s: State): (r: (State, Option<(nat, set<nat>)>))
    requires |s.proc| == |s.hist|
    ensures Sane(s) ==> Sane(r.0) && |r.0.proc| == |s.proc| && r.0.sched.current == s.sched.current
    ensures r.0.callers == s.callers && r.0.rights == s.rights
  {
    match FirstSignaled(s, NR_TASKS)
    case None => (s, None)
    case Some(p) =>
      if p >= |s.proc| then (s, None) else
      var v, h := s.proc[p], s.hist[p];
      var s1 := SetProc(s, p, v.(pending := {}, rts := v.rts.(signaled := false)));
      (SetHist(s1, p, h.(reported := h.reported + multiset(v.pending))), Some((p, v.pending)))
  }

  /** do_endksig() */
  function EndKsig(s: State, p: nat): (r: (State, Result))
    requires Sane(s) && p < |s.proc|
    ensures Sane(r.0) && |r.0.proc| == |s.proc| && r.0.sched.current == s.sched.current && r.0.rights == s.rights
    ensures r.0.callers == s.callers
  {
    var r := s.proc[p].rts;
    if !r.sigPending then (s, EINVAL)
    else if r.signaled then (s, OK)
    else (Reflag(s, p, r.(sigPending := false)), OK)
  }

  function Purge(callers: seq<seq<nat>>, p: nat): (r: seq<seq<nat>>) {
    seq(|callers|, d requires 0 <= d < |callers| => Without(callers[d], p))
  }

  /** An exiting process that is SENDING leaves the caller queues; its message is lost. */
  function Withdrawn(s: State, p: nat): (s': State)
    requires Sane(s) && p < |s.proc|
    ensures Sane(s') && |s'.proc| == |s.proc| && s'.sched == s.sched && s'.proc == s.proc && s'.rights == s.rights
    ensures s'.hist == s.hist[p := s'.hist[p]]
  {
    var v, h := s.proc[p], s.hist[p];
    if v.rts.sending
    then SetHist(s.(callers := Purge(s.callers, p)), p, h.(aborted := [(v.sendTo, v.outbox)]))
    else s
  }

  /** clear_proc() (system/do_exit.c), without timers and interrupt hooks. */
  function ClearProc(s: State, p: nat): (s': State)
    requires Sane(s) && p < |s.proc|
    ensures Sane(s') && |s'.proc| == |s.proc| && s'.sched.current == s.sched.current && s'.rights == s.rights
    ensures s'.proc == s.proc[p := s'.proc[p]] && s'.hist == s.hist[p := s'.hist[p]]
  {
    var s2 := Reflag(Withdrawn(s, p), p, SLOT_FREE);
    if s.rights[p].sysProc then SetProc(s2, p, s2.proc[p].(owner := None)) else s2
  }
}
