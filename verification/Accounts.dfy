/**
 Conservation: what happened to every message, every signal sent to a system process,
 every interrupt and every kernel signal, as an account that each step keeps balanced.
 */
module Accounts {
  import opened Scheduling
  import opened Ipc
  import opened Invariants

  // ---- Messages: accepted once, copied once, to the named destination only --------

  /** The messages from `x` among the mail of a process, in order. */
  ghost function MessagesFrom(mail: seq<Mail>, x: nat): seq<Msg> {
    if mail == [] then [] else
      var rest, last := MessagesFrom(mail[..|mail| - 1], x), mail[|mail| - 1];
      if last.Message? && last.from == x then rest + [last.body] else rest
  }

  /** The messages to `q` among those copied out of a process, in order. */
  ghost function MessagesTo(arrived: seq<(nat, Msg)>, q: nat): seq<Msg> {
    if arrived == [] then [] else
      var rest, last := MessagesTo(arrived[..|arrived| - 1], q), arrived[|arrived| - 1];
      if last.0 == q then rest + [last.1] else rest
  }

  /** The one message that was accepted but not copied. */
  ghost function InFlight(v: Proc, h: History): seq<(nat, Msg)> {
    if v.rts.sending then [(v.sendTo, v.outbox)] else h.aborted
  }

  /** Accepted messages are those copied, in order, then the one in flight. */
  ghost predicate PostedOk(v: Proc, h: History) {
    && h.posted == h.arrived + InFlight(v, h)
    && (h.aborted != [] ==> v.rts.slotFree)
  }

  /** What left `x` for `q` is exactly what `q` got from `x`, in the same order. */
  ghost predicate CopiedOk(hist: seq<History>) {
    forall x, q :: 0 <= x < |hist| && 0 <= q < |hist| ==>
      MessagesTo(hist[x].arrived, q) == MessagesFrom(hist[q].mail, x)
  }

  // ---- Signals to system processes, and interrupts -------------------------------

  /** What was sent since the last notification. */
  ghost function Owed(e: seq<SigEvent>): set<nat> {
    if e == [] then {} else
      match e[|e| - 1]
      case Sent(sig) => Owed(e[..|e| - 1]) + {sig}
      case Told(_) => {}
  }

  /** Every notification carried exactly what was sent since the one before. */
  ghost predicate Honest(e: seq<SigEvent>) {
    forall i :: 0 <= i < |e| && e[i].Told? ==> e[i].sigs == Owed(e[..i])
  }

  /** The arguments of the notifications a process was given from `origin`. */
  ghost function ArgsFrom(mail: seq<Mail>, origin: nat): seq<set<nat>> {
    if mail == [] then [] else
      var rest, last := ArgsFrom(mail[..|mail| - 1], origin), mail[|mail| - 1];
      if last.Notice? && last.origin == Some(origin) then rest + [last.arg] else rest
  }

  ghost function Tellings(e: seq<SigEvent>): seq<set<nat>> {
    if e == [] then [] else
      var rest, last := Tellings(e[..|e| - 1]), e[|e| - 1];
      if last.Told? then rest + [last.sigs] else rest
  }

  /** What is pending is what is owed, and the notifications from `origin` told of all the rest. */
  ghost predicate ToldOf(pending: set<nat>, e: seq<SigEvent>, mail: seq<Mail>, origin: nat) {
    pending == Owed(e) && Honest(e) && ArgsFrom(mail, origin) == Tellings(e)
  }

  /** SYSTEM tells of the signals sent to a process, HARDWARE of its interrupts. */
  ghost predicate NoticesOk(v: Proc, h: History) {
    ToldOf(v.sigs, h.signals, h.mail, SYSTEM) && ToldOf(v.ints, h.irqs, h.mail, HARDWARE)
  }

  /** Kernel signals raised are those reported to PM and those still pending. */
  ghost predicate KsigOk(v: Proc, h: History) {
    h.raised == h.reported + multiset(v.pending)
  }

  /** All accounts balance. */
  ghost predicate Balanced(s: State) {
    && Sane(s) && CopiedOk(s.hist)
    && forall p :: 0 <= p < |s.proc| ==>
      PostedOk(s.proc[p], s.hist[p]) && NoticesOk(s.proc[p], s.hist[p]) && KsigOk(s.proc[p], s.hist[p])
  }

  // ---- Each update keeps the accounts -------------------------------------------

  lemma Snoc<T>(s: seq<T>, x: T)
    ensures (s + [x])[..|s|] == s && (s + [x])[|s|] == x
  {
  }

  /** One slot changes, and sends and gets no message. */
  lemma OneAccount(s: State, s': State, c: nat)
    requires Balanced(s) && Sane(s') && c < |s.proc| == |s'.proc|
    requires s'.proc == s.proc[c := s'.proc[c]] && s'.hist == s.hist[c := s'.hist[c]]
    requires PostedOk(s'.proc[c], s'.hist[c]) && NoticesOk(s'.proc[c], s'.hist[c]) && KsigOk(s'.proc[c], s'.hist[c])
    requires s'.hist[c].arrived == s.hist[c].arrived
    requires forall x :: 0 <= x < |s.proc| ==> MessagesFrom(s'.hist[c].mail, x) == MessagesFrom(s.hist[c].mail, x)
    ensures Balanced(s')
  {
  }

  /** One more message copied out of a process. */
  lemma MessagesToSnoc(arrived: seq<(nat, Msg)>, q: nat, m: Msg, b: nat)
    ensures MessagesTo(arrived + [(q, m)], b) ==
            if b == q then MessagesTo(arrived, b) + [m] else MessagesTo(arrived, b)
  {
    Snoc(arrived, (q, m));
  }

  /** One more message in the mail of a process. */
  lemma MessagesFromSnoc(mail: seq<Mail>, x: nat, m: Msg, a: nat)
    ensures MessagesFrom(mail + [Message(x, m)], a) ==
            if a == x then MessagesFrom(mail, a) + [m] else MessagesFrom(mail, a)
  {
    Snoc(mail, Message(x, m));
  }

  /** One pair of processes in the account of a message copied from `x` to `q`. */
  lemma CopyPair(s: State, x: nat, q: nat, m: Msg, a: nat, b: nat)
    requires CopiedOk(s.hist) && x < |s.hist| && q < |s.hist| && x != q && a < |s.hist| && b < |s.hist|
    ensures var h := Copy(s, x, q, m).hist; MessagesTo(h[a].arrived, b) == MessagesFrom(h[b].mail, a)
  {
    var h := Copy(s, x, q, m).hist;
    assert MessagesTo(s.hist[a].arrived, b) == MessagesFrom(s.hist[b].mail, a);
    MessagesToSnoc(s.hist[x].arrived, q, m, b);
    MessagesFromSnoc(s.hist[q].mail, x, m, a);
    if a == x {
      assert h[a].arrived == s.hist[a].arrived + [(q, m)];
    } else {
      assert h[a].arrived == s.hist[a].arrived;
    }
    if b == q {
      assert h[b].mail == s.hist[b].mail + [Message(x, m)];
    } else {
      assert h[b].mail == s.hist[b].mail;
    }
  }

  lemma CopyCopied(s: State, x: nat, q: nat, m: Msg)
    requires CopiedOk(s.hist) && x < |s.hist| && q < |s.hist| && x != q
    ensures CopiedOk(Copy(s, x, q, m).hist)
  {
    var h := Copy(s, x, q, m).hist;
    forall a, b | 0 <= a < |h| && 0 <= b < |h| ensures MessagesTo(h[a].arrived, b) == MessagesFrom(h[b].mail, a) {
      CopyPair(s, x, q, m, a, b);
    }
  }

  lemma MessageMail(mail: seq<Mail>, x: nat, m: Msg)
    ensures ArgsFrom(mail + [Message(x, m)], SYSTEM) == ArgsFrom(mail, SYSTEM)
    ensures ArgsFrom(mail + [Message(x, m)], HARDWARE) == ArgsFrom(mail, HARDWARE)
  {
    Snoc(mail, Message(x, m));
  }

  /** A message passes from `x` to `q`; the flags of both change as that demands. */
  lemma Passed(s: State, s': State, x: nat, q: nat, m: Msg)
    requires Balanced(s) && Sane(s') && x < |s.proc| == |s'.proc| && q < |s.proc| && x != q
    requires s'.hist == Copy(s, x, q, m).hist[x := s'.hist[x]]
    requires s'.hist[x] == s.hist[x].(posted := s'.hist[x].posted, arrived := s.hist[x].arrived + [(q, m)])
    requires s'.proc == s.proc[x := s'.proc[x]][q := s'.proc[q]]
    requires s'.proc[x] == s.proc[x].(rts := s'.proc[x].rts)
    requires s'.proc[q] == s.proc[q].(rts := s'.proc[q].rts)
    requires s'.proc[q].rts.sending == s.proc[q].rts.sending && s'.proc[q].rts.slotFree == s.proc[q].rts.slotFree
    requires PostedOk(s'.proc[x], s'.hist[x])
    ensures Balanced(s')
  {
    CopyCopied(s, x, q, m);
    SameCopied(Copy(s, x, q, m).hist, s'.hist);
    forall p | 0 <= p < |s'.proc|
      ensures PostedOk(s'.proc[p], s'.hist[p]) && NoticesOk(s'.proc[p], s'.hist[p]) && KsigOk(s'.proc[p], s'.hist[p])
    {
      PassedSlot(s, s', x, q, m, p);
    }
  }

  lemma PassedSlot(s: State, s': State, x: nat, q: nat, m: Msg, p: nat)
    requires Balanced(s) && x < |s.proc| == |s'.proc| == |s'.hist| && q < |s.proc| && x != q && p < |s.proc|
    requires s'.hist == Copy(s, x, q, m).hist[x := s'.hist[x]]
    requires s'.hist[x] == s.hist[x].(posted := s'.hist[x].posted, arrived := s.hist[x].arrived + [(q, m)])
    requires s'.proc == s.proc[x := s'.proc[x]][q := s'.proc[q]]
    requires s'.proc[x] == s.proc[x].(rts := s'.proc[x].rts)
    requires s'.proc[q] == s.proc[q].(rts := s'.proc[q].rts)
    requires s'.proc[q].rts.sending == s.proc[q].rts.sending && s'.proc[q].rts.slotFree == s.proc[q].rts.slotFree
    requires PostedOk(s'.proc[x], s'.hist[x])
    ensures PostedOk(s'.proc[p], s'.hist[p]) && NoticesOk(s'.proc[p], s'.hist[p]) && KsigOk(s'.proc[p], s'.hist[p])
  {
    assert PostedOk(s.proc[p], s.hist[p]) && NoticesOk(s.proc[p], s.hist[p]) && KsigOk(s.proc[p], s.hist[p]);
    if p == q {
      MessageMail(s.hist[q].mail, x, m);
      assert s'.hist[p] == s.hist[p].(mail := s.hist[p].mail + [Message(x, m)]);
    } else if p != x {
      assert s'.hist[p] == s.hist[p] && s'.proc[p] == s.proc[p];
    }
  }

  lemma SameCopied(h: seq<History>, h': seq<History>)
    requires CopiedOk(h) && |h| == |h'|
    requires forall a :: 0 <= a < |h| ==> h'[a].arrived == h[a].arrived && h'[a].mail == h[a].mail
    ensures CopiedOk(h')
  {
  }

  lemma HandOverBalanced(s: State, c: nat, d: nat, m: Msg)
    requires Balanced(s) && c < |s.proc| && d < |s.proc| && c != d
    requires s.proc[c].rts == RUNNABLE
    ensures Balanced(HandOver(s, c, d, m))
  {
    Passed(s, HandOver(s, c, d, m), c, d, m);
  }

  lemma BlockBalanced(s: State, c: nat, d: nat, m: Msg)
    requires Balanced(s) && c < |s.proc| && d < |s.proc| && s.proc[c].rts == RUNNABLE
    ensures Balanced(Block(s, c, d, m))
  {
    OneAccount(s, Block(s, c, d, m), c);
  }

  lemma TakeMessageBalanced(s: State, c: nat, x: nat)
    requires Balanced(s) && c < |s.proc| && x < |s.proc| && c != x
    requires s.proc[x].rts.sending && s.proc[x].sendTo == c && !s.proc[x].rts.slotFree
    ensures Balanced(TakeMessage(s, c, x))
  {
    Passed(s, TakeMessage(s, c, x), x, c, s.proc[x].outbox);
  }

  lemma NoticeMail(mail: seq<Mail>, n: Mail)
    requires n.Notice?
    ensures forall x :: MessagesFrom(mail + [n], x) == MessagesFrom(mail, x)
  {
    Snoc(mail, n);
  }

  lemma NoticeArgs(mail: seq<Mail>, n: Mail, o: nat)
    requires n.Notice?
    ensures ArgsFrom(mail + [n], o) == if n.origin == Some(o) then ArgsFrom(mail, o) + [n.arg] else ArgsFrom(mail, o)
  {
    Snoc(mail, n);
  }

  /** A notification tells of all that is pending. */
  lemma TellAccount(pending: set<nat>, e: seq<SigEvent>, mail: seq<Mail>, origin: nat)
    requires ToldOf(pending, e, mail, origin)
    ensures ToldOf({}, e + [Told(pending)], mail + [Notice(Some(origin), pending)], origin)
  {
    NoticeArgs(mail, Notice(Some(origin), pending), origin);
    TellHonest(e);
  }

  lemma AnnounceAccount(s: State, q: nat, origin: Option<nat>)
    requires q < |s.proc| == |s.hist| && NoticesOk(s.proc[q], s.hist[q])
    ensures var s' := Announce(s, q, origin); NoticesOk(s'.proc[q], s'.hist[q])
  {
    var v, h := s.proc[q], s.hist[q];
    var n := Announced(s, q, origin);
    NoticeArgs(h.mail, n, SYSTEM);
    NoticeArgs(h.mail, n, HARDWARE);
    if origin == Some(SYSTEM) {
      TellAccount(v.sigs, h.signals, h.mail, SYSTEM);
    } else if origin == Some(HARDWARE) {
      TellAccount(v.ints, h.irqs, h.mail, HARDWARE);
    }
  }

  /** The notice that arrives. */
  lemma Announced(s: State, q: nat, origin: Option<nat>) returns (n: Mail)
    requires q < |s.proc| == |s.hist|
    ensures n.Notice? && Announce(s, q, origin).hist[q].mail == s.hist[q].mail + [n]
    ensures n == Notice(origin, if origin == Some(HARDWARE) then s.proc[q].ints
                                else if origin == Some(SYSTEM) then s.proc[q].sigs else {})
    ensures Announce(s, q, origin).hist[q] == s.hist[q].(
      mail := s.hist[q].mail + [n], signals := Announce(s, q, origin).hist[q].signals,
      irqs := Announce(s, q, origin).hist[q].irqs)
  {
    n := Notice(origin, if origin == Some(HARDWARE) then s.proc[q].ints
                        else if origin == Some(SYSTEM) then s.proc[q].sigs else {});
  }

  lemma AnnounceRest(s: State, q: nat, origin: Option<nat>)
    requires q < |s.proc| == |s.hist| && PostedOk(s.proc[q], s.hist[q]) && KsigOk(s.proc[q], s.hist[q])
    ensures var s' := Announce(s, q, origin);
            && PostedOk(s'.proc[q], s'.hist[q]) && KsigOk(s'.proc[q], s'.hist[q])
            && s'.hist[q].arrived == s.hist[q].arrived
            && forall x :: 0 <= x < |s.proc| ==>
              MessagesFrom(s'.hist[q].mail, x) == MessagesFrom(s.hist[q].mail, x)
  {
    var n := Announced(s, q, origin);
    NoticeMail(s.hist[q].mail, n);
  }

  lemma AnnounceBalanced(s: State, q: nat, origin: Option<nat>)
    requires Balanced(s) && q < |s.proc|
    ensures Balanced(Announce(s, q, origin))
  {
    var s' := Announce(s, q, origin);
    assert PostedOk(s.proc[q], s.hist[q]) && NoticesOk(s.proc[q], s.hist[q]) && KsigOk(s.proc[q], s.hist[q]);
    AnnounceAccount(s, q, origin);
    AnnounceRest(s, q, origin);
    OneAccount(s, s', q);
  }

  lemma TellHonest(e: seq<SigEvent>)
    requires Honest(e)
    ensures Honest(e + [Told(Owed(e))]) && Owed(e + [Told(Owed(e))]) == {}
    ensures Tellings(e + [Told(Owed(e))]) == Tellings(e) + [Owed(e)]
  {
    var e' := e + [Told(Owed(e))];
    forall i | 0 <= i < |e'| && e'[i].Told? ensures e'[i].sigs == Owed(e'[..i]) {
      assert e'[..i] == e[..i];
    }
    Snoc(e, Told(Owed(e)));
  }

  lemma SendHonest(e: seq<SigEvent>, sig: nat)
    requires Honest(e)
    ensures Honest(e + [Sent(sig)]) && Owed(e + [Sent(sig)]) == Owed(e) + {sig}
    ensures Tellings(e + [Sent(sig)]) == Tellings(e)
  {
    var e' := e + [Sent(sig)];
    forall i | 0 <= i < |e'| && e'[i].Told? ensures e'[i].sigs == Owed(e'[..i]) {
      assert e'[..i] == e[..i];
    }
    Snoc(e, Sent(sig));
  }

  lemma NotifyBalanced(s: State, src: nat, d: nat)
    requires Balanced(s) && src < |s.proc| && d < |s.proc|
    ensures Balanced(MiniNotify(s, src, d))
  {
    if Accepts(s, d, src) && !s.proc[d].busy {
      AnnounceBalanced(s, d, Some(src));
      OneAccount(Announce(s, d, Some(src)), MiniNotify(s, src, d), d);
    } else {
      OneAccount(s, MiniNotify(s, src, d), d);
    }
  }

  lemma TakeNoticeBalanced(s: State, c: nat, id: nat)
    requires Balanced(s) && c < |s.proc|
    ensures Balanced(TakeNotice(s, c, id))
  {
    var s1 := SetProc(s, c, s.proc[c].(notified := s.proc[c].notified - {id}));
    OneAccount(s, s1, c);
    AnnounceBalanced(s1, c, Owner(s, id));
  }

  lemma AwaitBalanced(s: State, c: nat, src: Source)
    requires Balanced(s) && c < |s.proc|
    ensures Balanced(Await(s, c, src))
  {
    OneAccount(s, Await(s, c, src), c);
  }

  lemma BusyBalanced(s: State, c: nat, b: bool)
    requires Balanced(s) && c < |s.proc|
    ensures Balanced(SetBusy(s, c, b))
  {
    OneAccount(s, SetBusy(s, c, b), c);
  }

  lemma InterruptBalanced(s: State, p: nat, id: nat)
    requires Balanced(s) && p < |s.proc|
    ensures Balanced(Interrupt(s, p, id))
  {
    var s1 := SetProc(s, p, s.proc[p].(ints := s.proc[p].ints + {id}));
    var s2 := SetHist(s1, p, s1.hist[p].(irqs := s1.hist[p].irqs + [Sent(id)]));
    SendHonest(s.hist[p].irqs, id);
    OneAccount(s, s2, p);
    NotifyBalanced(s2, HARDWARE, p);
  }

  lemma SendSigBalanced(s: State, p: nat, sig: nat)
    requires Balanced(s) && p < |s.proc|
    ensures Balanced(SendSig(s, p, sig))
  {
    var s1 := SetProc(s, p, s.proc[p].(sigs := s.proc[p].sigs + {sig}));
    var s2 := SetHist(s1, p, s1.hist[p].(signals := s1.hist[p].signals + [Sent(sig)]));
    SendHonest(s.hist[p].signals, sig);
    OneAccount(s, s2, p);
    NotifyBalanced(s2, SYSTEM, p);
  }

  lemma RaiseBalanced(s: State, p: nat, sig: nat)
    requires Balanced(s) && p < |s.proc| && sig !in s.proc[p].pending
    ensures Balanced(Raise(s, p, sig))
  {
    assert multiset(s.proc[p].pending + {sig}) == multiset(s.proc[p].pending) + multiset{sig};
    OneAccount(s, Raise(s, p, sig), p);
  }

  lemma GetKsigBalanced(s: State)
    requires Balanced(s) && Sane(GetKsig(s).0)
    ensures Balanced(GetKsig(s).0)
  {
    FirstSignaledIs(s, NR_TASKS);
    if FirstSignaled(s, NR_TASKS).Some? {
      OneAccount(s, GetKsig(s).0, FirstSignaled(s, NR_TASKS).value);
    }
  }

  lemma EndKsigBalanced(s: State, p: nat)
    requires Balanced(s) && p < |s.proc|
    ensures Balanced(EndKsig(s, p).0)
  {
    if EndKsig(s, p).0 != s {
      OneAccount(s, EndKsig(s, p).0, p);
    }
  }

  lemma ClearProcBalanced(s: State, p: nat)
    requires Balanced(s) && p < |s.proc|
    requires s.proc[p].rts.sending ==> s.hist[p].aborted == []
    ensures Balanced(ClearProc(s, p))
  {
    OneAccount(s, ClearProc(s, p), p);
  }
}
