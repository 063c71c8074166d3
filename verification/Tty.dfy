/**
 The terminal's circular input queue at work: the routines of drivers/tty/tty.c on its
 buffer, pointers and counters, each proved against the line discipline.
 */
module Ttys {
  import opened Rings
  import opened LineDiscipline
  import opened LineEditing

  const TAB_SIZE := 8
  const COPY := 64        // the bounce buffer of in_transfer()

  // ---- Lengths on the screen do not matter ------------------------------------------------

  lemma {:induction false} PlainSame(q: seq<InCh>)
    ensures Eots(PlainAll(q)) == Eots(q)
  {
    if q != [] {
      PlainSame(q[1..]);
      assert PlainAll(q)[1..] == PlainAll(q[1..]);
    }
  }

  lemma {:induction false} EotsDrop(q: seq<InCh>)
    requires q != []
    ensures Eots(q[..|q| - 1]) == Eots(q) - if q[|q| - 1].eot then 1 else 0
  {
    assert q == q[..|q| - 1] + [q[|q| - 1]];
    EotsAppend(q[..|q| - 1], q[|q| - 1]);
  }

  lemma PlainLast(q: seq<InCh>)
    requires q != []
    ensures PlainAll(q)[|q| - 1].eot == q[|q| - 1].eot
    ensures PlainAll(q[..|q| - 1]) == PlainAll(q)[..|q| - 1]
  {
  }

  /** Replacing an entry by one that differs in length only. */
  lemma SetPlain(q: seq<InCh>, i: nat, ch: InCh)
    requires i < |q| && Plain(ch) == Plain(q[i])
    ensures PlainAll(q[i := ch]) == PlainAll(q) && Eots(q[i := ch]) == Eots(q)
  {
    PlainSame(q);
    PlainSame(q[i := ch]);
  }

  lemma BytesUpTo(q: seq<InCh>, k: nat)
    requires k < |q|
    ensures Bytes(q[..k + 1]) == Bytes(q[..k]) + Given(q[k])
  {
    assert q[..k + 1] == q[..k] + [q[k]];
    BytesSnoc(q[..k], q[k]);
  }

  class Tty {
    const inbuf: array<InCh>
    var term: Termios
    var head: nat
    var tail: nat
    var count: nat
    var eotct: nat
    var min: nat
    var escaped: bool
    var inhibited: bool
    var messed: bool            // tty_reprint
    var left: nat               // tty_inleft
    var served: seq<int>        // what was copied out to readers

    ghost predicate Valid()
      reads this, inbuf
    {
      && tail < inbuf.Length && count <= inbuf.Length && head == Wrap(tail + count, inbuf.Length)
      && eotct == Eots(Ring(inbuf[..], tail, count))
    }

    ghost function Queue(): (q: seq<InCh>)
      reads this, inbuf
      requires Valid()
      ensures |q| == count && Eots(q) == eotct
    {
      Ring(inbuf[..], tail, count)
    }

    ghost function Abs(): (d: Line)
      reads this, inbuf
      requires Valid()
      ensures |d.q| == count && Eots(d.q) == eotct
    {
      PlainSame(Queue());
      Line(term, PlainAll(Queue()), escaped, inhibited, min, left, served)
    }

    /** tty_init() for one line. */
    constructor (size: nat, t: Termios)
      requires size > 0
      ensures Valid() && fresh(inbuf) && inbuf.Length == size
      ensures Abs() == Line(t, [], false, false, 1, 0, []) && LineOk(Abs(), size)
    {
      inbuf := new InCh[size](_ => Char(0));
      term, head, tail, count, eotct, min := t, 0, 0, 0, 0, 1;
      escaped, inhibited, messed, left, served := false, false, false, 0, [];
    }

    // ---- The two ends of the queue ------------------------------------------------------

    method Push(ch: InCh)
      requires Valid() && count < inbuf.Length
      modifies `head, `count, `eotct, inbuf
      ensures Valid() && Queue() == old(Queue()) + [ch]
    {
      RingPush(inbuf[..], tail, count, ch);
      EotsAppend(Queue(), ch);
      inbuf[head] := ch;
      head := head + 1;
      if head == inbuf.Length {
        head := 0;
      }
      count := count + 1;
      if ch.eot {
        eotct := eotct + 1;
      }
    }

    method Pop() returns (ch: InCh)
      requires Valid() && count > 0
      modifies `tail, `count, `eotct
      ensures Valid() && ch == old(Queue())[0] && Queue() == old(Queue())[1..]
    {
      RingPop(inbuf[..], tail, count);
      ch := inbuf[tail];
      tail := tail + 1;
      if tail == inbuf.Length {
        tail := 0;
      }
      count := count - 1;
      if ch.eot {
        eotct := eotct - 1;
      }
    }

    // ---- Echo ---------------------------------------------------------------------------

    /**
     tty_echo(): the character with its length on the screen.  How far a tab goes depends
     on the screen, which is not modelled.
     */
    method Echo(ch: InCh) returns (r: InCh)
      modifies `messed
      ensures r == ch.(len := r.len) && r.len <= TAB_SIZE
      ensures !term.echo || ch.eof || (ch.code in {CR, LF} && ch.eot && !ch.esc) ==> r.len == 0
    {
      r := ch.(len := 0);
      if !term.echo {
        return;
      }
      if count == 0 {
        messed := false;
      }
      if ch.code < 32 {
        if Plain(ch) == Char(9) {
          var stop: nat :| 1 <= stop <= TAB_SIZE;
          r := ch.(len := stop);
        } else if ch.code in {CR, LF} && ch.eot && !ch.eof && !ch.esc {
          r := ch.(len := 0);
        } else {
          r := ch.(len := 2);
        }
      } else if ch.code == 127 {
        r := ch.(len := 2);
      } else {
        r := ch.(len := 1);
      }
      if ch.eof {
        r := ch.(len := 0);
      }
    }

    /** The entry in front of position `h`, counting round the buffer. */
    lemma Before(c: nat, h: nat)
      requires Valid() && 0 < c <= count && h == Wrap(tail + c, inbuf.Length)
      ensures var p := if h == 0 then inbuf.Length - 1 else h - 1;
              p == Wrap(tail + (c - 1), inbuf.Length) && inbuf[p] == Queue()[c - 1]
    {
    }

    /** A pointer that may stand at the buffer's end instead of its start. */
    ghost predicate Points(h: nat, c: nat)
      reads this
      requires tail < inbuf.Length && c <= inbuf.Length
    {
      var p := Wrap(tail + c, inbuf.Length);
      h == p || (h == inbuf.Length && p == 0)
    }

    /** The first loop of reprint(): back to the last line break. */
    method FindBreak() returns (h: nat, c: nat)
      requires Valid()
      ensures c == Break(Queue()) && Points(h, c)
    {
      h, c := head, count;
      while c > 0
        invariant 0 <= c <= count && Points(h, c)
        invariant forall i :: c <= i < count ==> !Queue()[i].eot
      {
        Before(c, Wrap(tail + c, inbuf.Length));
        if h == 0 {
          h := inbuf.Length;
        }
        if inbuf[h - 1].eot {
          break;
        }
        h, c := h - 1, c - 1;
      }
      BreakIs(Queue(), c);
    }

    /** reprint(): only lengths change, and only behind the last line break. */
    method Reprint()
      requires Valid()
      modifies `messed, inbuf
      ensures Valid() && Abs() == old(Abs())
      ensures Queue()[..Break(old(Queue()))] == old(Queue())[..Break(old(Queue()))]
    {
      messed := false;
      var h, c := FindBreak();
      if c == count {
        return;
      }
      var _ := Echo(Char(term.reprint).(esc := true));
      Respell(h, c);
    }

    /** The second loop of reprint(): echo the entries from number `from` on again. */
    method Respell(start: nat, from: nat)
      requires Valid() && from < count
      requires Points(start, from)
      modifies `messed, inbuf
      ensures Valid() && Abs() == old(Abs()) && Queue()[..from] == old(Queue())[..from]
    {
      var h: nat, c := start, from;
      while c < count
        invariant from <= c <= count && Valid() && Abs() == old(Abs()) && Queue()[..from] == old(Queue())[..from]
        invariant Points(h, c)
      {
        if h == inbuf.Length {
          h := 0;
        }
        var ch := Echo(inbuf[h]);
        Overwrite(h, c, ch);
        h, c := h + 1, c + 1;
      }
    }

    method Overwrite(h: nat, c: nat, ch: InCh)
      requires Valid() && c < count && h == Wrap(tail + c, inbuf.Length) && Plain(ch) == Plain(inbuf[h])
      modifies inbuf
      ensures Valid() && Abs() == old(Abs()) && Queue() == old(Queue())[c := ch]
    {
      RingSet(inbuf[..], tail, count, c, ch);
      SetPlain(Queue(), c, ch);
      inbuf[h] := ch;
    }

    /** back_over() */
    method BackOver() returns (erased: bool)
      requires Valid()
      modifies `messed, `head, `count, inbuf
      ensures Valid() && Abs() == old(Abs()).(q := Erased(old(Abs()).q))
      ensures erased <==> Erased(old(Abs()).q) != old(Abs()).q
    {
      if count == 0 {
        return false;
      }
      Before(count, head);
      var h := head;
      if h == 0 {
        h := inbuf.Length;
      }
      if inbuf[h - 1].eot {
        return false;
      }
      PlainLast(Queue());
      Rub(h - 1);
      return true;
    }

    /** The erasure in back_over(): reprint a messed-up line first, then take the last entry off. */
    method Rub(h: nat)
      requires Valid() && count > 0 && h == Wrap(tail + (count - 1), inbuf.Length) && !Abs().q[count - 1].eot
      modifies `messed, `head, `count, inbuf
      ensures Valid() && Abs() == old(Abs()).(q := old(Abs()).q[..old(count) - 1])
    {
      if messed {
        Reprint();
      }
      PlainLast(Queue());
      Drop(h);
    }

    method Drop(h: nat)
      requires Valid() && count > 0 && h == Wrap(tail + (count - 1), inbuf.Length) && !Queue()[count - 1].eot
      modifies `head, `count
      ensures Valid() && Queue() == old(Queue())[..old(count) - 1]
    {
      RingDrop(inbuf[..], tail, count);
      EotsDrop(Queue());
      head := h;
      count := count - 1;
    }

    /** The kill loop of in_process(): erase until a line break stops it. */
    method KillLine()
      requires Valid()
      modifies `messed, `head, `count, inbuf
      ensures Valid() && Abs() == old(Abs()).(q := old(Abs()).q[..Break(old(Abs()).q)])
    {
      ghost var d, n := Abs(), count;
      var more := true;
      while more
        invariant Valid() && Break(d.q) <= n <= |d.q| && Abs() == d.(q := d.q[..n])
        invariant !more ==> n == Break(d.q)
        decreases n, more
      {
        KillStep(d.q, Break(d.q), n);
        more := BackOver();
        n := if more then n - 1 else n;
      }
    }

    // ---- in_transfer() --------------------------------------------------------------------

    /** The loop of in_transfer(), with its bounce buffer. */
    method Transfer()
      requires Valid()
      modifies `tail, `count, `eotct, `left, `served
      ensures Valid() && Abs() == Transferred(old(Abs()))
    {
      ghost var d, k := Abs(), 0;
      var buf: seq<int> := [];
      while left > 0 && eotct > 0
        invariant Valid() && |buf| < COPY && Moving(d, k, left, served + buf)
        invariant Abs() == d.(q := d.q[k..], left := left, served := served)
        decreases count
      {
        MoveStep(d, k, left, served + buf);
        buf := TakeOne(buf);
        k := k + 1;
      }
      MoveDone(d, k, left, served + buf);
      CopyOut(buf);
    }

    /** Whatever is left in the bounce buffer goes to the reader. */
    method CopyOut(buf: seq<int>)
      requires Valid()
      modifies `served
      ensures Valid() && Abs() == old(Abs()).(served := old(served) + buf)
    {
      if |buf| > 0 {
        served := served + buf;
      }
    }

    /** One round of it: an entry leaves the queue and its byte, if it has one, enters the buffer. */
    method TakeOne(buf: seq<int>) returns (buf': seq<int>)
      requires Valid() && count > 0 && left > 0 && |buf| < COPY
      modifies `tail, `count, `eotct, `left, `served
      ensures Valid() && |buf'| < COPY && count == old(count) - 1
      ensures Abs() == old(Abs()).(q := old(Abs()).q[1..], left := left, served := served)
      ensures left == LeftAfter(old(Abs()).q[0], old(left), term.icanon)
      ensures served + buf' == old(served) + buf + Given(old(Abs()).q[0])
    {
      PlainTail(Queue());
      var ch := Pop();
      buf' := Deliver(ch, buf);
    }

    /** The byte enters the bounce buffer, and a full one is copied out. */
    method Deliver(ch: InCh, buf: seq<int>) returns (buf': seq<int>)
      requires left > 0 && |buf| < COPY
      modifies `left, `served
      ensures |buf'| < COPY && left == LeftAfter(ch, old(left), term.icanon)
      ensures served + buf' == old(served) + buf + Given(ch)
    {
      buf' := buf;
      if !ch.eof {
        buf' := buf' + [ch.code];
        left := left - 1;
        if |buf'| == COPY {
          served, buf' := served + buf', [];
        }
      }
      if ch.eot && term.icanon {
        left := 0;
      }
    }

    /** in_transfer() */
    method DoTransfer()
      requires Valid()
      modifies `tail, `count, `eotct, `left, `served, `min
      ensures Valid() && Abs() == InTransfer(old(Abs()))
    {
      if term.hungUp {
        min := 0;
      }
      if left == 0 || eotct < min {
        return;
      }
      Transfer();
    }

    // ---- in_process() ----------------------------------------------------------------------

    /** The first half of in_process()'s loop body: what the byte means. */
    method Interpret(byte: int) returns (act: Act)
      modifies `escaped, `inhibited
      ensures Verdict(act, escaped, inhibited) == Decide(term, old(escaped), old(inhibited), byte)
      ensures Meaning(term, old(escaped), old(inhibited), byte, Verdict(act, escaped, inhibited))
      ensures act.Save? ==> act.ch.len == 0
    {
      DecideMeans(term, escaped, inhibited, byte);
      act := Sift(byte);
    }

    /** Its tests up to the mapping of CR and LF. */
    method Sift(byte: int) returns (act: Act)
      modifies `escaped, `inhibited
      ensures Verdict(act, escaped, inhibited) == Decide(term, old(escaped), old(inhibited), byte)
      ensures act.Save? ==> act.ch.len == 0
    {
      var ch := Char(if term.istrip then byte % 128 else byte);
      if term.iexten {
        if escaped {
          escaped := false;
          ch := ch.(esc := true);
        }
        if ch == Char(term.lnext) {
          escaped := true;
          return Ignore;
        }
        if ch == Char(term.reprint) {
          return Act.Reprint;
        }
      }
      if ch == Char(POSIX_VDISABLE) {
        ch := ch.(esc := true);
      }
      if ch == Char(CR) {
        if term.ignCr {
          return Ignore;
        }
        if term.icrnl {
          ch := Char(LF);
        }
      } else if ch == Char(LF) && term.inlcr {
        ch := Char(CR);
      }
      act := EditChar(ch);
    }

    method EditChar(typed: InCh) returns (act: Act)
      requires typed.len == 0
      modifies `inhibited
      ensures Verdict(act, escaped, inhibited) == Edit(term, escaped, old(inhibited), typed)
      ensures act.Save? ==> act.ch.len == 0
    {
      var ch := typed;
      if term.icanon {
        if ch == Char(term.erase) {
          return Erase;
        }
        if ch == Char(term.kill) {
          return Kill;
        }
        if ch == Char(term.eof) {
          ch := ch.(eot := true, eof := true);
        }
        if ch == Char(LF) {
          ch := ch.(eot := true);
        }
        if ch == Char(term.eol) {
          ch := ch.(eot := true);
        }
      }
      act := Regulate(ch);
    }

    /** The second half: flow control and signals. */
    method Regulate(ch: InCh) returns (act: Act)
      requires ch.len == 0
      modifies `inhibited
      ensures Verdict(act, escaped, inhibited) == Control(term, escaped, old(inhibited), ch)
      ensures act.Save? ==> act.ch.len == 0
    {
      if term.ixon {
        if ch == Char(term.stop) {
          inhibited := true;
          return Ignore;
        }
        if inhibited && (ch == Char(term.start) || term.ixany) {
          inhibited := false;
          if ch == Char(term.start) {
            return Ignore;
          }
        }
      }
      if term.isig && (ch == Char(term.intr) || ch == Char(term.quit)) {
        return Signal(if ch == Char(term.quit) then SIGQUIT else SIGINT);
      }
      return Save(ch);
    }

    /** The queue part of sigchar(). */
    method SigChar()
      requires Valid()
      modifies `tail, `count, `eotct, `inhibited
      ensures Valid() && Abs() == Flushed(old(Abs()))
    {
      if !term.noflsh {
        count, eotct, tail, inhibited := 0, 0, head, false;
      }
    }

    /** tty_icancel() */
    method Cancel()
      requires Valid()
      modifies `tail, `count, `eotct
      ensures Valid() && Abs() == old(Abs()).(q := [])
    {
      count, eotct, tail := 0, 0, head;
    }

    /** The end of in_process()'s loop body: echo, store, and make room if the queue is full. */
    method SaveChar(ch: InCh) returns (more: bool)
      requires Valid() && ch.len == 0
      modifies this, inbuf
      ensures Valid() && term == old(term) && (Abs(), more) == Acted(old(Abs()), Save(ch), inbuf.Length)
    {
      if count == inbuf.Length {
        return term.icanon;
      }
      var x := if term.icanon then ch else ch.(eot := true);
      ghost var y := x;
      if term.echo || term.echonl {
        x := Echo(x);
      }
      Append(x, y);
      if count == inbuf.Length {
        DoTransfer();
      }
      return true;
    }

    method Append(ch: InCh, ghost plain: InCh)
      requires Valid() && count < inbuf.Length && plain == Plain(ch)
      modifies `head, `count, `eotct, inbuf
      ensures Valid() && Abs() == old(Abs()).(q := old(Abs()).q + [plain])
    {
      PlainSnoc(Queue(), ch);
      Push(ch);
    }

    method Perform(act: Act) returns (more: bool)
      requires Valid() && (act.Save? ==> act.ch.len == 0)
      modifies this, inbuf
      ensures Valid() && term == old(term) && (Abs(), more) == Acted(old(Abs()), act, inbuf.Length)
    {
      more := true;
      match act
      case Ignore =>
      case Reprint => Reprint();
      case Erase => var _ := BackOver();
      case Kill => KillLine();
      case Signal(_) => SigChar();
      case Save(ch) => more := SaveChar(ch);
    }

    /** One round of in_process(). */
    method FeedOne(byte: int) returns (more: bool, ghost d: Line)
      requires Valid()
      modifies this, inbuf
      ensures Valid() && d == Abs() && (d, more) == Feed(old(Abs()), byte, inbuf.Length)
      ensures FeedOutcome(old(Abs()), byte, inbuf.Length, d, more)
    {
      FeedMeans(Abs(), byte, inbuf.Length);
      more := FeedByte(byte);
      d := Abs();
    }

    method FeedByte(byte: int) returns (more: bool)
      requires Valid()
      modifies this, inbuf
      ensures Valid() && (Abs(), more) == Feed(old(Abs()), byte, inbuf.Length)
    {
      var act := Interpret(byte);
      more := Perform(act);
    }

    /** in_process() */
    method InProcess(buf: seq<int>) returns (ct: nat)
      requires Valid()
      modifies this, inbuf
      ensures Valid() && (Abs(), ct) == FeedAll(old(Abs()), buf, inbuf.Length)
    {
      ct := 0;
      var more := true;
      ghost var d := Abs();
      while ct < |buf| && more
        invariant 0 <= ct <= |buf| && Valid() && d == Abs()
        invariant Fed(old(Abs()), buf, inbuf.Length, d, ct, more)
        decreases |buf| - ct, more
      {
        FeedStep(old(Abs()), buf, inbuf.Length, d, ct);
        more, d := FeedOne(buf[ct]);
        if more {
          ct := ct + 1;
        }
      }
    }

    // ---- do_read() and setattr() ---------------------------------------------------------

    /** do_read() up to its first in_transfer(); a second reader gets an error. */
    method Read(count: nat) returns (ok: bool)
      requires Valid()
      modifies `tail, `count, `eotct, `left, `served, `min
      ensures Valid() && (ok <==> old(left) == 0 && count > 0)
      ensures Abs() == if ok then Asked(old(Abs()), count) else old(Abs())
    {
      if left > 0 || count == 0 {
        return false;
      }
      Prepare(count);
      DoTransfer();
      return true;
    }

    method Prepare(count: nat)
      requires Valid()
      modifies `left, `min
      ensures Valid() && Abs() == Prepared(old(Abs()), count)
    {
      left := count;
      if !term.icanon && term.vtime > 0 {
        if term.vmin == 0 {
          min := 1;
        } else if eotct == 0 {
          min := term.vmin;
        }
      }
    }

    /** A pending read comes to its end: answered, cancelled, or not allowed to block. */
    method EndRead()
      requires Valid()
      modifies `left
      ensures Valid() && Abs() == old(Abs()).(left := 0)
    {
      left := 0;
    }

    /** The input side of handle_events(): take what the device has, then serve the reader that waits. */
    method HandleEvents(typed: seq<int>) returns (ct: nat)
      requires Valid()
      modifies this, inbuf
      ensures Valid() && ct == FeedAll(old(Abs()), typed, inbuf.Length).1
      ensures Abs() == InTransfer(FeedAll(old(Abs()), typed, inbuf.Length).0)
    {
      ct := InProcess(typed);
      DoTransfer();
    }

    /** setattr(), as far as input is concerned. */
    method SetAttr(t: Termios)
      requires Valid()
      modifies this, inbuf
      ensures Valid() && Abs() == Configured(old(Abs()), t)
    {
      Tune(t);
      if term.hungUp {
        SigChar();
      }
    }

    method Tune(t: Termios)
      requires Valid()
      modifies this, inbuf
      ensures Valid() && Abs() == Tuned(old(Abs()), t)
    {
      term := t;
      if !term.icanon {
        MarkAll();
      }
      SetMin();
      if !term.ixon {
        inhibited := false;
      }
    }

    method SetMin()
      modifies `min
      ensures min == MinFor(term)
    {
      if term.icanon {
        min := 1;
      } else {
        min := term.vmin;
        if min == 0 && term.vtime > 0 {
          min := 1;
        }
      }
    }

    /** Raw mode: every queued entry becomes a line break. */
    method MarkAll()
      requires Valid()
      modifies `eotct, inbuf
      ensures Valid() && Queue() == AllEot(old(Queue())) && Abs().q == AllEot(old(Abs()).q)
    {
      ghost var q := Queue();
      eotct := count;
      MarkLoop();
      EotsAll(AllEot(q));
      PlainMarked(q);
    }

    method MarkLoop()
      requires tail < inbuf.Length && count <= inbuf.Length
      modifies inbuf
      ensures Ring(inbuf[..], tail, count) == AllEot(old(Ring(inbuf[..], tail, count)))
    {
      ghost var q := Ring(inbuf[..], tail, count);
      var c, p := count, tail;
      while c > 0
        invariant 0 <= c <= count && p == Wrap(tail + (count - c), inbuf.Length)
        invariant MarkedUpTo(Ring(inbuf[..], tail, count), q, count - c)
      {
        RingSet(inbuf[..], tail, count, count - c, inbuf[p].(eot := true));
        inbuf[p] := inbuf[p].(eot := true);
        p := p + 1;
        if p == inbuf.Length {
          p := 0;
        }
        c := c - 1;
      }
    }
  }

  lemma PlainMarked(q: seq<InCh>)
    ensures PlainAll(AllEot(q)) == AllEot(PlainAll(q))
  {
  }

  /** The first `k` entries carry the mark. */
  ghost predicate MarkedUpTo(r: seq<InCh>, q: seq<InCh>, k: nat) {
    |r| == |q| && forall i :: 0 <= i < |q| ==> r[i] == if i < k then q[i].(eot := true) else q[i]
  }

  // ---- Steps of the loops ------------------------------------------------------------------

  lemma PlainTail(q: seq<InCh>)
    requires q != []
    ensures PlainAll(q[1..]) == PlainAll(q)[1..] && PlainAll(q)[0] == Plain(q[0])
  {
  }

  lemma PlainSnoc(q: seq<InCh>, ch: InCh)
    ensures PlainAll(q + [ch]) == PlainAll(q) + [Plain(ch)]
  {
  }

  /** Erasing one more entry on the way to the last line break. */
  lemma KillStep(q: seq<InCh>, b: nat, n: nat)
    requires b <= n <= |q| && (b > 0 ==> q[b - 1].eot) && forall i :: b <= i < |q| ==> !q[i].eot
    ensures n > b ==> Erased(q[..n]) == q[..n - 1] != q[..n]
    ensures n == b ==> Erased(q[..n]) == q[..n]
  {
    if n > 0 {
      assert q[..n][n - 1] == q[n - 1] && q[..n][..n - 1] == q[..n - 1];
    }
  }

  function LeftAfter(ch: InCh, left: nat, canon: bool): nat
    requires left > 0
  {
    if ch.eot && canon then 0 else if ch.eof then left else left - 1
  }

  /** The transfer loop after `k` entries: what it will have taken altogether is settled. */
  ghost predicate Moving(d: Line, k: nat, left: nat, out: seq<int>) {
    && k <= |d.q| && out == d.served + Bytes(d.q[..k])
    && Taken(d.q, d.left, d.term.icanon) == k + Taken(d.q[k..], left, d.term.icanon)
    && Wanted(d.q, d.left, d.term.icanon) == Wanted(d.q[k..], left, d.term.icanon)
  }

  lemma MoveStep(d: Line, k: nat, left: nat, out: seq<int>)
    requires Moving(d, k, left, out) && left > 0 && Eots(d.q[k..]) > 0
    ensures k < |d.q| && d.q[k..][0] == d.q[k] && d.q[k..][1..] == d.q[k + 1..]
    ensures Moving(d, k + 1, LeftAfter(d.q[k], left, d.term.icanon), out + Given(d.q[k]))
  {
    assert d.q[k..][1..] == d.q[k + 1..];
    BytesUpTo(d.q, k);
    Assoc(d.served, Bytes(d.q[..k]), Given(d.q[k]));
  }

  lemma MoveDone(d: Line, k: nat, left: nat, out: seq<int>)
    requires Moving(d, k, left, out) && (left == 0 || Eots(d.q[k..]) == 0)
    ensures Transferred(d) == d.(q := d.q[k..], left := left, served := out)
  {
  }

  /** in_process() has taken `k` bytes and is in state `d`; it goes on unless `more` is false. */
  ghost predicate Fed(d0: Line, buf: seq<int>, size: nat, d: Line, k: nat, more: bool) {
    k <= |buf| && FeedAll(d0, buf, size) == if more then Plus(FeedAll(d, buf[k..], size), k) else (d, k)
  }

  lemma FeedStep(d0: Line, buf: seq<int>, size: nat, d: Line, k: nat)
    requires k < |buf| && Fed(d0, buf, size, d, k, true)
    ensures var (e, more) := Feed(d, buf[k], size); Fed(d0, buf, size, e, if more then k + 1 else k, more)
  {
    assert buf[k..][1..] == buf[k + 1..];
  }

  function Plus(r: (Line, nat), n: nat): (Line, nat) {
    (r.0, r.1 + n)
  }
}
