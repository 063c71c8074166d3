/**
 The input side of the terminal driver, drivers/tty/tty.c, as a function of what is typed:
 how a byte is interpreted, what it does to the queue, and what a reader gets.

 Entries are compared here without the echoed length they also carry, which matters to the
 screen only.
 */
module LineDiscipline {

  const POSIX_VDISABLE := 0xFF
  const CR := 13
  const LF := 10
  const SIGINT := 2
  const SIGQUIT := 3

  /** An entry of the input queue: the character, its length on the screen, and its flags. */
  datatype InCh = InCh(code: int, len: nat, eot: bool, eof: bool, esc: bool)

  /** The termios settings that input processing looks at. */
  datatype Termios = Termios(
    istrip: bool, ignCr: bool, icrnl: bool, inlcr: bool, ixon: bool, ixany: bool,
    iexten: bool, icanon: bool, isig: bool, echo: bool, echonl: bool, echoe: bool, noflsh: bool,
    lnext: int, reprint: int, erase: int, kill: int, eof: int, eol: int, stop: int, start: int,
    intr: int, quit: int, vmin: nat, vtime: nat, hungUp: bool)

  /**
   The driver's state for one line: the queue, the ^V and ^S flags, the minimum a read
   waits for, how much the pending read still wants, and everything readers got so far.
   */
  datatype Line = Line(
    term: Termios, q: seq<InCh>, escaped: bool, inhibited: bool, min: nat, left: nat, served: seq<int>)

  function Char(c: int): InCh { InCh(c, 0, false, false, false) }

  // ---- The queue ----------------------------------------------------------------------

  function Plain(ch: InCh): InCh { ch.(len := 0) }

  function PlainAll(q: seq<InCh>): (r: seq<InCh>)
    ensures |r| == |q| && forall i :: 0 <= i < |q| ==> r[i] == Plain(q[i])
  {
    seq(|q|, i requires 0 <= i < |q| => Plain(q[i]))
  }

  /** How many entries are line breaks. */
  function Eots(q: seq<InCh>): nat {
    if q == [] then 0 else (if q[0].eot then 1 else 0) + Eots(q[1..])
  }

  function Given(ch: InCh): (r: seq<int>)
    ensures |r| == if ch.eof then 0 else 1
  {
    if ch.eof then [] else [ch.code]
  }

  /** The bytes a reader gets for the entries; end-of-file marks are not delivered. */
  function Bytes(q: seq<InCh>): (r: seq<int>)
    ensures |r| <= |q|
  {
    if q == [] then [] else Given(q[0]) + Bytes(q[1..])
  }

  /** The position behind the last line break: erase and kill stop there. */
  function Break(q: seq<InCh>): (k: nat)
    ensures k <= |q| && (k > 0 ==> q[k - 1].eot)
    ensures forall i :: k <= i < |q| ==> !q[i].eot
  {
    if q == [] || q[|q| - 1].eot then |q| else Break(q[..|q| - 1])
  }

  /** What every step keeps: end-of-file marks are line breaks; without canonical mode all entries are. */
  ghost predicate LineOk(d: Line, size: nat) {
    && |d.q| <= size && (forall i :: 0 <= i < |d.q| && d.q[i].eof ==> d.q[i].eot)
    && (!d.term.icanon ==> forall i :: 0 <= i < |d.q| ==> d.q[i].eot)
  }

  lemma {:induction false} EotsAppend(q: seq<InCh>, ch: InCh)
    ensures Eots(q + [ch]) == Eots(q) + if ch.eot then 1 else 0
  {
    if q != [] {
      EotsAppend(q[1..], ch);
      assert (q + [ch])[1..] == q[1..] + [ch];
    }
  }

  lemma {:induction false} EotsZero(q: seq<InCh>)
    ensures Eots(q) == 0 <==> forall i :: 0 <= i < |q| ==> !q[i].eot
    ensures Eots(q) == 0 <==> Break(q) == 0
    ensures Eots(q) <= |q|
  {
    if q != [] {
      EotsZero(q[1..]);
      assert forall i :: 0 <= i < |q[1..]| ==> q[1..][i] == q[i + 1];
    }
  }

  lemma {:induction false} EotsAll(q: seq<InCh>)
    requires forall i :: 0 <= i < |q| ==> q[i].eot
    ensures Eots(q) == |q|
  {
    if q != [] {
      EotsAll(q[1..]);
    }
  }

  lemma Assoc(a: seq<int>, b: seq<int>, c: seq<int>)
    ensures (a + b) + c == a + (b + c)
  {
  }

  lemma {:induction false} BytesConcat(p: seq<InCh>, q: seq<InCh>)
    ensures Bytes(p + q) == Bytes(p) + Bytes(q)
  {
    if p == [] {
      assert p + q == q;
    } else {
      BytesConcat(p[1..], q);
      assert (p + q)[1..] == p[1..] + q && (p + q)[0] == p[0];
      Assoc(Given(p[0]), Bytes(p[1..]), Bytes(q));
    }
  }

  lemma BreakIs(q: seq<InCh>, k: nat)
    requires k <= |q| && (k > 0 ==> q[k - 1].eot) && forall i :: k <= i < |q| ==> !q[i].eot
    ensures Break(q) == k
  {
  }

  // ---- Reading: in_transfer() -----------------------------------------------------------

  /** How many entries the transfer loop takes off the queue for a reader that wants `left` bytes. */
  function Taken(q: seq<InCh>, left: nat, canon: bool): (k: nat)
    ensures k <= |q|
  {
    if left == 0 || Eots(q) == 0 then 0
    else if q[0].eot && canon then 1
    else 1 + Taken(q[1..], if q[0].eof then left else left - 1, canon)
  }

  /** What the reader still wants after it. */
  function Wanted(q: seq<InCh>, left: nat, canon: bool): nat {
    if left == 0 || Eots(q) == 0 then left
    else if q[0].eot && canon then 0
    else Wanted(q[1..], if q[0].eof then left else left - 1, canon)
  }

  function Transferred(d: Line): Line {
    var k := Taken(d.q, d.left, d.term.icanon);
    d.(q := d.q[k..], left := Wanted(d.q, d.left, d.term.icanon), served := d.served + Bytes(d.q[..k]))
  }

  /** in_transfer() */
  function InTransfer(d: Line): Line {
    var e := if d.term.hungUp then d.(min := 0) else d;
    if e.left == 0 || Eots(e.q) < e.min then e else Transferred(e)
  }

  /** The length of the first line in the queue, its line break included. */
  function FirstLine(q: seq<InCh>): (k: nat)
    ensures k <= |q| && (Eots(q) > 0 ==> 0 < k && q[k - 1].eot)
    ensures forall i :: 0 <= i < k - 1 ==> !q[i].eot
  {
    if q == [] then 0 else if q[0].eot then 1 else 1 + FirstLine(q[1..])
  }

  /** A canonical read takes the first line and never more, or as much of it as was asked for. */
  lemma {:induction false} CanonicalRead(q: seq<InCh>, left: nat)
    requires left > 0 && Eots(q) > 0 && forall i :: 0 <= i < |q| && q[i].eof ==> q[i].eot
    ensures Taken(q, left, true) == if left < FirstLine(q) then left else FirstLine(q)
    ensures Wanted(q, left, true) == 0
  {
    if !q[0].eot && left > 1 {
      CanonicalRead(q[1..], left - 1);
    }
  }

  /**
   A raw read delivers what there is, up to what was asked for; end-of-file marks that are
   left from canonical mode are passed over.
   */
  lemma {:induction false} RawRead(q: seq<InCh>, left: nat)
    requires forall i :: 0 <= i < |q| ==> q[i].eot
    ensures |Bytes(q[..Taken(q, left, false)])| == if left < |Bytes(q)| then left else |Bytes(q)|
    ensures Wanted(q, left, false) == left - |Bytes(q[..Taken(q, left, false)])|
  {
    EotsAll(q);
    if q != [] && left > 0 {
      var l := if q[0].eof then left else left - 1;
      var k := Taken(q[1..], l, false);
      RawRead(q[1..], l);
      assert q[..k + 1][1..] == q[1..][..k];
    }
  }

  /** A read never takes an unfinished line. */
  lemma {:induction false} ReadStops(q: seq<InCh>, left: nat, canon: bool)
    ensures Taken(q, left, canon) <= Break(q)
  {
    EotsZero(q);
    if left > 0 && Eots(q) > 0 && !(q[0].eot && canon) {
      ReadStops(q[1..], if q[0].eof then left else left - 1, canon);
      BreakTail(q);
    }
  }

  /** A read delivers no more than was asked for. */
  lemma {:induction false} ReadBounds(q: seq<InCh>, left: nat, canon: bool)
    ensures |Bytes(q[..Taken(q, left, canon)])| + Wanted(q, left, canon) <= left
  {
    if left > 0 && Eots(q) > 0 {
      var l := if q[0].eof then left else left - 1;
      if q[0].eot && canon {
        assert q[..1][1..] == [];
      } else {
        var k := Taken(q[1..], l, canon);
        ReadBounds(q[1..], l, canon);
        assert q[..k + 1][1..] == q[1..][..k];
      }
    }
  }

  lemma BreakTail(q: seq<InCh>)
    requires Eots(q) > 0
    ensures Break(q) > 0 && Break(q[1..]) == Break(q) - 1
  {
    EotsZero(q);
    BreakIs(q[1..], Break(q) - 1);
  }

  // ---- Interpreting a byte: in_process() ------------------------------------------------

  datatype Act = Ignore | Reprint | Erase | Kill | Signal(sig: int) | Save(ch: InCh)
  datatype Verdict = Verdict(act: Act, escaped: bool, inhibited: bool)

  /** The byte as it arrives, stripped and protected by a preceding LNEXT. */
  function Literal(t: Termios, escaped: bool, byte: int): InCh {
    InCh(if t.istrip then byte % 128 else byte, 0, false, false, t.iexten && escaped)
  }

  /** A disabled character is protected, and CR and LF are mapped. */
  function Mapped(t: Termios, ch: InCh): InCh {
    if ch == Char(POSIX_VDISABLE) then ch.(esc := true)
    else if ch == Char(CR) && t.icrnl then Char(LF)
    else if ch == Char(LF) && t.inlcr then Char(CR)
    else ch
  }

  /** Line breaks of canonical mode. */
  function Marked(t: Termios, ch: InCh): InCh {
    var a := if ch == Char(t.eof) then ch.(eot := true, eof := true) else ch;
    var b := if a == Char(LF) then a.(eot := true) else a;
    if b == Char(t.eol) then b.(eot := true) else b
  }

  function Decide(t: Termios, escaped: bool, inhibited: bool, byte: int): Verdict {
    var raw, esc := Literal(t, escaped, byte), escaped && !t.iexten;
    if t.iexten && raw == Char(t.lnext) then Verdict(Ignore, true, inhibited)
    else if t.iexten && raw == Char(t.reprint) then Verdict(Reprint, esc, inhibited)
    else if raw == Char(CR) && t.ignCr then Verdict(Ignore, esc, inhibited)
    else Edit(t, esc, inhibited, Mapped(t, raw))
  }

  /** The editing characters of canonical mode. */
  function Edit(t: Termios, esc: bool, inhibited: bool, ch: InCh): Verdict {
    if !t.icanon then Control(t, esc, inhibited, ch)
    else if ch == Char(t.erase) then Verdict(Erase, esc, inhibited)
    else if ch == Char(t.kill) then Verdict(Kill, esc, inhibited)
    else Control(t, esc, inhibited, Marked(t, ch))
  }

  /** Flow control, signals, and whatever is left to store. */
  function Control(t: Termios, esc: bool, inhibited: bool, ch: InCh): Verdict {
    if t.ixon && ch == Char(t.stop) then Verdict(Ignore, esc, true)
    else
      var resumes := t.ixon && inhibited && (ch == Char(t.start) || t.ixany);
      if resumes && ch == Char(t.start) then Verdict(Ignore, esc, false)
      else if t.isig && (ch == Char(t.intr) || ch == Char(t.quit)) then
        Verdict(Signal(if ch == Char(t.quit) then SIGQUIT else SIGINT), esc, inhibited && !resumes)
      else Verdict(Save(ch), esc, inhibited && !resumes)
  }

  // ---- What a byte means, in terms of the settings --------------------------------------

  /** The byte comes behind an LNEXT. */
  predicate Quoted(t: Termios, escaped: bool) { t.iexten && escaped }

  function Bits(t: Termios, byte: int): int { if t.istrip then byte % 128 else byte }

  predicate IsLnext(t: Termios, escaped: bool, byte: int) {
    t.iexten && !escaped && Bits(t, byte) == t.lnext
  }

  predicate IsReprint(t: Termios, escaped: bool, byte: int) {
    t.iexten && !escaped && Bits(t, byte) == t.reprint != t.lnext
  }

  predicate IsDropped(t: Termios, escaped: bool, byte: int) {
    !Quoted(t, escaped) && Bits(t, byte) == CR && t.ignCr && !(t.iexten && CR in {t.lnext, t.reprint})
  }

  /** The byte gets past the first tests. */
  predicate Arrives(t: Termios, escaped: bool, byte: int) {
    !IsLnext(t, escaped, byte) && !IsReprint(t, escaped, byte) && !IsDropped(t, escaped, byte)
  }

  /** Its value, with CR and LF exchanged as ICRNL and INLCR say. */
  function Meant(t: Termios, escaped: bool, byte: int): int {
    if Quoted(t, escaped) then Bits(t, byte)
    else if Bits(t, byte) == CR && t.icrnl then LF
    else if Bits(t, byte) == LF && t.inlcr then CR
    else Bits(t, byte)
  }

  /** It stands for `c` and may act as the control character `c`: it is neither quoted nor 0xFF. */
  predicate Acts(t: Termios, escaped: bool, byte: int, c: int) {
    Arrives(t, escaped, byte) && !Quoted(t, escaped) && Meant(t, escaped, byte) == c != POSIX_VDISABLE
  }

  predicate IsErase(t: Termios, escaped: bool, byte: int) {
    t.icanon && Acts(t, escaped, byte, t.erase)
  }

  predicate IsKill(t: Termios, escaped: bool, byte: int) {
    t.icanon && Acts(t, escaped, byte, t.kill) && t.kill != t.erase
  }

  predicate IsEof(t: Termios, escaped: bool, byte: int) {
    t.icanon && Acts(t, escaped, byte, t.eof) && t.eof !in {t.erase, t.kill}
  }

  /** It ends a line. */
  predicate IsBreak(t: Termios, escaped: bool, byte: int) {
    && t.icanon && Meant(t, escaped, byte) in {LF, t.eol, t.eof}
    && Acts(t, escaped, byte, Meant(t, escaped, byte)) && Meant(t, escaped, byte) !in {t.erase, t.kill}
  }

  predicate IsEditing(t: Termios, escaped: bool, byte: int) {
    IsErase(t, escaped, byte) || IsKill(t, escaped, byte) || IsBreak(t, escaped, byte)
  }

  predicate IsStop(t: Termios, escaped: bool, byte: int) {
    t.ixon && Acts(t, escaped, byte, t.stop) && !IsEditing(t, escaped, byte)
  }

  /** START does something only while output is stopped. */
  predicate IsStart(t: Termios, escaped: bool, inhibited: bool, byte: int) {
    && t.ixon && inhibited && Acts(t, escaped, byte, t.start)
    && !IsEditing(t, escaped, byte) && !IsStop(t, escaped, byte)
  }

  predicate IsSignal(t: Termios, escaped: bool, inhibited: bool, byte: int) {
    && t.isig && (Acts(t, escaped, byte, t.intr) || Acts(t, escaped, byte, t.quit))
    && !IsEditing(t, escaped, byte) && !IsStop(t, escaped, byte) && !IsStart(t, escaped, inhibited, byte)
  }

  /** IXANY: whatever is typed, but for the editing characters and STOP, resumes output. */
  predicate Resumes(t: Termios, escaped: bool, byte: int) {
    && t.ixon && t.ixany && Arrives(t, escaped, byte)
    && !IsErase(t, escaped, byte) && !IsKill(t, escaped, byte) && !IsStop(t, escaped, byte)
  }

  /** The entry that is stored for the byte if it is none of the above. */
  function Entry(t: Termios, escaped: bool, byte: int): InCh {
    InCh(Meant(t, escaped, byte), 0, IsBreak(t, escaped, byte), IsEof(t, escaped, byte),
         Quoted(t, escaped) || Bits(t, byte) == POSIX_VDISABLE)
  }

  /** It becomes text. */
  predicate IsText(t: Termios, escaped: bool, inhibited: bool, byte: int) {
    && Arrives(t, escaped, byte) && !IsErase(t, escaped, byte) && !IsKill(t, escaped, byte)
    && !IsStop(t, escaped, byte) && !IsStart(t, escaped, inhibited, byte) && !IsSignal(t, escaped, inhibited, byte)
  }

  predicate EscapedAfter(t: Termios, escaped: bool, byte: int) {
    IsLnext(t, escaped, byte) || (escaped && !t.iexten)
  }

  predicate InhibitedAfter(t: Termios, escaped: bool, inhibited: bool, byte: int) {
    IsStop(t, escaped, byte) ||
    (inhibited && !IsStart(t, escaped, inhibited, byte) && !Resumes(t, escaped, byte))
  }

  /** What in_process() has to make of a byte, case by case. */
  predicate Meaning(t: Termios, escaped: bool, inhibited: bool, byte: int, v: Verdict) {
    && (v.act == Reprint <==> IsReprint(t, escaped, byte))
    && (v.act == Erase <==> IsErase(t, escaped, byte)) && (v.act == Kill <==> IsKill(t, escaped, byte))
    && (v.act.Signal? <==> IsSignal(t, escaped, inhibited, byte))
    && (v.act.Signal? ==> v.act.sig == if Meant(t, escaped, byte) == t.quit then SIGQUIT else SIGINT)
    && (v.act == Ignore <==> IsLnext(t, escaped, byte) || IsDropped(t, escaped, byte) ||
                             IsStop(t, escaped, byte) || IsStart(t, escaped, inhibited, byte))
    && (v.act.Save? <==> IsText(t, escaped, inhibited, byte))
    && (v.act.Save? ==> v.act.ch == Entry(t, escaped, byte))
    && v.escaped == EscapedAfter(t, escaped, byte)
    && v.inhibited == InhibitedAfter(t, escaped, inhibited, byte)
  }

  /** A byte that gets past the first tests: what it stands for, and whether it is protected. */
  lemma ArrivesAs(t: Termios, escaped: bool, byte: int)
    requires Arrives(t, escaped, byte)
    ensures var prot := Quoted(t, escaped) || Bits(t, byte) == POSIX_VDISABLE;
            && Mapped(t, Literal(t, escaped, byte)) == InCh(Meant(t, escaped, byte), 0, false, false, prot)
            && forall c :: Acts(t, escaped, byte, c) <==> !prot && Meant(t, escaped, byte) == c
  {
  }

  lemma BreakMeans(t: Termios, escaped: bool, byte: int)
    requires Arrives(t, escaped, byte) && t.icanon
    requires !IsErase(t, escaped, byte) && !IsKill(t, escaped, byte)
    ensures Marked(t, Mapped(t, Literal(t, escaped, byte))) == Entry(t, escaped, byte)
  {
    ArrivesAs(t, escaped, byte);
  }

  lemma EditMeans(t: Termios, escaped: bool, inhibited: bool, byte: int)
    requires Arrives(t, escaped, byte)
    ensures var v := Edit(t, escaped && !t.iexten, inhibited, Mapped(t, Literal(t, escaped, byte)));
            if IsErase(t, escaped, byte) then v == Verdict(Erase, escaped && !t.iexten, inhibited)
            else if IsKill(t, escaped, byte) then v == Verdict(Kill, escaped && !t.iexten, inhibited)
            else v == Control(t, escaped && !t.iexten, inhibited, Entry(t, escaped, byte))
  {
    ArrivesAs(t, escaped, byte);
    if t.icanon && !IsErase(t, escaped, byte) && !IsKill(t, escaped, byte) {
      BreakMeans(t, escaped, byte);
    }
  }

  /** Flow control and signals look at bytes that are no editing characters. */
  lemma ControlMeans(t: Termios, escaped: bool, inhibited: bool, byte: int)
    requires Arrives(t, escaped, byte) && !IsErase(t, escaped, byte) && !IsKill(t, escaped, byte)
    ensures Meaning(t, escaped, inhibited, byte,
                    Control(t, escaped && !t.iexten, inhibited, Entry(t, escaped, byte)))
  {
    ArrivesAs(t, escaped, byte);
    forall c
      ensures Entry(t, escaped, byte) == Char(c) <==> Acts(t, escaped, byte, c) && !IsBreak(t, escaped, byte)
    {
    }
  }

  /** in_process() makes of every byte what the settings say. */
  lemma DecideMeans(t: Termios, escaped: bool, inhibited: bool, byte: int)
    ensures Meaning(t, escaped, inhibited, byte, Decide(t, escaped, inhibited, byte))
  {
    if Arrives(t, escaped, byte) {
      EditMeans(t, escaped, inhibited, byte);
      if !IsErase(t, escaped, byte) && !IsKill(t, escaped, byte) {
        ControlMeans(t, escaped, inhibited, byte);
      }
    }
  }

  /** The byte after LNEXT means itself. */
  lemma EscapedIsLiteral(t: Termios, inhibited: bool, byte: int)
    requires t.iexten
    ensures Decide(t, true, inhibited, byte).act == Save(Literal(t, true, byte))
    ensures !Decide(t, true, inhibited, byte).escaped
  {
    assert Mapped(t, Literal(t, true, byte)) == Literal(t, true, byte);
    assert Marked(t, Literal(t, true, byte)) == Literal(t, true, byte);
  }

  // ---- Disabled control characters --------------------------------------------------------

  /** No byte comes out of the mapping as a bare 0xFF. */
  lemma NeverBare(t: Termios, escaped: bool, byte: int)
    ensures Mapped(t, Literal(t, escaped, byte)) != Char(POSIX_VDISABLE)
    ensures Marked(t, Mapped(t, Literal(t, escaped, byte))) != Char(POSIX_VDISABLE)
  {
  }

  /** The character as flow control and signals see it. */
  function Typed(t: Termios, escaped: bool, byte: int): InCh {
    var ch := Mapped(t, Literal(t, escaped, byte));
    if t.icanon then Marked(t, ch) else ch
  }

  /** What a byte must be to erase, to kill, to signal. */
  lemma ActsOnlyIf(t: Termios, escaped: bool, inhibited: bool, byte: int)
    ensures var act := Decide(t, escaped, inhibited, byte).act;
            && (act == Erase ==> Mapped(t, Literal(t, escaped, byte)) == Char(t.erase))
            && (act == Kill ==> Mapped(t, Literal(t, escaped, byte)) == Char(t.kill))
            && (act.Signal? ==> Typed(t, escaped, byte) in {Char(t.intr), Char(t.quit)})
  {
  }

  /**
   Erase and kill set to _POSIX_VDISABLE cannot be typed; of INTR and QUIT only one that is
   not disabled signals.
   */
  lemma DisabledNeverActs(t: Termios, escaped: bool, inhibited: bool, byte: int)
    ensures var act := Decide(t, escaped, inhibited, byte).act;
            && (t.erase == POSIX_VDISABLE ==> act != Erase)
            && (t.kill == POSIX_VDISABLE ==> act != Kill)
            && (act.Signal? && t.intr == POSIX_VDISABLE ==> Typed(t, escaped, byte) == Char(t.quit))
            && (act.Signal? && t.quit == POSIX_VDISABLE ==> Typed(t, escaped, byte) == Char(t.intr))
            && (t.intr == t.quit == POSIX_VDISABLE ==> !act.Signal?)
  {
    NeverBare(t, escaped, byte);
    ActsOnlyIf(t, escaped, inhibited, byte);
  }

  /** Disabled EOF and EOL make no line breaks: what is stored as one is a line feed or the other of them. */
  lemma DisabledNeverBreaks(t: Termios, escaped: bool, inhibited: bool, byte: int)
    requires Decide(t, escaped, inhibited, byte).act.Save?
    ensures var ch := Decide(t, escaped, inhibited, byte).act.ch;
            && (t.eof == POSIX_VDISABLE ==> !ch.eof)
            && (t.eol == POSIX_VDISABLE && ch.eot ==> ch.code == LF || ch.eof)
  {
    NeverBare(t, escaped, byte);
  }

  /** Disabled STOP and START: output is not stopped, and only IXANY resumes it. */
  lemma DisabledFlow(t: Termios, escaped: bool, inhibited: bool, byte: int)
    ensures t.stop == POSIX_VDISABLE && Decide(t, escaped, inhibited, byte).inhibited ==> inhibited
    ensures t.start == POSIX_VDISABLE && inhibited && !Decide(t, escaped, inhibited, byte).inhibited ==> t.ixany
  {
    NeverBare(t, escaped, byte);
  }

  /** The byte acts as LNEXT: it turns the escape flag on, rather than leaving it on. */
  predicate Escapes(t: Termios, escaped: bool, inhibited: bool, byte: int) {
    Decide(t, escaped, inhibited, byte).escaped && (t.iexten || !escaped)
  }

  /** What the first two tests of in_process() decide. */
  lemma FirstTests(t: Termios, escaped: bool, inhibited: bool, byte: int)
    ensures Escapes(t, escaped, inhibited, byte) <==> t.iexten && Literal(t, escaped, byte) == Char(t.lnext)
    ensures Decide(t, escaped, inhibited, byte).act == Reprint <==>
            t.iexten && Literal(t, escaped, byte) == Char(t.reprint) != Char(t.lnext)
  {
  }

  /** LNEXT set to _POSIX_VDISABLE can still be typed iff IEXTEN is on and ISTRIP is off. */
  lemma LnextDisabledIff(t: Termios, inhibited: bool)
    requires t.lnext == POSIX_VDISABLE
    ensures (exists escaped, byte :: 0 <= byte <= 0xFF && Escapes(t, escaped, inhibited, byte)) <==>
            t.iexten && !t.istrip
  {
    forall escaped, byte | 0 <= byte <= 0xFF
      ensures Escapes(t, escaped, inhibited, byte) ==> t.iexten && !t.istrip
    {
      FirstTests(t, escaped, inhibited, byte);
    }
    FirstTests(t, false, inhibited, POSIX_VDISABLE);
  }

  /** So can REPRINT, unless LNEXT is set to the same value and takes the byte. */
  lemma ReprintDisabledIff(t: Termios, inhibited: bool)
    requires t.reprint == POSIX_VDISABLE
    ensures (exists escaped, byte :: 0 <= byte <= 0xFF && Decide(t, escaped, inhibited, byte).act == Reprint) <==>
            t.iexten && !t.istrip && t.lnext != POSIX_VDISABLE
  {
    forall escaped, byte | 0 <= byte <= 0xFF
      ensures Decide(t, escaped, inhibited, byte).act == Reprint ==>
        t.iexten && !t.istrip && t.lnext != POSIX_VDISABLE
    {
      FirstTests(t, escaped, inhibited, byte);
    }
    FirstTests(t, false, inhibited, POSIX_VDISABLE);
  }

  // ---- What a byte does -----------------------------------------------------------------

  function Erased(q: seq<InCh>): seq<InCh> {
    if q == [] || q[|q| - 1].eot then q else q[..|q| - 1]
  }

  /** The queue part of sigchar(). */
  function Flushed(d: Line): Line {
    if d.term.noflsh then d else d.(q := [], inhibited := false)
  }

  function Stored(d: Line, ch: InCh, size: nat): Line {
    var e := d.(q := d.q + [if d.term.icanon then ch else ch.(eot := true)]);
    if |e.q| == size then InTransfer(e) else e
  }

  /** What an action does; the flag says whether the byte was taken. */
  function Acted(d: Line, act: Act, size: nat): (r: (Line, bool))
    ensures r.0.term == d.term
  {
    match act
    case Ignore => (d, true)
    case Reprint => (d, true)
    case Erase => (d.(q := Erased(d.q)), true)
    case Kill => (d.(q := d.q[..Break(d.q)]), true)
    case Signal(_) => (Flushed(d), true)
    case Save(ch) => if |d.q| == size then (d, d.term.icanon) else (Stored(d, ch, size), true)
  }

  /** One round of in_process(). */
  function Feed(d: Line, byte: int, size: nat): (r: (Line, bool))
    ensures r.0.term == d.term
  {
    var v := Decide(d.term, d.escaped, d.inhibited, byte);
    Acted(d.(escaped := v.escaped, inhibited := v.inhibited), v.act, size)
  }

  /**
   The byte after LNEXT is stored whatever it is, and in canonical mode never as a line break;
   only a full queue turns it away, and then raw mode leaves it with the device.
   */
  lemma EscapedIsStored(d: Line, byte: int, size: nat)
    requires d.term.iexten && d.escaped && |d.q| <= size
    ensures var (e, taken) := Feed(d, byte, size);
            && !e.escaped && (taken <==> |d.q| < size || d.term.icanon)
            && (|d.q| == size ==> e.q == d.q)
            && (|d.q| + 1 < size ==> e.q == d.q + [Literal(d.term, true, byte).(eot := !d.term.icanon)])
  {
    EscapedIsLiteral(d.term, d.inhibited, byte);
  }

  /** in_process(): the state after it and the number of bytes it took. */
  function FeedAll(d: Line, buf: seq<int>, size: nat): (Line, nat)
    decreases |buf|
  {
    if buf == [] then (d, 0)
    else
      var (e, more) := Feed(d, buf[0], size);
      if !more then (e, 0) else var (f, n) := FeedAll(e, buf[1..], size); (f, n + 1)
  }

  /** do_read() for `count` bytes, up to its first in_transfer(). */
  function Asked(d: Line, count: nat): Line {
    InTransfer(Prepared(d, count))
  }

  function Prepared(d: Line, count: nat): (e: Line)
    ensures e == d.(left := count, min := e.min)
  {
    if d.term.icanon || d.term.vtime == 0 then d.(left := count)
    else if d.term.vmin == 0 then d.(left := count, min := 1)
    else if Eots(d.q) == 0 then d.(left := count, min := d.term.vmin)
    else d.(left := count)
  }

  function AllEot(q: seq<InCh>): (r: seq<InCh>)
    ensures |r| == |q| && forall i :: 0 <= i < |q| ==> r[i] == q[i].(eot := true)
  {
    seq(|q|, i requires 0 <= i < |q| => q[i].(eot := true))
  }

  /** setattr() with new attributes. */
  function Configured(d: Line, t: Termios): Line {
    if t.hungUp then Flushed(Tuned(d, t)) else Tuned(d, t)
  }

  /** Its part before a hang-up is looked at. */
  function Tuned(d: Line, t: Termios): Line {
    d.(term := t, q := if t.icanon then d.q else AllEot(d.q),
       min := MinFor(t), inhibited := d.inhibited && t.ixon)
  }

  function MinFor(t: Termios): nat {
    if t.icanon || (t.vmin == 0 && t.vtime > 0) then 1 else t.vmin
  }
}
