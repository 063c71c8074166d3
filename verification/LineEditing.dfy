/**
 What a line of input is worth to the reader: whatever is typed, erased, killed and quoted
 before the line break, the reader gets the text that is left and the line break behind it.
 */
module LineEditing {
  import opened LineDiscipline
  import opened LineRuns

  // ---- One byte ---------------------------------------------------------------------------

  /** The queue behind one round of in_process(). */
  ghost predicate FeedOutcome(d: Line, byte: int, size: nat, e: Line, taken: bool) {
    var t, s, n := d.term, d.escaped, |d.q|;
    && e.escaped == EscapedAfter(t, s, byte)
    && if IsErase(t, s, byte) then
         taken && e == d.(q := e.q, escaped := e.escaped) &&
         e.q == if n > 0 && !d.q[n - 1].eot then d.q[..n - 1] else d.q
       else if IsKill(t, s, byte) then
         && taken && e == d.(q := e.q, escaped := e.escaped) && e.q <= d.q
         && (e.q != [] ==> e.q[|e.q| - 1].eot) && forall i :: |e.q| <= i < n ==> !d.q[i].eot
       else if IsSignal(t, s, d.inhibited, byte) then
         taken && e == d.(q := if t.noflsh then d.q else [], escaped := e.escaped, inhibited := e.inhibited) &&
         (e.inhibited ==> t.noflsh && d.inhibited)
       else if IsText(t, s, d.inhibited, byte) then
         var x := Entry(t, s, byte).(eot := !t.icanon || IsBreak(t, s, byte));
         var e0 := d.(escaped := e.escaped, inhibited := InhibitedAfter(t, s, d.inhibited, byte));
         if n == size then e == e0 && (taken <==> t.icanon)
         else taken && e == if n + 1 == size then InTransfer(e0.(q := d.q + [x])) else e0.(q := d.q + [x])
       else
         taken && e == d.(escaped := e.escaped, inhibited := InhibitedAfter(t, s, d.inhibited, byte))
  }

  lemma ActedMeans(d: Line, byte: int, size: nat, v: Verdict)
    requires Meaning(d.term, d.escaped, d.inhibited, byte, v)
    ensures var (e, taken) := Acted(d.(escaped := v.escaped, inhibited := v.inhibited), v.act, size);
            FeedOutcome(d, byte, size, e, taken)
  {
    if v.act == Erase || v.act == Kill {
      EditKeepsFlow(d.term, d.escaped, d.inhibited, byte);
    }
  }

  /** Erase and kill leave the flow of output alone. */
  lemma EditKeepsFlow(t: Termios, escaped: bool, inhibited: bool, byte: int)
    requires IsErase(t, escaped, byte) || IsKill(t, escaped, byte)
    ensures InhibitedAfter(t, escaped, inhibited, byte) == inhibited
  {
  }

  lemma FeedMeans(d: Line, byte: int, size: nat)
    ensures var (e, taken) := Feed(d, byte, size); FeedOutcome(d, byte, size, e, taken)
  {
    DecideMeans(d.term, d.escaped, d.inhibited, byte);
    ActedMeans(d, byte, size, Decide(d.term, d.escaped, d.inhibited, byte));
  }

  // ---- An unfinished line -----------------------------------------------------------------

  /** The text of the line that is being typed. */
  function Unfinished(d: Line): seq<int> { Bytes(d.q[Break(d.q)..]) }

  /** What one byte does to such a text. */
  function Typing(t: Termios, escaped: bool, inhibited: bool, line: seq<int>, byte: int): seq<int> {
    if IsErase(t, escaped, byte) then (if line == [] then [] else line[..|line| - 1])
    else if IsKill(t, escaped, byte) then []
    else if IsText(t, escaped, inhibited, byte) then line + [Meant(t, escaped, byte)]
    else line
  }

  function Edited(t: Termios, escaped: bool, inhibited: bool, line: seq<int>, text: seq<int>): seq<int>
    decreases |text|
  {
    if text == [] then line
    else Edited(t, EscapedAfter(t, escaped, text[0]), InhibitedAfter(t, escaped, inhibited, text[0]),
                Typing(t, escaped, inhibited, line, text[0]), text[1..])
  }

  /** Nothing that is typed ends the line or interrupts. */
  predicate Unbroken(t: Termios, escaped: bool, inhibited: bool, text: seq<int>)
    decreases |text|
  {
    text == [] ||
    (!IsBreak(t, escaped, text[0]) && !IsSignal(t, escaped, inhibited, text[0]) &&
     Unbroken(t, EscapedAfter(t, escaped, text[0]), InhibitedAfter(t, escaped, inhibited, text[0]), text[1..]))
  }

  /** Without end-of-file marks every entry is a byte. */
  lemma {:induction false} BytesPlain(q: seq<InCh>)
    requires forall i :: 0 <= i < |q| ==> !q[i].eof
    ensures |Bytes(q)| == |q| && forall i :: 0 <= i < |q| ==> Bytes(q)[i] == q[i].code
  {
    if q != [] {
      BytesPlain(q[1..]);
    }
  }

  lemma BytesSnoc(q: seq<InCh>, x: InCh)
    ensures Bytes(q + [x]) == Bytes(q) + Given(x)
  {
    BytesConcat(q, [x]);
    assert [x][1..] == [];
  }

  lemma BytesCut(q: seq<InCh>, b: nat)
    requires b < |q| && forall i :: b <= i < |q| ==> !q[i].eof
    ensures |Bytes(q[b..])| == |q| - b && Bytes(q[..|q| - 1][b..]) == Bytes(q[b..])[..|q| - b - 1]
  {
    BytesPlain(q[b..]);
    BytesPlain(q[..|q| - 1][b..]);
  }

  lemma TailErased(q: seq<InCh>)
    requires forall i :: 0 <= i < |q| && q[i].eof ==> q[i].eot
    ensures var b, r := Break(q), Erased(q);
            && Break(r) == b && r[..b] == q[..b] && |Bytes(q[b..])| == |q| - b
            && Bytes(r[b..]) == if b == |q| then [] else Bytes(q[b..])[..|q| - b - 1]
  {
    EditKeepsLines(q);
    if Break(q) < |q| {
      BytesCut(q, Break(q));
    }
  }

  lemma TailKilled(q: seq<InCh>, r: seq<InCh>)
    requires r <= q && (r != [] ==> r[|r| - 1].eot) && forall i :: |r| <= i < |q| ==> !q[i].eot
    ensures Break(r) == Break(q) == |r|
  {
    BreakIs(q, |r|);
  }

  lemma BreakGrown(q: seq<InCh>, x: InCh)
    requires !x.eot
    ensures Break(q + [x]) == Break(q) && (q + [x])[..Break(q)] == q[..Break(q)]
  {
    BreakIs(q + [x], Break(q));
  }

  lemma TailSnoc(q: seq<InCh>, x: InCh, b: nat)
    requires b <= |q|
    ensures Bytes((q + [x])[b..]) == Bytes(q[b..]) + Given(x)
  {
    BytesSnoc(q[b..], x);
    assert (q + [x])[b..] == q[b..] + [x];
  }

  lemma TailGrown(q: seq<InCh>, x: InCh)
    requires !x.eot && !x.eof
    ensures var b, r := Break(q), q + [x];
            Break(r) == b && r[..b] == q[..b] && Bytes(r[b..]) == Bytes(q[b..]) + [x.code]
  {
    BreakGrown(q, x);
    TailSnoc(q, x, Break(q));
  }

  /** The state behind `e` differs from `d` in the unfinished line and the two flags only. */
  ghost predicate SameLines(d: Line, e: Line) {
    && e == d.(q := e.q, escaped := e.escaped, inhibited := e.inhibited)
    && Break(e.q) == Break(d.q) && e.q[..Break(e.q)] == d.q[..Break(d.q)]
  }

  lemma TypingStep(d: Line, byte: int, size: nat, e: Line, taken: bool)
    requires FeedOutcome(d, byte, size, e, taken)
    requires LineOk(d, size) && d.term.icanon && |d.q| + 1 < size
    requires !IsBreak(d.term, d.escaped, byte) && !IsSignal(d.term, d.escaped, d.inhibited, byte)
    ensures taken && SameLines(d, e) && |e.q| <= |d.q| + 1
    ensures e.inhibited == InhibitedAfter(d.term, d.escaped, d.inhibited, byte)
    ensures Unfinished(e) == Typing(d.term, d.escaped, d.inhibited, Unfinished(d), byte)
  {
    if IsErase(d.term, d.escaped, byte) {
      EditKeepsFlow(d.term, d.escaped, d.inhibited, byte);
      ErasingStep(d, byte, size, e, taken);
    } else if IsKill(d.term, d.escaped, byte) {
      EditKeepsFlow(d.term, d.escaped, d.inhibited, byte);
      KillingStep(d, byte, size, e, taken);
    } else if IsText(d.term, d.escaped, d.inhibited, byte) {
      TailGrown(d.q, Entry(d.term, d.escaped, byte));
    }
  }

  lemma ErasingStep(d: Line, byte: int, size: nat, e: Line, taken: bool)
    requires FeedOutcome(d, byte, size, e, taken) && LineOk(d, size) && IsErase(d.term, d.escaped, byte)
    ensures taken && SameLines(d, e) && |e.q| <= |d.q| && e.inhibited == d.inhibited
    ensures Unfinished(e) == Typing(d.term, d.escaped, d.inhibited, Unfinished(d), byte)
  {
    assert e.q == Erased(d.q);
    TailErased(d.q);
  }

  lemma KillingStep(d: Line, byte: int, size: nat, e: Line, taken: bool)
    requires FeedOutcome(d, byte, size, e, taken) && IsKill(d.term, d.escaped, byte)
    ensures taken && SameLines(d, e) && |e.q| <= |d.q| && e.inhibited == d.inhibited
    ensures Unfinished(e) == []
  {
    TailKilled(d.q, e.q);
  }

  /**
   Typing, erasing, killing and quoting: the unfinished line holds what is left of the text,
   and the lines before it are as they were.
   */
  lemma {:induction false} TypingEdits(d: Line, text: seq<int>, size: nat)
    requires LineOk(d, size) && d.term.icanon && |d.q| + |text| < size
    requires Unbroken(d.term, d.escaped, d.inhibited, text)
    ensures var (e, n) := FeedAll(d, text, size);
            && n == |text| && SameLines(d, e) && LineOk(e, size) && |e.q| <= |d.q| + |text|
            && Unfinished(e) == Edited(d.term, d.escaped, d.inhibited, Unfinished(d), text)
    decreases |text|
  {
    if text != [] {
      FeedMeans(d, text[0], size);
      TypingStep(d, text[0], size, Feed(d, text[0], size).0, Feed(d, text[0], size).1);
      FeedReady(d, text[0], size);
      TypingEdits(Feed(d, text[0], size).0, text[1..], size);
    }
  }

  // ---- The end of the line ------------------------------------------------------------------

  /** Typing a line break completes the line; a queue that is full by then is read from at once. */
  lemma BreakEndsLine(d: Line, byte: int, size: nat)
    requires LineOk(d, size) && |d.q| < size && IsBreak(d.term, d.escaped, byte)
    ensures var x := Entry(d.term, d.escaped, byte);
            var f := d.(q := d.q + [x], escaped := EscapedAfter(d.term, d.escaped, byte),
                        inhibited := InhibitedAfter(d.term, d.escaped, d.inhibited, byte));
            && Feed(d, byte, size) == (if |f.q| == size then InTransfer(f) else f, true)
            && Eots(f.q) == Eots(d.q) + 1 && Break(f.q) == |f.q| && LineOk(f, size)
  {
    DecideMeans(d.term, d.escaped, d.inhibited, byte);
    EotsAppend(d.q, Entry(d.term, d.escaped, byte));
  }

  /** The Enter key: CR under ICRNL, or LF without INLCR, that is no other control character. */
  lemma EnterIsBreak(t: Termios, escaped: bool, byte: int)
    requires t.icanon && !Quoted(t, escaped)
    requires (byte == CR && t.icrnl && !t.ignCr) || (byte == LF && !t.inlcr)
    requires !(t.iexten && byte in {t.lnext, t.reprint}) && LF !in {t.erase, t.kill}
    ensures IsBreak(t, escaped, byte) && Meant(t, escaped, byte) == LF
    ensures t.eof != LF ==> Given(Entry(t, escaped, byte)) == [LF]
  {
  }

  lemma {:induction false} FeedAllSnoc(d: Line, text: seq<int>, byte: int, size: nat)
    requires FeedAll(d, text, size).1 == |text|
    ensures FeedAll(d, text + [byte], size).0 == Feed(FeedAll(d, text, size).0, byte, size).0
    decreases |text|
  {
    if text == [] {
      assert (text + [byte])[1..] == [];
    } else {
      assert (text + [byte])[1..] == text[1..] + [byte];
      FeedAllSnoc(Feed(d, text[0], size).0, text[1..], byte, size);
    }
  }

  function First(s: seq<int>, n: nat): seq<int> { if n < |s| then s[..n] else s }

  lemma {:induction false} FirstBytes(q: seq<InCh>, left: nat)
    requires q != [] && forall i :: 0 <= i < |q| - 1 ==> !q[i].eof
    ensures Bytes(q[..if left < |q| then left else |q|]) == First(Bytes(q), left)
  {
    if left >= |q| {
      assert q[..|q|] == q;
    } else if left > 0 {
      FirstBytes(q[1..], left - 1);
      assert q[..left][1..] == q[1..][..left - 1];
    }
  }

  /** A queue that is one line: a read takes its bytes, as far as they were asked for. */
  lemma OneLineRead(d: Line)
    requires d.term.icanon && !d.term.hungUp && d.min <= 1 && d.left > 0
    requires d.q != [] && d.q[|d.q| - 1].eot && forall i :: 0 <= i < |d.q| - 1 ==> !d.q[i].eot && !d.q[i].eof
    ensures InTransfer(d).left == 0 && InTransfer(InTransfer(d)) == InTransfer(d)
    ensures InTransfer(d).served == d.served + First(Bytes(d.q), d.left)
  {
    EotsZero(d.q);
    WaiterIsServed(d, d.left);
    FirstBytes(d.q, d.left);
  }

  /** The line break is typed and the waiting reader served. */
  lemma EndOfLine(d: Line, enter: int, size: nat)
    requires LineOk(d, size) && d.term.icanon && !d.term.hungUp && d.min <= 1 && d.left > 0 && Break(d.q) == 0
    requires |d.q| < size && IsBreak(d.term, d.escaped, enter)
    ensures var e := InTransfer(Feed(d, enter, size).0);
            && e.left == 0
            && e.served == d.served + First(Unfinished(d) + Given(Entry(d.term, d.escaped, enter)), d.left)
  {
    var x := Entry(d.term, d.escaped, enter);
    BreakEndsLine(d, enter, size);
    assert d.q[0..] == d.q;
    BytesSnoc(d.q, x);
    OneLineRead(d.(q := d.q + [x], escaped := EscapedAfter(d.term, d.escaped, enter),
                   inhibited := InhibitedAfter(d.term, d.escaped, d.inhibited, enter)));
  }

  /**
   A reader waits, no line is complete, somebody types, edits and quotes, and then ends the
   line: the reader gets exactly the text that is left, with the line break behind it.
   */
  lemma LineIsDelivered(d: Line, text: seq<int>, enter: int, size: nat)
    requires LineOk(d, size) && d.term.icanon && !d.term.hungUp && d.min <= 1 && d.left > 0 && Eots(d.q) == 0
    requires |d.q| + |text| < size && Unbroken(d.term, d.escaped, d.inhibited, text)
    requires IsBreak(d.term, FeedAll(d, text, size).0.escaped, enter)
    ensures var line := Edited(d.term, d.escaped, d.inhibited, Bytes(d.q), text);
            var e := InTransfer(FeedAll(d, text + [enter], size).0);
            var end := Given(Entry(d.term, FeedAll(d, text, size).0.escaped, enter));
            e.left == 0 && e.served == d.served + First(line + end, d.left)
  {
    EotsZero(d.q);
    assert d.q[0..] == d.q;
    TypingEdits(d, text, size);
    FeedAllSnoc(d, text, enter, size);
    EndOfLine(FeedAll(d, text, size).0, enter, size);
  }

  // ---- Who is served -------------------------------------------------------------------------

  /**
   in_transfer() gives a reader something if and only if one waits, something is complete, and
   there is enough of it: MIN line breaks, or any number once the line is hung up.
   */
  lemma ServedIff(d: Line)
    ensures InTransfer(d) == d.(min := InTransfer(d).min) <==>
            d.left == 0 || Eots(d.q) == 0 || (!d.term.hungUp && Eots(d.q) < d.min)
  {
    if d.left > 0 && Eots(d.q) > 0 {
      assert d.q != [] && Taken(d.q, d.left, d.term.icanon) > 0;
    }
  }

  /**
   Raw mode with MIN and TIME: a read is answered at once if and only if MIN bytes are there
   (one, for a timed read without a MIN), and then with what there is and was asked for.
   */
  lemma RawMinimum(d: Line, t: Termios, count: nat)
    requires !t.icanon && !t.hungUp && count > 0
    ensures var e := Configured(d, t);
            var r := Asked(e, count);
            var need := if t.vmin == 0 && t.vtime > 0 then 1 else t.vmin;
            if |d.q| < need then r == e.(left := count)
            else |r.served| - |e.served| == (if count < |Bytes(d.q)| then count else |Bytes(d.q)|)
  {
    var e := Configured(d, t);
    EotsAll(e.q);
    RawRead(e.q, count);
    AllEotBytes(d.q);
  }

  /** A timed raw read that finds nothing waits for MIN bytes, or for one, whatever an earlier read left behind. */
  lemma TimedRead(d: Line, count: nat)
    requires !d.term.icanon && !d.term.hungUp && d.term.vtime > 0 && count > 0
    ensures d.q == [] ==> Asked(d, count) == d.(left := count, min := if d.term.vmin == 0 then 1 else d.term.vmin)
    ensures d.term.vmin == 0 && Eots(d.q) > 0 ==> Asked(d, count).q != d.q
  {
    if Eots(d.q) > 0 {
      ServedIff(Prepared(d, count));
    }
  }

  /** A hang-up discards what is queued, unless NOFLSH, and from then on no reader is kept waiting for more. */
  lemma HangUp(d: Line, t: Termios)
    requires t.hungUp
    ensures !t.noflsh ==> Configured(d, t).q == [] && !Configured(d, t).inhibited
    ensures t.noflsh ==> Bytes(Configured(d, t).q) == Bytes(d.q)
    ensures InTransfer(Configured(d, t)).min == 0
  {
    AllEotBytes(d.q);
  }

  // ---- Settings over a run -------------------------------------------------------------------

  /** Output is held up only while IXON is set, and a canonical read never waits for more than one line. */
  predicate SettingsOk(d: Line) {
    (d.inhibited ==> d.term.ixon) && (d.term.icanon ==> d.min <= 1)
  }

  lemma FeedSettings(d: Line, byte: int, size: nat)
    requires SettingsOk(d)
    ensures SettingsOk(Feed(d, byte, size).0)
  {
    DecideMeans(d.term, d.escaped, d.inhibited, byte);
  }

  lemma {:induction false} FeedAllSettings(d: Line, buf: seq<int>, size: nat)
    requires SettingsOk(d)
    ensures SettingsOk(FeedAll(d, buf, size).0)
    decreases |buf|
  {
    if buf != [] {
      FeedSettings(d, buf[0], size);
      FeedAllSettings(Feed(d, buf[0], size).0, buf[1..], size);
    }
  }

  lemma ApplySettings(d: Line, ev: Event, size: nat)
    requires SettingsOk(d)
    ensures SettingsOk(Apply(d, ev, size))
  {
    if ev.Types? {
      FeedAllSettings(d, ev.bytes, size);
    }
  }

  /** So clearing IXON always frees the line, and every reader that waits on it is served by the next line. */
  lemma {:induction false} RunSettings(d: Line, evs: seq<Event>, size: nat)
    requires SettingsOk(d)
    ensures SettingsOk(After(d, evs, size))
    decreases |evs|
  {
    if evs != [] {
      ApplySettings(d, evs[0], size);
      RunSettings(Apply(d, evs[0], size), evs[1..], size);
    }
  }
}
