/**
 The keyboard of src/keyboard.c: the translation of scan codes, and the ring buffer that
 the interrupt handler fills while the shell empties it.
 */
module Keyboard {
  import opened Rings

  const NUL := '\0'

  // ---- Scan codes --------------------------------------------------------------------

  /** One row of a table: `keys` from scan code `from` on. */
  function Row(sc: nat, from: nat, keys: string): char {
    if from <= sc < from + |keys| then keys[sc - from] else NUL
  }

  /** The rows that hold the letters. */
  function LetterKey(sc: nat): char {
    if sc < 0x1E then Row(sc, 0x10, "qwertyuiop") else if sc < 0x2C then Row(sc, 0x1E, "asdfghjkl")
    else Row(sc, 0x2C, "zxcvbnm")
  }

  /** scancode_normal[] */
  function NormalKey(sc: nat): char {
    if LetterKey(sc) != NUL then LetterKey(sc)
    else if sc < 0x10 then Row(sc, 0x01, "\U{1B}1234567890-=\U{8}\t")
    else if sc < 0x1E then Row(sc, 0x1A, "[]\n")
    else if sc < 0x2B then Row(sc, 0x27, ";'`")
    else if sc == 0x2B then '\\'
    else if sc < 0x36 then Row(sc, 0x33, ",./")
    else if sc == 0x37 then '*' else if sc == 0x39 then ' ' else NUL
  }

  /** scancode_shift[] */
  function ShiftKey(sc: nat): char {
    if LetterKey(sc) != NUL then Upper(LetterKey(sc))
    else if sc < 0x10 then Row(sc, 0x01, "\U{1B}!@#$%^&*()_+\U{8}\t")
    else if sc < 0x1E then Row(sc, 0x1A, "{}\n")
    else if sc < 0x2B then Row(sc, 0x27, ":\"~")
    else if sc == 0x2B then '|'
    else if sc < 0x36 then Row(sc, 0x33, "<>?")
    else if sc == 0x37 then '*' else if sc == 0x39 then ' ' else NUL
  }

  predicate IsLower(c: char) { 'a' <= c <= 'z' }
  predicate IsUpper(c: char) { 'A' <= c <= 'Z' }

  function Upper(c: char): char {
    if IsLower(c) then c - 'a' + 'A' else c
  }

  function Lower(c: char): char {
    if IsUpper(c) then c - 'A' + 'a' else c
  }

  /** The modifier keys' state. */
  datatype Modifiers = Modifiers(shift: bool, caps: bool)

  /** What kbd_isr() makes of a key press: NUL for keys without a character. */
  function Translate(sc: nat, m: Modifiers): char {
    var c := if m.shift then ShiftKey(sc) else NormalKey(sc);
    if IsLower(c) then (if m.caps != m.shift then Upper(c) else c)
    else if IsUpper(c) then (if m.caps != m.shift then Lower(c) else c)
    else c
  }

  lemma LetterKeys(sc: nat)
    ensures IsLower(LetterKey(sc)) || LetterKey(sc) == NUL
  {
  }

  lemma OtherNormal(sc: nat)
    requires LetterKey(sc) == NUL
    ensures !IsLower(NormalKey(sc)) && !IsUpper(NormalKey(sc))
  {
  }

  lemma OtherShift(sc: nat)
    requires LetterKey(sc) == NUL
    ensures !IsLower(ShiftKey(sc)) && !IsUpper(ShiftKey(sc))
  {
  }

  /**
   Letters: the case flip is applied on top of the shifted table, so the two uses of Shift
   cancel and Caps Lock alone decides.  The customary rule, upper case when exactly one of
   them is on, holds exactly while Shift is up.
   */
  lemma LetterCase(sc: nat, m: Modifiers)
    requires LetterKey(sc) != NUL
    ensures Translate(sc, m) == if m.caps then Upper(LetterKey(sc)) else LetterKey(sc)
    ensures IsUpper(Translate(sc, m)) <==> m.caps
    ensures (IsUpper(Translate(sc, m)) <==> m.caps != m.shift) <==> !m.shift
  {
    LetterKeys(sc);
  }

  /** Caps Lock makes a difference exactly for the letters. */
  lemma CapsOnlyLetters(sc: nat, m: Modifiers)
    ensures Translate(sc, m) != Translate(sc, m.(caps := !m.caps)) <==> LetterKey(sc) != NUL
  {
    if LetterKey(sc) == NUL {
      OtherNormal(sc);
      OtherShift(sc);
    } else {
      LetterKeys(sc);
      LetterCase(sc, m);
      LetterCase(sc, m.(caps := !m.caps));
    }
  }

  // ---- The ring: an interrupt handler and a reader -------------------------------------

  /** Where the reader is inside kbd_getchar(). */
  datatype Place = Check | Fetch | Advance

  /** The shared buffer, the reader's place and local, and what was typed, taken and lost. */
  datatype State = State(
    buf: seq<char>, head: nat, tail: nat, m: Modifiers,
    place: Place, c: char, accepted: seq<char>, taken: seq<char>)

  /** The number of characters between tail and head. */
  function Used(s: State): nat
    requires s.head < |s.buf| && s.tail < |s.buf|
  {
    if s.head >= s.tail then s.head - s.tail else s.head + |s.buf| - s.tail
  }

  /** kbd_put() */
  function Put(s: State, c: char): State
    requires s.head < |s.buf|
  {
    var next := (s.head + 1) % |s.buf|;
    if next != s.tail then s.(buf := s.buf[s.head := c], head := next, accepted := s.accepted + [c]) else s
  }

  /** kbd_isr() for scan code `sc`. */
  function Isr(s: State, sc: nat): State
    requires s.head < |s.buf|
  {
    if sc >= 0x80 then (if sc - 0x80 == 0x2A || sc - 0x80 == 0x36 then s.(m := s.m.(shift := false)) else s)
    else if sc == 0x2A || sc == 0x36 then s.(m := s.m.(shift := true))
    else if sc == 0x3A then s.(m := s.m.(caps := !s.m.caps))
    else Press(s, Translate(sc, s.m))
  }

  /** The end of kbd_isr(): a key without a character is ignored. */
  function Press(s: State, c: char): State
    requires s.head < |s.buf|
  {
    if c == NUL then s else Put(s, c)
  }

  /** One statement of kbd_getchar(). */
  function Reader(s: State): State
    requires s.tail < |s.buf|
  {
    match s.place
    case Check => if s.head != s.tail then s.(place := Fetch) else s
    case Fetch => s.(c := s.buf[s.tail], place := Advance)
    case Advance => s.(tail := (s.tail + 1) % |s.buf|, taken := s.taken + [s.c], place := Check)
  }

  /** What holds between any two statements. */
  ghost predicate Inv(s: State) {
    && s.head < |s.buf| && s.tail < |s.buf|
    && s.accepted == s.taken + Ring(s.buf, s.tail, Used(s))
    && (s.place != Check ==> Used(s) > 0)
    && (s.place == Advance ==> s.c == s.buf[s.tail])
  }

  lemma Mod(i: nat, n: nat)
    requires i < n
    ensures (i + 1) % n == Wrap(i + 1, n)
  {
  }

  /** A character is lost exactly when the buffer holds all but one of its places. */
  lemma PutAccepts(s: State, c: char)
    requires Inv(s)
    ensures Put(s, c) == s <==> Used(s) == |s.buf| - 1
    ensures Used(s) < |s.buf| - 1 ==> Put(s, c).accepted == s.accepted + [c] && Used(Put(s, c)) == Used(s) + 1
  {
    Mod(s.head, |s.buf|);
  }

  lemma PutInv(s: State, c: char)
    requires Inv(s)
    ensures Inv(Put(s, c))
  {
    Mod(s.head, |s.buf|);
    PutAccepts(s, c);
    var s' := Put(s, c);
    if s' != s {
      RingPush(s.buf, s.tail, Used(s), c);
      AddLast(s.taken, Ring(s.buf, s.tail, Used(s)), c);
    }
  }

  lemma AddLast(taken: seq<char>, r: seq<char>, c: char)
    ensures (taken + r) + [c] == taken + (r + [c])
  {
  }

  lemma ReaderInv(s: State)
    requires Inv(s)
    ensures Inv(Reader(s))
  {
    if s.place == Advance {
      Mod(s.tail, |s.buf|);
      RingPop(s.buf, s.tail, Used(s));
      MoveFirst(s.taken, Ring(s.buf, s.tail, Used(s)));
    }
  }

  lemma MoveFirst(taken: seq<char>, r: seq<char>)
    requires r != []
    ensures taken + r == (taken + [r[0]]) + r[1..]
  {
  }

  /** Which of the two runs next; an interrupt brings a scan code. */
  datatype Turn = Interrupt(sc: nat) | Read

  function Step(s: State, t: Turn): State
    requires s.head < |s.buf| && s.tail < |s.buf|
  {
    match t case Interrupt(sc) => Isr(s, sc) case Read => Reader(s)
  }

  ghost predicate Run(trace: seq<State>, turns: seq<Turn>) {
    && |trace| == |turns| + 1 && Inv(trace[0])
    && forall i :: 0 <= i < |turns| ==>
      trace[i].head < |trace[i].buf| && trace[i].tail < |trace[i].buf| && trace[i + 1] == Step(trace[i], turns[i])
  }

  lemma PressInv(s: State, c: char)
    requires Inv(s)
    ensures Inv(Press(s, c)) && |Press(s, c).buf| == |s.buf|
    ensures Press(s, c).taken == s.taken && s.accepted <= Press(s, c).accepted
  {
    PutInv(s, c);
  }

  lemma StepInv(s: State, t: Turn)
    requires Inv(s)
    ensures Inv(Step(s, t)) && |Step(s, t).buf| == |s.buf|
    ensures s.taken <= Step(s, t).taken && s.accepted <= Step(s, t).accepted
  {
    if t.Read? {
      ReaderInv(s);
    } else if t.sc < 0x80 {
      PressInv(s, Translate(t.sc, s.m));
    }
  }

  /** However interrupts fall, the reader gets the accepted characters, each once and in order. */
  lemma {:induction false} RunDelivers(trace: seq<State>, turns: seq<Turn>, k: nat)
    requires Run(trace, turns) && k <= |turns|
    ensures Inv(trace[k]) && trace[k].taken <= trace[k].accepted
    ensures |trace[k].accepted| - |trace[k].taken| <= |trace[0].buf| - 1 && |trace[k].buf| == |trace[0].buf|
  {
    if k > 0 {
      RunDelivers(trace, turns, k - 1);
      StepInv(trace[k - 1], turns[k - 1]);
    }
  }

  // ---- What is typed ------------------------------------------------------------------------

  predicate IsShift(sc: nat) { sc == 0x2A || sc == 0x36 }
  predicate ShiftDown(t: Turn) { t.Interrupt? && IsShift(t.sc) }
  predicate ShiftUp(t: Turn) { t.Interrupt? && t.sc >= 0x80 && IsShift(t.sc - 0x80) }
  predicate CapsDown(t: Turn) { t == Interrupt(0x3A) }

  /** The character a turn types, if any. */
  function Stroke(m: Modifiers, t: Turn): seq<char> {
    if t.Interrupt? && t.sc < 0x80 && !IsShift(t.sc) && t.sc != 0x3A && Translate(t.sc, m) != NUL
    then [Translate(t.sc, m)] else []
  }

  /** One turn: what it does to the modifiers, and that it types one character or none. */
  lemma StepMeans(s: State, t: Turn)
    requires Inv(s)
    ensures var s' := Step(s, t);
            && (s'.m.shift <==> ShiftDown(t) || (s.m.shift && !ShiftUp(t))) && (s'.m.caps <==> s.m.caps != CapsDown(t))
            && (Used(s) < |s.buf| - 1 ==> s'.accepted == s.accepted + Stroke(s.m, t))
            && (Used(s) == |s.buf| - 1 ==> s'.accepted == s.accepted)
  {
    if t.Interrupt? && t.sc < 0x80 {
      PutAccepts(s, Translate(t.sc, s.m));
    }
  }

  /** Shift counts as held exactly while a Shift key went down and none has come up since. */
  lemma {:induction false} ShiftIsHeld(trace: seq<State>, turns: seq<Turn>, k: nat)
    requires Run(trace, turns) && k <= |turns|
    ensures trace[k].m.shift <==>
            || (exists j :: 0 <= j < k && ShiftDown(turns[j]) && forall i :: j < i < k ==> !ShiftUp(turns[i]))
            || (trace[0].m.shift && forall i :: 0 <= i < k ==> !ShiftUp(turns[i]))
  {
    if k > 0 {
      ShiftIsHeld(trace, turns, k - 1);
      RunDelivers(trace, turns, k - 1);
      StepMeans(trace[k - 1], turns[k - 1]);
    }
  }

  function CapsPresses(turns: seq<Turn>): nat {
    if turns == [] then 0 else CapsPresses(turns[..|turns| - 1]) + if CapsDown(turns[|turns| - 1]) then 1 else 0
  }

  lemma CapsStep(trace: seq<State>, turns: seq<Turn>, k: nat)
    requires Run(trace, turns) && k < |turns|
    ensures trace[k + 1].m.caps <==> trace[k].m.caps != CapsDown(turns[k])
  {
    RunDelivers(trace, turns, k);
    StepMeans(trace[k], turns[k]);
  }

  lemma CapsSnoc(turns: seq<Turn>, k: nat)
    requires k < |turns|
    ensures CapsPresses(turns[..k + 1]) == CapsPresses(turns[..k]) + if CapsDown(turns[k]) then 1 else 0
  {
    assert turns[..k + 1][..k] == turns[..k];
  }

  lemma {:induction false} ToggledIsParity(caps: seq<bool>, turns: seq<Turn>, k: nat)
    requires |caps| == |turns| + 1 && !caps[0] && k <= |turns|
    requires forall i :: 0 <= i < |turns| ==> caps[i + 1] == (caps[i] != CapsDown(turns[i]))
    ensures caps[k] <==> CapsPresses(turns[..k]) % 2 == 1
  {
    if k > 0 {
      ToggledIsParity(caps, turns, k - 1);
      CapsSnoc(turns, k - 1);
      assert caps[k - 1 + 1] == (caps[k - 1] != CapsDown(turns[k - 1]));
    }
  }

  /** Caps Lock is on exactly after an odd number of presses. */
  lemma CapsIsParity(trace: seq<State>, turns: seq<Turn>, k: nat)
    requires Run(trace, turns) && k <= |turns| && !trace[0].m.caps
    ensures trace[k].m.caps <==> CapsPresses(turns[..k]) % 2 == 1
  {
    var caps := seq(|trace|, i requires 0 <= i < |trace| => trace[i].m.caps);
    forall i | 0 <= i < |turns| ensures caps[i + 1] == (caps[i] != CapsDown(turns[i])) {
      CapsStep(trace, turns, i);
    }
    ToggledIsParity(caps, turns, k);
  }

  /** What the turns of a run type, each under the modifiers of its moment. */
  ghost function Strokes(trace: seq<State>, turns: seq<Turn>): (r: seq<seq<char>>)
    requires |trace| == |turns| + 1
    ensures |r| == |turns|
  {
    seq(|turns|, i requires 0 <= i < |turns| => Stroke(trace[i].m, turns[i]))
  }

  function Joined(parts: seq<seq<char>>): seq<char> {
    if parts == [] then [] else Joined(parts[..|parts| - 1]) + parts[|parts| - 1]
  }

  lemma {:induction false} GrowsByParts(acc: seq<seq<char>>, parts: seq<seq<char>>, k: nat)
    requires |acc| == |parts| + 1 && k <= |parts|
    requires forall i :: 0 <= i < k ==> acc[i + 1] == acc[i] + parts[i]
    ensures acc[k] == acc[0] + Joined(parts[..k])
  {
    if k > 0 {
      GrowsByParts(acc, parts, k - 1);
      assert acc[k - 1 + 1] == acc[k - 1] + parts[k - 1] && parts[..k][..k - 1] == parts[..k - 1];
    }
  }

  lemma StrokeStep(trace: seq<State>, turns: seq<Turn>, k: nat)
    requires Run(trace, turns) && k < |turns|
    requires turns[k].Interrupt? ==> Used(trace[k]) < |trace[k].buf| - 1
    ensures trace[k + 1].accepted == trace[k].accepted + Stroke(trace[k].m, turns[k])
  {
    RunDelivers(trace, turns, k);
    StepMeans(trace[k], turns[k]);
  }

  /** While there is room, what is accepted is exactly what was typed. */
  lemma TypedIsAccepted(trace: seq<State>, turns: seq<Turn>, k: nat)
    requires Run(trace, turns) && k <= |turns|
    requires forall i :: 0 <= i < k && turns[i].Interrupt? ==> Used(trace[i]) < |trace[i].buf| - 1
    ensures trace[k].accepted == trace[0].accepted + Joined(Strokes(trace, turns)[..k])
  {
    var acc := seq(|trace|, i requires 0 <= i < |trace| => trace[i].accepted);
    forall i | 0 <= i < k ensures acc[i + 1] == acc[i] + Strokes(trace, turns)[i] {
      StrokeStep(trace, turns, i);
    }
    GrowsByParts(acc, Strokes(trace, turns), k);
  }

  // ---- The driver itself -----------------------------------------------------------------

  class KeyboardDriver {
    const buf: array<char>
    var head: nat               // written by the interrupt handler only
    var tail: nat               // written by the reader only
    var m: Modifiers
    var place: Place            // the reader's program counter and local variable
    var c: char
    ghost var accepted: seq<char>
    ghost var taken: seq<char>

    ghost function Abs(): State
      reads this, buf
    {
      State(buf[..], head, tail, m, place, c, accepted, taken)
    }

    constructor (size: nat)
      requires size > 0
      ensures Inv(Abs()) && fresh(buf) && buf.Length == size
      ensures accepted == taken == [] && m == Modifiers(false, false) && place == Check
    {
      buf := new char[size](_ => NUL);
      head, tail, m, place, c, accepted, taken := 0, 0, Modifiers(false, false), Check, NUL, [], [];
    }

    /** kbd_put() */
    method PutChar(ch: char) returns (stored: bool)
      requires Inv(Abs())
      modifies `head, `accepted, buf
      ensures Inv(Abs()) && Abs() == Put(old(Abs()), ch) && (stored <==> Used(old(Abs())) < buf.Length - 1)
    {
      PutInv(Abs(), ch);
      PutAccepts(Abs(), ch);
      var next := (head + 1) % buf.Length;
      stored := next != tail;
      if stored {
        buf[head] := ch;
        head := next;
        accepted := accepted + [ch];
      }
    }

    /** kbd_isr() */
    method Interrupted(sc: nat)
      requires Inv(Abs())
      modifies `head, `accepted, `m, buf
      ensures Inv(Abs()) && Abs() == Isr(old(Abs()), sc)
    {
      if sc >= 0x80 {
        if sc - 0x80 == 0x2A || sc - 0x80 == 0x36 {
          m := m.(shift := false);
        }
      } else if sc == 0x2A || sc == 0x36 {
        m := m.(shift := true);
      } else if sc == 0x3A {
        m := m.(caps := !m.caps);
      } else {
        var ch := Translate(sc, m);
        if ch != NUL {
          var _ := PutChar(ch);
        }
      }
    }

    /** One statement of kbd_getchar(); an interrupt may come between any two. */
    method Statement()
      requires Inv(Abs())
      modifies `tail, `place, `c, `taken
      ensures Inv(Abs()) && Abs() == Reader(old(Abs()))
    {
      ReaderInv(Abs());
      match place
      case Check =>
        if head != tail {
          place := Fetch;
        }
      case Fetch =>
        c := buf[tail];
        place := Advance;
      case Advance =>
        tail := (tail + 1) % buf.Length;
        taken := taken + [c];
        place := Check;
    }
  }
}
