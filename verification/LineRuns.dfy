/**
 Whole runs of the terminal driver's input side: a completed line is delivered once, in
 order and unchanged, whatever is typed, read or configured in between.
 */
module LineRuns {
  import opened LineDiscipline

  /** Everything readers got, and behind it the bytes that are ready for them. */
  function Ready(d: Line): seq<int> {
    d.served + Bytes(d.q[..Break(d.q)])
  }

  lemma BytesPrefix(q: seq<InCh>, i: nat, j: nat)
    requires i <= j <= |q|
    ensures Bytes(q[..i]) <= Bytes(q[..j])
  {
    assert q[..j] == q[..i] + q[i..j];
    BytesConcat(q[..i], q[i..j]);
  }

  /** Growth at the end of the queue. */
  lemma ReadyGrows(d: Line, q: seq<InCh>)
    requires Break(d.q) <= Break(q) && d.q[..Break(d.q)] == q[..Break(d.q)]
    ensures Ready(d) <= Ready(d.(q := q))
  {
    BytesPrefix(q, Break(d.q), Break(q));
  }

  // ---- Reads ----------------------------------------------------------------------------

  lemma TransferBreak(d: Line)
    ensures var k := Taken(d.q, d.left, d.term.icanon);
            k <= Break(d.q) && Break(d.q[k..]) == Break(d.q) - k
  {
    ReadStops(d.q, d.left, d.term.icanon);
    var k := Taken(d.q, d.left, d.term.icanon);
    BreakIs(d.q[k..], Break(d.q) - k);
  }

  lemma TransferOk(d: Line, size: nat)
    requires LineOk(d, size)
    ensures LineOk(Transferred(d), size)
  {
  }

  lemma TransferReady(d: Line)
    ensures Ready(Transferred(d)) == Ready(d)
  {
    var k, b := Taken(d.q, d.left, d.term.icanon), Break(d.q);
    TransferBreak(d);
    SplitBytes(d.q, k, b);
    MovedReady(d.served, d.q, k, b);
  }

  lemma MovedReady(served: seq<int>, q: seq<InCh>, k: nat, b: nat)
    requires k <= b <= |q| && Bytes(q[..b]) == Bytes(q[..k]) + Bytes(q[k..][..b - k])
    ensures (served + Bytes(q[..k])) + Bytes(q[k..][..b - k]) == served + Bytes(q[..b])
  {
    Assoc(served, Bytes(q[..k]), Bytes(q[k..][..b - k]));
  }

  lemma SplitBytes(q: seq<InCh>, k: nat, b: nat)
    requires k <= b <= |q|
    ensures Bytes(q[..b]) == Bytes(q[..k]) + Bytes(q[k..][..b - k])
  {
    assert q[..b] == q[..k] + q[k..][..b - k];
    BytesConcat(q[..k], q[k..][..b - k]);
  }

  lemma InTransferReady(d: Line, size: nat)
    requires LineOk(d, size)
    ensures Ready(InTransfer(d)) == Ready(d) && LineOk(InTransfer(d), size)
  {
    var e := if d.term.hungUp then d.(min := 0) else d;
    TransferOk(e, size);
    TransferReady(e);
  }

  lemma AskedReady(d: Line, count: nat, size: nat)
    requires LineOk(d, size)
    ensures Ready(Asked(d, count)) == Ready(d) && LineOk(Asked(d, count), size)
  {
    InTransferReady(Prepared(d, count), size);
  }

  // ---- Typing ---------------------------------------------------------------------------

  /** Erase and kill leave every completed line alone. */
  lemma EditKeepsLines(q: seq<InCh>)
    ensures Break(Erased(q)) == Break(q) && Erased(q)[..Break(q)] == q[..Break(q)]
    ensures Break(q[..Break(q)]) == Break(q)
  {
    BreakIs(q[..Break(q)], Break(q));
  }

  lemma SavedMark(t: Termios, escaped: bool, inhibited: bool, byte: int)
    ensures var act := Decide(t, escaped, inhibited, byte).act; act.Save? && act.ch.eof ==> act.ch.eot
  {
  }

  lemma AppendReady(d: Line, x: InCh, size: nat)
    requires LineOk(d, size) && |d.q| < size && (x.eof ==> x.eot) && (d.term.icanon || x.eot)
    ensures Ready(d) <= Ready(d.(q := d.q + [x])) && LineOk(d.(q := d.q + [x]), size)
  {
    BreakIs(d.q + [x], if x.eot then |d.q| + 1 else Break(d.q));
    ReadyGrows(d, d.q + [x]);
  }

  lemma StoredReady(d: Line, ch: InCh, size: nat)
    requires LineOk(d, size) && |d.q| < size && (ch.eof ==> ch.eot)
    ensures Ready(d) <= Ready(Stored(d, ch, size)) && LineOk(Stored(d, ch, size), size)
  {
    var x := if d.term.icanon then ch else ch.(eot := true);
    AppendReady(d, x, size);
    InTransferReady(d.(q := d.q + [x]), size);
  }

  /** The byte discards input: an interrupt character without NOFLSH. */
  predicate Flushes(d: Line, byte: int) {
    Decide(d.term, d.escaped, d.inhibited, byte).act.Signal? && !d.term.noflsh
  }

  lemma ErasedReady(d: Line, size: nat)
    requires LineOk(d, size)
    ensures LineOk(d.(q := Erased(d.q)), size) && Ready(d) <= Ready(d.(q := Erased(d.q)))
  {
    EditKeepsLines(d.q);
    ReadyGrows(d, Erased(d.q));
  }

  lemma KilledReady(d: Line, size: nat)
    requires LineOk(d, size)
    ensures LineOk(d.(q := d.q[..Break(d.q)]), size) && Ready(d) <= Ready(d.(q := d.q[..Break(d.q)]))
  {
    EditKeepsLines(d.q);
    assert d.q[..Break(d.q)][..Break(d.q)] == d.q[..Break(d.q)];
    ReadyGrows(d, d.q[..Break(d.q)]);
  }

  lemma ActedReady(d: Line, act: Act, size: nat)
    requires LineOk(d, size) && (act.Save? && act.ch.eof ==> act.ch.eot)
    ensures LineOk(Acted(d, act, size).0, size)
    ensures (act.Signal? && !d.term.noflsh) || Ready(d) <= Ready(Acted(d, act, size).0)
  {
    if act.Save? && |d.q| < size {
      StoredReady(d, act.ch, size);
    } else if act == Erase {
      ErasedReady(d, size);
    } else if act == Kill {
      KilledReady(d, size);
    }
  }

  lemma FeedReady(d: Line, byte: int, size: nat)
    requires LineOk(d, size)
    ensures LineOk(Feed(d, byte, size).0, size)
    ensures Flushes(d, byte) || Ready(d) <= Ready(Feed(d, byte, size).0)
  {
    var v := Decide(d.term, d.escaped, d.inhibited, byte);
    SavedMark(d.term, d.escaped, d.inhibited, byte);
    ActedReady(d.(escaped := v.escaped, inhibited := v.inhibited), v.act, size);
  }

  /** Some byte of the input that in_process() comes to discards what was typed before. */
  predicate Flushing(d: Line, buf: seq<int>, size: nat)
    decreases |buf|
  {
    buf != [] &&
      (Flushes(d, buf[0]) || (Feed(d, buf[0], size).1 && Flushing(Feed(d, buf[0], size).0, buf[1..], size)))
  }

  lemma {:induction false} FeedAllReady(d: Line, buf: seq<int>, size: nat)
    requires LineOk(d, size)
    ensures LineOk(FeedAll(d, buf, size).0, size)
    ensures FeedAll(d, buf, size).0.term == d.term && FeedAll(d, buf, size).1 <= |buf|
    ensures Flushing(d, buf, size) || Ready(d) <= Ready(FeedAll(d, buf, size).0)
    decreases |buf|
  {
    if buf != [] {
      FeedReady(d, buf[0], size);
      if Feed(d, buf[0], size).1 {
        FeedAllReady(Feed(d, buf[0], size).0, buf[1..], size);
      }
    }
  }

  /** Without ISIG or with NOFLSH nothing that is typed flushes. */
  lemma {:induction false} NoFlushing(d: Line, buf: seq<int>, size: nat)
    requires !d.term.isig || d.term.noflsh
    ensures !Flushing(d, buf, size)
    decreases |buf|
  {
    if buf != [] {
      NoSignal(d.term, d.escaped, d.inhibited, buf[0]);
      NoFlushing(Feed(d, buf[0], size).0, buf[1..], size);
    }
  }

  lemma NoSignal(t: Termios, escaped: bool, inhibited: bool, byte: int)
    ensures !t.isig ==> !Decide(t, escaped, inhibited, byte).act.Signal?
  {
  }

  // ---- Attributes -----------------------------------------------------------------------

  lemma {:induction false} AllEotBytes(q: seq<InCh>)
    ensures Bytes(AllEot(q)) == Bytes(q)
  {
    if q != [] {
      AllEotBytes(q[1..]);
      assert AllEot(q)[1..] == AllEot(q[1..]);
    }
  }

  lemma ConfiguredOk(d: Line, t: Termios, size: nat)
    requires LineOk(d, size)
    ensures LineOk(Configured(d, t), size)
  {
  }

  lemma ConfiguredReady(d: Line, t: Termios)
    ensures !t.hungUp || t.noflsh ==> Ready(d) <= Ready(Configured(d, t))
  {
    var q := AllEot(d.q);
    AllEotBytes(d.q);
    BreakIs(q, |q|);
    BytesPrefix(d.q, Break(d.q), |d.q|);
    assert q[..|q|] == q && d.q[..|d.q|] == d.q;
  }

  // ---- Runs -----------------------------------------------------------------------------

  /**
   What happens to a line: input from the device, a read request, in_transfer() for a reader
   that waits, the end of a pending read, new attributes, and a flush.
   */
  datatype Event =
    | Types(bytes: seq<int>) | Reads(count: nat) | Serves | Ends | Sets(term: Termios) | Cancels

  function Apply(d: Line, ev: Event, size: nat): Line {
    match ev
    case Types(bytes) => FeedAll(d, bytes, size).0
    case Reads(count) => if d.left > 0 || count == 0 then d else Asked(d, count)
    case Serves => InTransfer(d)
    case Ends => d.(left := 0)
    case Sets(t) => Configured(d, t)
    case Cancels => d.(q := [])
  }

  /** No input is thrown away on purpose: by a signal character that was typed, a hang-up or a flush. */
  predicate Keeps(d: Line, ev: Event, size: nat) {
    match ev
    case Types(bytes) => !Flushing(d, bytes, size)
    case Reads(_) => true
    case Serves => true
    case Ends => true
    case Sets(t) => !t.hungUp || t.noflsh
    case Cancels => false
  }

  function After(d: Line, evs: seq<Event>, size: nat): Line
    decreases |evs|
  {
    if evs == [] then d else After(Apply(d, evs[0], size), evs[1..], size)
  }

  predicate AllKeep(d: Line, evs: seq<Event>, size: nat)
    decreases |evs|
  {
    evs == [] || (Keeps(d, evs[0], size) && AllKeep(Apply(d, evs[0], size), evs[1..], size))
  }

  lemma ApplyReady(d: Line, ev: Event, size: nat)
    requires LineOk(d, size)
    ensures LineOk(Apply(d, ev, size), size)
    ensures Keeps(d, ev, size) ==> Ready(d) <= Ready(Apply(d, ev, size))
  {
    match ev
    case Types(bytes) => FeedAllReady(d, bytes, size);
    case Reads(count) => AskedReady(d, count, size);
    case Serves => InTransferReady(d, size);
    case Ends =>
    case Sets(t) =>
      ConfiguredOk(d, t, size);
      ConfiguredReady(d, t);
    case Cancels =>
  }

  /**
   The bytes delivered so far followed by the completed lines only ever grow at the end:
   no byte of a completed line is lost, repeated, reordered or edited.
   */
  lemma {:induction false} ReadyOnlyGrows(d: Line, evs: seq<Event>, size: nat)
    requires LineOk(d, size)
    ensures LineOk(After(d, evs, size), size)
    ensures AllKeep(d, evs, size) ==> Ready(d) <= Ready(After(d, evs, size))
    decreases |evs|
  {
    if evs != [] {
      ApplyReady(d, evs[0], size);
      ReadyOnlyGrows(Apply(d, evs[0], size), evs[1..], size);
    }
  }

  /**
   A reader that waits is served by the line it waited for: once a line break is typed, the
   next in_transfer() of a canonical line gives it that line, or as much as it asked for.
   */
  lemma WaiterIsServed(d: Line, count: nat)
    requires d.term.icanon && !d.term.hungUp && d.min <= 1 && d.left == count > 0 && Eots(d.q) > 0
    requires forall i :: 0 <= i < |d.q| && d.q[i].eof ==> d.q[i].eot
    ensures var k := if count < FirstLine(d.q) then count else FirstLine(d.q);
            InTransfer(d) == d.(q := d.q[k..], left := 0, served := d.served + Bytes(d.q[..k]))
  {
    CanonicalRead(d.q, count);
  }
}
