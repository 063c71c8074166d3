/**
 The kernel log of drivers/log/log.c: a ring that overwrites its oldest bytes, with at
 most one reader suspended on it.
 */
module LogRing {
  import opened Rings

  /** The newest `size` elements. */
  function Newest<T>(u: seq<T>, size: nat): (r: seq<T>)
    ensures |r| == if |u| <= size then |u| else size
  {
    if |u| <= size then u else u[|u| - size..]
  }

  lemma NewestTwice<T>(u: seq<T>, v: seq<T>, size: nat)
    ensures Newest(Newest(u, size) + v, size) == Newest(u + v, size)
  {
    if |u| > size {
      var k := |u| - size;
      assert u[k..] + v == (u + v)[k..];
    }
  }

  function Min(a: nat, b: nat): nat { if a < b then a else b }

  /**
   Everything that was ever written and how far it has been read or overwritten; the write
   mark; the suspended reader; and the stretches of the stream that readers got.
   */
  datatype Log = Log(
    stream: seq<char>, pos: nat, mark: nat, waiting: bool, alerted: bool, want: nat, got: seq<(nat, nat)>)

  function Unread(s: Log): seq<char>
    requires s.pos <= |s.stream|
  {
    s.stream[s.pos..]
  }

  /** The stretches are disjoint and in order. */
  ghost predicate InOrder(got: seq<(nat, nat)>, pos: nat) {
    && (forall i :: 0 <= i < |got| ==> got[i].0 <= got[i].1 <= pos)
    && forall i, j :: 0 <= i < j < |got| ==> got[i].1 <= got[j].0
  }

  /** What every step keeps; a reader that waits found nothing to read. */
  ghost predicate LogOk(s: Log, size: nat) {
    && s.pos <= |s.stream| <= s.pos + size && s.mark < size && InOrder(s.got, s.pos)
    && (s.waiting && !s.alerted ==> s.pos == |s.stream|)
  }

  // ---- Reading --------------------------------------------------------------------------

  function Took(s: Log, k: nat): Log
    requires s.pos + k <= |s.stream|
  {
    s.(pos := s.pos + k, got := s.got + [(s.pos, s.pos + k)])
  }

  lemma TookOk(s: Log, k: nat, size: nat)
    requires LogOk(s, size) && s.pos + k <= |s.stream| && !(s.waiting && !s.alerted)
    ensures LogOk(Took(s, k), size)
    ensures Unread(s) == s.stream[s.pos..s.pos + k] + Unread(Took(s, k))
  {
  }

  // ---- Writing --------------------------------------------------------------------------

  /** The bytes reach the buffer; the oldest ones give way. */
  function Wrote(s: Log, data: seq<char>, size: nat): Log
    requires s.pos <= |s.stream| && s.mark < size && |data| <= size - s.mark
  {
    var end := |s.stream| + |data|;
    s.(stream := s.stream + data, pos := if end - s.pos > size then end - size else s.pos,
       mark := Wrap(s.mark + |data|, size))
  }

  /** A suspended reader is served as soon as there is something. */
  function Served(s: Log): Log
    requires s.pos <= |s.stream|
  {
    if s.pos < |s.stream| && s.waiting && !s.alerted then
      Took(s, Min(s.want, |s.stream| - s.pos)).(alerted := true)
    else s
  }

  /** subwrite(): as much as fits in front of the end of the buffer. */
  function Sub(s: Log, data: seq<char>, size: nat): Log
    requires LogOk(s, size)
  {
    Served(Wrote(s, data[..Min(|data|, size - s.mark)], size))
  }

  lemma WroteOk(s: Log, data: seq<char>, size: nat)
    requires LogOk(s, size) && |data| <= size - s.mark
    ensures var t := Wrote(s, data, size);
            && t.pos <= |t.stream| <= t.pos + size && t.mark < size && InOrder(t.got, t.pos)
            && Unread(t) == Newest(Unread(s) + data, size)
  {
    var t := Wrote(s, data, size);
    assert Unread(s) + data == (s.stream + data)[s.pos..];
  }

  lemma SubOk(s: Log, data: seq<char>, size: nat)
    requires LogOk(s, size)
    ensures LogOk(Sub(s, data, size), size)
    ensures !(s.waiting && !s.alerted) ==>
      Unread(Sub(s, data, size)) == Newest(Unread(s) + data[..Min(|data|, size - s.mark)], size)
  {
    WroteOk(s, data[..Min(|data|, size - s.mark)], size);
  }

  /** The second subwrite() of log_append(), if anything is left for it. */
  function Rest(s: Log, data: seq<char>, size: nat): Log
    requires LogOk(s, size)
  {
    if data == [] then s else Sub(s, data, size)
  }

  /** Both writes together. */
  function Both(s: Log, d: seq<char>, size: nat): Log
    requires LogOk(s, size)
  {
    SubOk(s, d, size);
    if d == [] then s else Rest(Sub(s, d, size), d[Min(|d|, size - s.mark)..], size)
  }

  /** log_append() */
  function Append(s: Log, data: seq<char>, size: nat): Log
    requires LogOk(s, size)
  {
    Both(s, Newest(data, size), size)
  }

  lemma BothOk(s: Log, d: seq<char>, size: nat)
    requires LogOk(s, size)
    ensures LogOk(Both(s, d, size), size)
  {
    if d != [] {
      SubOk(s, d, size);
      SubOk(Sub(s, d, size), d[Min(|d|, size - s.mark)..], size);
    }
  }

  lemma AppendOk(s: Log, data: seq<char>, size: nat)
    requires LogOk(s, size)
    ensures LogOk(Append(s, data, size), size)
  {
    BothOk(s, Newest(data, size), size);
  }

  /** The second write starts at the front of the buffer and so takes all the rest. */
  lemma BothHold(s: Log, d: seq<char>, size: nat)
    requires LogOk(s, size) && |d| <= size && !(s.waiting && !s.alerted)
    ensures LogOk(Both(s, d, size), size) && Unread(Both(s, d, size)) == Newest(Unread(s) + d, size)
  {
    BothOk(s, d, size);
    SubOk(s, d, size);
    if d == [] {
      assert Unread(s) + d == Unread(s);
    } else if size - s.mark < |d| {
      SecondPart(s, d, size);
    } else {
      assert d[..|d|] == d;
    }
  }

  /** With nobody waiting, the log holds the newest unread bytes. */
  lemma AppendHolds(s: Log, data: seq<char>, size: nat)
    requires LogOk(s, size) && !(s.waiting && !s.alerted)
    ensures LogOk(Append(s, data, size), size)
    ensures Unread(Append(s, data, size)) == Newest(Unread(s) + data, size)
  {
    BothHold(s, Newest(data, size), size);
    NewestTail(Unread(s), data, size);
  }

  lemma NewestTail<T>(u: seq<T>, v: seq<T>, size: nat)
    ensures Newest(u + Newest(v, size), size) == Newest(u + v, size)
  {
    if |v| > size {
      var k := |v| - size;
      assert (u + v[k..])[|u|..] == v[k..] == (u + v)[|u| + k..];
    }
  }

  lemma SecondPart(s: Log, d: seq<char>, size: nat)
    requires LogOk(s, size) && |d| <= size && size - s.mark < |d| && !(s.waiting && !s.alerted)
    ensures LogOk(Sub(s, d, size), size)
    ensures Unread(Sub(Sub(s, d, size), d[size - s.mark..], size)) == Newest(Unread(s) + d, size)
  {
    var w := size - s.mark;
    var t := Sub(s, d, size);
    SubOk(s, d, size);
    SubOk(t, d[w..], size);
    assert t.mark == 0 && d[w..][..|d| - w] == d[w..];
    NewestTwice(Unread(s) + d[..w], d[w..], size);
    Parts(Unread(s), d, w);
  }

  lemma Parts<T>(u: seq<T>, d: seq<T>, w: nat)
    requires w <= |d|
    ensures (u + d[..w]) + d[w..] == u + d
  {
  }

  /** The first write serves the reader that waits. */
  lemma FirstServes(s: Log, d: seq<char>, size: nat)
    requires LogOk(s, size) && s.waiting && !s.alerted && d != []
    ensures LogOk(Sub(s, d, size), size)
    ensures var t, w := Sub(s, d, size), Min(|d|, size - s.mark);
            && t.alerted && t.stream == s.stream + d[..w] && t.pos == s.pos + Min(s.want, w)
            && t.got == s.got + [(s.pos, s.pos + Min(s.want, w))] && t.mark == Wrap(s.mark + w, size)
  {
    SubOk(s, d, size);
  }

  /** After that, writes that fit only extend the stream. */
  lemma ThenExtends(s: Log, d: seq<char>, size: nat)
    requires LogOk(s, size) && (!s.waiting || s.alerted)
    requires |d| <= size - s.mark && |s.stream| + |d| <= s.pos + size
    ensures Sub(s, d, size) == s.(stream := s.stream + d, mark := Wrap(s.mark + |d|, size))
  {
    assert d[..|d|] == d;
  }

  /**
   With a reader waiting it gets the front of what arrives, up to the end of the buffer,
   and the log keeps the rest.
   */
  lemma AppendServes(s: Log, data: seq<char>, size: nat)
    requires LogOk(s, size) && s.waiting && !s.alerted && data != []
    ensures var d, t := Newest(data, size), Append(s, data, size);
            var k := Min(s.want, Min(|d|, size - s.mark));
            && t.alerted && t.got == s.got + [(s.pos, s.pos + k)]
            && t.stream == s.stream + d && t.pos == s.pos + k
  {
    var d := Newest(data, size);
    var w := Min(|d|, size - s.mark);
    FirstServes(s, d, size);
    if w < |d| {
      ThenExtends(Sub(s, d, size), d[w..], size);
      Parts(s.stream, d, w);
    } else {
      assert d[..w] == d;
    }
  }

  // ---- Runs -----------------------------------------------------------------------------

  /** A write by the kernel, a read request, the reader's reply collected or cancelled. */
  datatype Event = Writes(data: seq<char>) | Reads(count: nat) | Collects

  /** The read mark: as far behind the write mark as there are unread bytes. */
  function ReadMark(s: Log, size: nat): nat
    requires LogOk(s, size)
  {
    var n := |s.stream| - s.pos;
    if n <= s.mark then s.mark - n else s.mark + size - n
  }

  /** Taking `n` bytes: in one go, or in two when they go round the end of the buffer. */
  function TookRound(s: Log, n: nat, size: nat): Log
    requires LogOk(s, size) && s.pos + n <= |s.stream|
  {
    var k := Min(n, size - ReadMark(s, size));
    if k == n then Took(s, n) else Took(Took(s, k), n - k)
  }

  /** log_transfer() for one read request. */
  function Asked(s: Log, count: nat, size: nat): Log
    requires LogOk(s, size)
  {
    if s.waiting || count < 1 then s
    else if s.pos == |s.stream| then s.(waiting := true, alerted := false, want := count)
    else TookRound(s, Min(count, |s.stream| - s.pos), size)
  }

  lemma TookRoundOk(s: Log, n: nat, size: nat)
    requires LogOk(s, size) && s.pos + n <= |s.stream| && !(s.waiting && !s.alerted)
    ensures LogOk(TookRound(s, n, size), size) && TookRound(s, n, size).pos == s.pos + n
    ensures s.stream == TookRound(s, n, size).stream && s.got <= TookRound(s, n, size).got
  {
    var k := Min(n, size - ReadMark(s, size));
    TookOk(s, k, size);
    if k < n {
      TookOk(Took(s, k), n - k, size);
    }
  }

  function Apply(s: Log, ev: Event, size: nat): Log
    requires LogOk(s, size)
  {
    match ev
    case Writes(data) => Append(s, data, size)
    case Reads(count) => Asked(s, count, size)
    case Collects => s.(waiting := false, alerted := false)
  }

  lemma ApplyOk(s: Log, ev: Event, size: nat)
    requires LogOk(s, size)
    ensures LogOk(Apply(s, ev, size), size)
    ensures s.stream <= Apply(s, ev, size).stream && s.got <= Apply(s, ev, size).got
  {
    match ev
    case Writes(data) =>
      AppendOk(s, data, size);
      AppendGrows(s, data, size);
    case Reads(count) =>
      if !s.waiting && s.pos < |s.stream| {
        TookRoundOk(s, Min(count, |s.stream| - s.pos), size);
      }
    case Collects =>
  }

  lemma AppendGrows(s: Log, data: seq<char>, size: nat)
    requires LogOk(s, size)
    ensures s.stream <= Append(s, data, size).stream && s.got <= Append(s, data, size).got
  {
    SubOk(s, Newest(data, size), size);
  }

  function After(s: Log, evs: seq<Event>, size: nat): Log
    requires LogOk(s, size)
    decreases |evs|
  {
    if evs == [] then s else ApplyOk(s, evs[0], size); After(Apply(s, evs[0], size), evs[1..], size)
  }

  /** Over any run readers get stretches of the stream in order, none twice, and nothing is rewritten. */
  lemma {:induction false} RunInOrder(s: Log, evs: seq<Event>, size: nat)
    requires LogOk(s, size)
    ensures LogOk(After(s, evs, size), size)
    ensures s.stream <= After(s, evs, size).stream && s.got <= After(s, evs, size).got
    decreases |evs|
  {
    if evs != [] {
      ApplyOk(s, evs[0], size);
      RunInOrder(Apply(s, evs[0], size), evs[1..], size);
    }
  }

  /** A read request: refused, suspended exactly when nothing is unread, or given the oldest unread bytes. */
  lemma AskedMeans(s: Log, count: nat, size: nat)
    requires LogOk(s, size)
    ensures var t := Asked(s, count, size);
            && t.stream == s.stream && t.mark == s.mark
            && (t == s <==> s.waiting || count == 0)
            && (t.waiting && !s.waiting <==> !s.waiting && count > 0 && s.pos == |s.stream|)
            && (t.waiting && !s.waiting ==> !t.alerted && t.want == count && t.pos == s.pos && t.got == s.got)
            && (!s.waiting ==> t.pos == s.pos + Min(count, |s.stream| - s.pos))
  {
    if !s.waiting && count > 0 && s.pos < |s.stream| {
      TookRoundOk(s, Min(count, |s.stream| - s.pos), size);
    }
  }

  /** A reader that found the log empty gets the front of what is written next. */
  lemma WaiterGets(s: Log, count: nat, data: seq<char>, size: nat)
    requires LogOk(s, size) && !s.waiting && s.pos == |s.stream| && count > 0 && data != []
    ensures LogOk(Asked(s, count, size), size)
    ensures var t, d := Append(Asked(s, count, size), data, size), Newest(data, size);
            var k := Min(count, Min(|d|, size - s.mark));
            && t.alerted && t.got == s.got + [(s.pos, s.pos + k)] && s.pos + k <= |t.stream|
            && t.stream[s.pos..s.pos + k] == d[..k]
  {
    AppendServes(Asked(s, count, size), data, size);
  }

  // ---- Nothing is lost unless the log overflows -------------------------------------------

  /** The stretches that readers got cover the stream from `from` on without a gap. */
  ghost predicate Tiled(s: Log, from: nat) {
    && (s.got == [] ==> s.pos == from)
    && (s.got != [] ==> s.got[0].0 == from && s.got[|s.got| - 1].1 == s.pos)
    && forall i :: 0 < i < |s.got| ==> s.got[i - 1].1 == s.got[i].0
  }

  /** A write that fits: what is unread and what arrives do not exceed the buffer. */
  predicate Fits(s: Log, ev: Event, size: nat) {
    ev.Writes? ==> |s.stream| - s.pos + |ev.data| <= size
  }

  predicate AllFit(s: Log, evs: seq<Event>, size: nat)
    requires LogOk(s, size)
    decreases |evs|
  {
    evs == [] ||
    (Fits(s, evs[0], size) && (ApplyOk(s, evs[0], size); AllFit(Apply(s, evs[0], size), evs[1..], size)))
  }

  lemma TookTiled(s: Log, k: nat, from: nat)
    requires Tiled(s, from) && s.pos + k <= |s.stream|
    ensures Tiled(Took(s, k), from)
  {
  }

  lemma SubTiled(s: Log, d: seq<char>, size: nat, from: nat)
    requires LogOk(s, size) && Tiled(s, from) && |s.stream| - s.pos + |d| <= size
    ensures LogOk(Sub(s, d, size), size) && Tiled(Sub(s, d, size), from)
    ensures var t := Sub(s, d, size); |t.stream| - t.pos <= |s.stream| - s.pos + Min(|d|, size - s.mark)
  {
    SubOk(s, d, size);
    var t := Wrote(s, d[..Min(|d|, size - s.mark)], size);
    assert Tiled(t, from);
    if t.pos < |t.stream| {
      TookTiled(t, Min(t.want, |t.stream| - t.pos), from);
    }
  }

  lemma RestTiled(s: Log, d: seq<char>, size: nat, from: nat)
    requires LogOk(s, size) && Tiled(s, from) && |s.stream| - s.pos + |d| <= size
    ensures Tiled(Rest(s, d, size), from)
  {
    SubTiled(s, d, size, from);
  }

  lemma BothTiled(s: Log, d: seq<char>, size: nat, from: nat)
    requires LogOk(s, size) && Tiled(s, from) && |s.stream| - s.pos + |d| <= size
    ensures Tiled(Both(s, d, size), from)
  {
    if d != [] {
      SubTiled(s, d, size, from);
      RestTiled(Sub(s, d, size), d[Min(|d|, size - s.mark)..], size, from);
    }
  }

  lemma RoundTiled(s: Log, n: nat, size: nat, from: nat)
    requires LogOk(s, size) && Tiled(s, from) && s.pos + n <= |s.stream|
    ensures Tiled(TookRound(s, n, size), from)
  {
    var k := Min(n, size - ReadMark(s, size));
    TookTiled(s, k, from);
    if k < n {
      TookTiled(Took(s, k), n - k, from);
    }
  }

  lemma ApplyTiled(s: Log, ev: Event, size: nat, from: nat)
    requires LogOk(s, size) && Tiled(s, from) && Fits(s, ev, size)
    ensures Tiled(Apply(s, ev, size), from)
  {
    match ev
    case Writes(data) =>
      BothTiled(s, data, size, from);
    case Reads(count) =>
      if !s.waiting && count > 0 && s.pos < |s.stream| {
        RoundTiled(s, Min(count, |s.stream| - s.pos), size, from);
      }
    case Collects =>
  }

  /** Over any run whose writes fit, readers get the whole stream as far as it was read, gapless. */
  lemma {:induction false} NothingLost(s: Log, evs: seq<Event>, size: nat, from: nat)
    requires LogOk(s, size) && Tiled(s, from) && AllFit(s, evs, size)
    ensures Tiled(After(s, evs, size), from)
    decreases |evs|
  {
    if evs != [] {
      ApplyOk(s, evs[0], size);
      ApplyTiled(s, evs[0], size, from);
      NothingLost(Apply(s, evs[0], size), evs[1..], size, from);
    }
  }
}
