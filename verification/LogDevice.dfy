/**
 The log device's buffer and marks at work, proved against the stream they stand for.
 */
module LogDevices {
  import opened Rings
  import opened LogRing

  /** The buffer with `data` copied in at position `at`. */
  function Spliced(buf: seq<char>, at: nat, data: seq<char>): (r: seq<char>)
    requires at + |data| <= |buf|
    ensures |r| == |buf|
    ensures forall i :: 0 <= i < |buf| ==> r[i] == if at <= i < at + |data| then data[i - at] else buf[i]
  {
    seq(|buf|, i requires 0 <= i < |buf| => if at <= i < at + |data| then data[i - at] else buf[i])
  }

  /** How many of the oldest bytes `n` more overwrite. */
  function Overflow(count: nat, n: nat, size: nat): nat {
    if count + n > size then count + n - size else 0
  }

  function NewRead(read: nat, count: nat, n: nat, size: nat): nat
    requires read < size && count <= size && n <= size
  {
    Wrap(read + Overflow(count, n, size), size)
  }

  function NewCount(count: nat, n: nat, size: nat): nat {
    count + n - Overflow(count, n, size)
  }

  /** One more byte; it takes the place of the oldest when the ring is full. */
  lemma PushOver(buf: seq<char>, read: nat, count: nat, w: nat, x: char)
    requires read < |buf| && count <= |buf| && w == Wrap(read + count, |buf|)
    ensures Ring(buf[w := x], NewRead(read, count, 1, |buf|), NewCount(count, 1, |buf|)) ==
            Newest(Ring(buf, read, count) + [x], |buf|)
  {
    if count < |buf| {
      assert NewRead(read, count, 1, |buf|) == read && NewCount(count, 1, |buf|) == count + 1;
      PushRoom(buf, read, count, x);
    } else {
      assert NewRead(read, count, 1, |buf|) == Wrap(read + 1, |buf|) && NewCount(count, 1, |buf|) == count && w == read;
      PushFull(buf, read, x);
    }
  }

  lemma PushRoom(buf: seq<char>, read: nat, count: nat, x: char)
    requires read < |buf| && count < |buf|
    ensures Ring(buf[Wrap(read + count, |buf|) := x], read, count + 1) == Newest(Ring(buf, read, count) + [x], |buf|)
  {
    RingPush(buf, read, count, x);
  }

  lemma PushFull(buf: seq<char>, read: nat, x: char)
    requires read < |buf|
    ensures Ring(buf[read := x], Wrap(read + 1, |buf|), |buf|) == Newest(Ring(buf, read, |buf|) + [x], |buf|)
  {
    DropFirst(Ring(buf, read, |buf|), x);
    RingPop(buf, read, |buf|);
    RingPush(buf, Wrap(read + 1, |buf|), |buf| - 1, x);
    assert Wrap(Wrap(read + 1, |buf|) + (|buf| - 1), |buf|) == read;
  }

  lemma DropFirst(r: seq<char>, x: char)
    requires r != []
    ensures Newest(r + [x], |r|) == r[1..] + [x]
  {
  }

  lemma SplicedLast(buf: seq<char>, at: nat, data: seq<char>)
    requires data != [] && at + |data| <= |buf|
    ensures var n := |data| - 1;
            Spliced(buf, at, data) == Spliced(buf, at, data[..n])[at + n := data[n]]
  {
  }

  /** The marks after `n` bytes, one byte at a time. */
  lemma Marks(read: nat, count: nat, n: nat, size: nat)
    requires read < size && count <= size && n < size - Wrap(read + count, size)
    ensures var r, c := NewRead(read, count, n, size), NewCount(count, n, size);
            && c <= size && Wrap(r + c, size) == Wrap(read + count, size) + n
            && NewRead(read, count, n + 1, size) == NewRead(r, c, 1, size)
            && NewCount(count, n + 1, size) == NewCount(c, 1, size)
  {
  }

  /** The ring after `data` was copied in at the write mark. */
  function Overlaid(buf: seq<char>, read: nat, count: nat, data: seq<char>): seq<char>
    requires read < |buf| && count <= |buf| && Wrap(read + count, |buf|) + |data| <= |buf|
  {
    Ring(Spliced(buf, Wrap(read + count, |buf|), data), NewRead(read, count, |data|, |buf|),
         NewCount(count, |data|, |buf|))
  }

  lemma OverlaidLast(buf: seq<char>, read: nat, count: nat, data: seq<char>)
    requires read < |buf| && count <= |buf| && Wrap(read + count, |buf|) + |data| <= |buf| && data != []
    ensures Overlaid(buf, read, count, data) ==
            Newest(Overlaid(buf, read, count, data[..|data| - 1]) + [data[|data| - 1]], |buf|)
  {
    var w, n := Wrap(read + count, |buf|), |data| - 1;
    Marks(read, count, n, |buf|);
    SplicedLast(buf, w, data);
    PushOver(Spliced(buf, w, data[..n]), NewRead(read, count, n, |buf|), NewCount(count, n, |buf|), w + n, data[n]);
  }

  lemma OverlaidNone(buf: seq<char>, read: nat, count: nat)
    requires read < |buf| && count <= |buf|
    ensures Overlaid(buf, read, count, []) == Ring(buf, read, count)
  {
    assert Spliced(buf, Wrap(read + count, |buf|), []) == buf;
  }

  lemma Snoc(u: seq<char>, data: seq<char>)
    requires data != []
    ensures (u + data[..|data| - 1]) + [data[|data| - 1]] == u + data
  {
  }

  /** Copying in at the write mark and moving the read mark past what was overwritten. */
  lemma {:induction false} SplicedRing(buf: seq<char>, read: nat, count: nat, data: seq<char>)
    requires read < |buf| && count <= |buf| && Wrap(read + count, |buf|) + |data| <= |buf|
    ensures Overlaid(buf, read, count, data) == Newest(Ring(buf, read, count) + data, |buf|)
    decreases |data|
  {
    var u := Ring(buf, read, count);
    if data == [] {
      OverlaidNone(buf, read, count);
      assert u + data == u;
    } else {
      var n := |data| - 1;
      SplicedRing(buf, read, count, data[..n]);
      OverlaidLast(buf, read, count, data);
      NewestTwice(u + data[..n], [data[n]], |buf|);
      Snoc(u, data);
    }
  }

  class LogDevice {
    const buffer: array<char>
    var read: nat
    var write: nat
    var size: nat
    var waiting: bool           // log_proc_nr names a process
    var alerted: bool
    var want: nat
    var given: seq<char>        // what the suspended reader was handed
    ghost var log: Log

    ghost predicate Valid()
      reads this, buffer
    {
      Held() && (waiting && !alerted ==> log.pos == |log.stream|)
    }

    /** What holds between filling the buffer and serving the reader that waits. */
    ghost predicate Held()
      reads this, buffer
    {
      && read < buffer.Length && size <= buffer.Length && write == Wrap(read + size, buffer.Length)
      && log.pos <= |log.stream| <= log.pos + buffer.Length && InOrder(log.got, log.pos)
      && Ring(buffer[..], read, size) == Unread(log)
      && log == log.(mark := write, waiting := waiting, alerted := alerted, want := want)
    }

    constructor (n: nat)
      requires n > 0
      ensures Valid() && fresh(buffer) && buffer.Length == n && log == Log([], 0, 0, false, false, 0, [])
    {
      buffer := new char[n](_ => ' ');
      read, write, size, waiting, alerted, want, given := 0, 0, 0, false, false, 0, [];
      log := Log([], 0, 0, false, false, 0, []);
    }

    /** The memcpy() of subwrite(). */
    method CopyIn(data: seq<char>)
      requires write + |data| <= buffer.Length
      modifies buffer
      ensures buffer[..] == Spliced(old(buffer[..]), write, data)
    {
      var i := 0;
      while i < |data|
        invariant 0 <= i <= |data| && buffer[..] == Spliced(old(buffer[..]), write, data[..i])
      {
        buffer[write + i] := data[i];
        i := i + 1;
      }
      assert data[..i] == data;
    }

    /** subread(): the front of the unread bytes, at most up to the end of the buffer. */
    method SubRead(count: nat) returns (out: seq<char>)
      requires Valid() && (!waiting || alerted)
      modifies `read, `size, `log
      ensures Valid() && |out| == Min(Min(count, old(size)), buffer.Length - old(read))
      ensures out == Unread(old(log))[..|out|] && log == Took(old(log), |out|)
    {
      var n := if count > size then size else count;
      if read + n > buffer.Length {
        n := buffer.Length - read;
      }
      out := Take(n);
    }

    method Take(n: nat) returns (out: seq<char>)
      requires Valid() && (!waiting || alerted) && n <= size && read + n <= buffer.Length
      modifies `read, `size, `log
      ensures Valid() && |out| == n && size == old(size) - n
      ensures out == Unread(old(log))[..n] && log == Took(old(log), n)
    {
      TookOk(log, n, buffer.Length);
      TookUnread(log, n);
      out := Skip(n);
      log := Took(log, n);
    }

    /** The copy and the marks of subread(). */
    method Skip(n: nat) returns (out: seq<char>)
      requires read < buffer.Length && n <= size <= buffer.Length && read + n <= buffer.Length
      requires write == Wrap(read + size, buffer.Length)
      modifies `read, `size
      ensures read < buffer.Length && size == old(size) - n && write == Wrap(read + size, buffer.Length)
      ensures out == old(Ring(buffer[..], read, size))[..n]
      ensures Ring(buffer[..], read, size) == old(Ring(buffer[..], read, size))[n..]
    {
      RingSkip(buffer[..], read, size, n);
      out := buffer[..][read..read + n];
      read, size := Wrap(read + n, buffer.Length), size - n;
    }

    /** The part of subwrite() that fills the buffer. */
    method Fill(data: seq<char>)
      requires Valid() && write + |data| <= buffer.Length
      modifies `read, `write, `size, `log, buffer
      ensures Held() && log == Wrote(old(log), data, buffer.Length) && size == |Unread(log)|
      ensures Unread(log) == Newest(Unread(old(log)) + data, buffer.Length)
    {
      FillLog(buffer[..], read, size, log, data);
      Splice(data);
      log := Wrote(log, data, buffer.Length);
    }

    method Splice(data: seq<char>)
      requires read < buffer.Length && size <= buffer.Length && write == Wrap(read + size, buffer.Length)
      requires write + |data| <= buffer.Length
      modifies `read, `write, `size, buffer
      ensures read < buffer.Length && size <= buffer.Length
      ensures write == Wrap(old(write) + |data|, buffer.Length) == Wrap(read + size, buffer.Length)
      ensures Ring(buffer[..], read, size) == Overlaid(old(buffer[..]), old(read), old(size), data)
    {
      CopyIn(data);
      Advance(|data|);
    }

    /** The marks after `n` bytes were copied in. */
    method Advance(n: nat)
      requires read < buffer.Length && size <= buffer.Length && write == Wrap(read + size, buffer.Length)
      requires write + n <= buffer.Length
      modifies `read, `write, `size
      ensures read == NewRead(old(read), old(size), n, buffer.Length)
      ensures size == NewCount(old(size), n, buffer.Length)
      ensures write == Wrap(old(write) + n, buffer.Length) == Wrap(read + size, buffer.Length)
    {
      write := Wrap(write + n, buffer.Length);
      size := size + n;
      if size > buffer.Length {
        var overflow := size - buffer.Length;
        size := size - overflow;
        read := Wrap(read + overflow, buffer.Length);
      }
    }

    /** Serve a reader that waits, as soon as there is something. */
    method Serve()
      requires Held() && (waiting && !alerted ==> read + size <= buffer.Length)
      modifies `read, `size, `alerted, `given, `log
      ensures Valid() && log == Served(old(log))
      ensures given == if old(size) > 0 && waiting && !old(alerted) then Unread(old(log))[..Min(want, old(size))]
                       else old(given)
    {
      if size > 0 && waiting && !alerted {
        alerted := true;
        log := log.(alerted := true);
        given := SubRead(want);
      }
    }

    /** subwrite() */
    method SubWrite(data: seq<char>) returns (w: nat)
      requires Valid()
      modifies this, buffer
      ensures Valid() && w == Min(|data|, buffer.Length - old(write)) && log == Sub(old(log), data, buffer.Length)
      ensures old(waiting) && !old(alerted) && data != [] ==> given == data[..Min(old(want), w)]
      ensures !old(waiting) || old(alerted) ==> given == old(given)
    {
      w := |data|;
      if write + w > buffer.Length {
        w := buffer.Length - write;
      }
      FirstBytes(data, w, buffer.Length);
      Fill(data[..w]);
      Serve();
    }

    /** log_append() */
    method Append(data: seq<char>)
      requires Valid()
      modifies this, buffer
      ensures Valid() && log == LogRing.Append(old(log), data, buffer.Length)
    {
      if |data| < 1 {
        return;
      }
      var skip := if |data| > buffer.Length then |data| - buffer.Length else 0;
      assert data[skip..] == Newest(data, buffer.Length);
      WriteBoth(data[skip..]);
    }

    method WriteBoth(d: seq<char>)
      requires Valid() && d != []
      modifies this, buffer
      ensures Valid() && log == Both(old(log), d, buffer.Length)
    {
      var w := SubWrite(d);
      if 0 < w < |d| {
        var _ := SubWrite(d[w..]);
      }
    }

    /** log_transfer() for one read request: all there is, round the end of the buffer, or wait. */
    method Ask(count: nat) returns (out: seq<char>)
      requires Valid()
      modifies this
      ensures Valid() && log == Asked(old(log), count, buffer.Length)
      ensures out == if old(waiting) then [] else Unread(old(log))[..Min(count, old(size))]
    {
      out := [];
      if waiting || count < 1 {
        return;
      }
      if size == 0 {
        waiting, alerted, want := true, false, count;
        log := log.(waiting := true, alerted := false, want := count);
        return;
      }
      out := ReadLoop(count);
    }

    /** The rounds of log_transfer()'s loop: a second one only when the bytes go round the end. */
    method ReadLoop(count: nat) returns (out: seq<char>)
      requires Valid() && !waiting && count > 0 && size > 0
      modifies this
      ensures Valid() && !waiting && log == TookRound(old(log), Min(count, old(size)), buffer.Length)
      ensures out == Unread(old(log))[..Min(count, old(size))]
    {
      ghost var s, n := log, Min(count, size);
      out := [];
      var left := count;
      while left > 0 && size > 0
        invariant Valid() && !waiting && |out| + left == count && |out| + size == |Unread(s)|
        invariant Rounds(s, log, n, |out|, buffer.Length) && out == Unread(s)[..|out|]
        decreases left
      {
        var part := ReadRound(left, s, n, |out|);
        out := out + part;
        left := left - |part|;
      }
    }

    method ReadRound(left: nat, ghost s: Log, ghost n: nat, ghost m: nat) returns (part: seq<char>)
      requires Valid() && !waiting && Rounds(s, log, n, m, buffer.Length) && m < n && n - m == Min(left, size)
      modifies `read, `size, `log
      ensures Valid() && 0 < |part| <= left && size + |part| == old(size)
      ensures Rounds(s, log, n, m + |part|, buffer.Length) && Unread(s)[..m] + part == Unread(s)[..m + |part|]
    {
      MarkIs(log, read, size, buffer.Length);
      part := SubRead(left);
      NextRound(s, old(log), n, m, |part|, buffer.Length);
    }

    /** do_status() or log_cancel(): the reader has its answer. */
    method Collect()
      requires Valid()
      modifies `waiting, `alerted, `log
      ensures Valid() && log == Apply(old(log), Collects, buffer.Length)
    {
      waiting, alerted := false, false;
      log := log.(waiting := false, alerted := false);
    }
  }

  /** The buffer after a write stands for the log after it. */
  lemma FillLog(buf: seq<char>, read: nat, count: nat, s: Log, data: seq<char>)
    requires read < |buf| && count <= |buf| && s.mark == Wrap(read + count, |buf|) && s.mark + |data| <= |buf|
    requires LogOk(s, |buf|) && Ring(buf, read, count) == Unread(s)
    ensures var t := Wrote(s, data, |buf|);
            && t.pos <= |t.stream| <= t.pos + |buf| && InOrder(t.got, t.pos)
            && Overlaid(buf, read, count, data) == Unread(t) == Newest(Unread(s) + data, |buf|)
  {
    WroteOk(s, data, |buf|);
    SplicedRing(buf, read, count, data);
  }

  lemma FirstBytes(data: seq<char>, w: nat, size: nat)
    requires w <= |data| && w <= size
    ensures Newest([] + data[..w], size) == data[..w]
    ensures forall k: nat :: k <= w ==> data[..w][..k] == data[..k]
  {
  }

  /** Taking the first `n` off a ring when they do not go round the end. */
  lemma RingSkip(buf: seq<char>, tail: nat, count: nat, n: nat)
    requires tail < |buf| && n <= count <= |buf| && tail + n <= |buf|
    ensures buf[tail..tail + n] == Ring(buf, tail, count)[..n]
    ensures Ring(buf, Wrap(tail + n, |buf|), count - n) == Ring(buf, tail, count)[n..]
  {
    var r, s := Ring(buf, tail, count), Ring(buf, Wrap(tail + n, |buf|), count - n);
    forall i | 0 <= i < |s| ensures s[i] == r[n..][i] {
      assert Wrap(Wrap(tail + n, |buf|) + i, |buf|) == Wrap(tail + (n + i), |buf|);
    }
  }

  lemma TookUnread(s: Log, n: nat)
    requires s.pos + n <= |s.stream|
    ensures Unread(Took(s, n)) == Unread(s)[n..]
  {
  }

  lemma MarkIs(s: Log, read: nat, count: nat, size: nat)
    requires LogOk(s, size) && read < size && count == |s.stream| - s.pos && s.mark == Wrap(read + count, size)
    ensures count > 0 ==> read == ReadMark(s, size)
  {
  }

  /** `t` is the log after the first `m` of `n` bytes were read, in one round or in two. */
  ghost predicate Rounds(s: Log, t: Log, n: nat, m: nat, size: nat) {
    && LogOk(s, size) && s.pos + n <= |s.stream| && s.pos + m == t.pos && t.stream == s.stream
    && var k := Min(n, size - ReadMark(s, size));
       if m == n then t == TookRound(s, n, size) || (n == 0 && t == s)
       else (m == 0 && t == s) || (m == k && t == Took(s, k))
  }

  lemma NextRound(s: Log, t: Log, n: nat, m: nat, p: nat, size: nat)
    requires Rounds(s, t, n, m, size) && LogOk(t, size) && m < n && p == Min(n - m, size - ReadMark(t, size))
    ensures Rounds(s, Took(t, p), n, m + p, size)
    ensures Unread(s)[..m] + Unread(t)[..p] == Unread(s)[..m + p]
  {
    NextPart(s, t, m, p);
  }

  /** The bytes of the next round stand behind those read before. */
  lemma NextPart(s: Log, t: Log, n: nat, k: nat)
    requires s.pos + n == t.pos && t.stream == s.stream && t.pos + k <= |t.stream|
    ensures Unread(s)[..n] + Unread(t)[..k] == Unread(s)[..n + k]
  {
  }
}
