/**
 Circular buffers: which sequence a buffer, a tail position and a count stand for, and
 what the usual pointer steps do to it.
 */
module Rings {

  function Wrap(i: nat, n: nat): (j: nat)
    requires i < n + n
    ensures j < n
  {
    if i < n then i else i - n
  }

  /** The `count` elements from `tail` on, round the end of the buffer. */
  function Ring<T>(buf: seq<T>, tail: nat, count: nat): (r: seq<T>)
    requires tail < |buf| && count <= |buf|
    ensures |r| == count && forall i :: 0 <= i < count ==> r[i] == buf[Wrap(tail + i, |buf|)]
  {
    seq(count, i requires 0 <= i < count => buf[Wrap(tail + i, |buf|)])
  }

  lemma RingPush<T>(buf: seq<T>, tail: nat, count: nat, x: T)
    requires tail < |buf| && count < |buf|
    ensures Ring(buf[Wrap(tail + count, |buf|) := x], tail, count + 1) == Ring(buf, tail, count) + [x]
  {
  }

  lemma RingPop<T>(buf: seq<T>, tail: nat, count: nat)
    requires tail < |buf| && 0 < count <= |buf|
    ensures Ring(buf, Wrap(tail + 1, |buf|), count - 1) == Ring(buf, tail, count)[1..]
  {
    var r, s := Ring(buf, tail, count), Ring(buf, Wrap(tail + 1, |buf|), count - 1);
    forall i | 0 <= i < |s| ensures s[i] == r[i + 1] {
      assert Wrap(Wrap(tail + 1, |buf|) + i, |buf|) == Wrap(tail + (i + 1), |buf|);
    }
  }

  lemma RingDrop<T>(buf: seq<T>, tail: nat, count: nat)
    requires tail < |buf| && 0 < count <= |buf|
    ensures Ring(buf, tail, count - 1) == Ring(buf, tail, count)[..count - 1]
  {
  }

  lemma RingSet<T>(buf: seq<T>, tail: nat, count: nat, i: nat, x: T)
    requires tail < |buf| && count <= |buf| && i < count
    ensures Ring(buf[Wrap(tail + i, |buf|) := x], tail, count) == Ring(buf, tail, count)[i := x]
  {
  }
}
