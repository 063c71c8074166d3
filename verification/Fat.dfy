/**
 The block layer of the DugOS file system (src/fs.c): a file allocation table whose
 entries are FAT_FREE, FAT_END or the next block of a chain, and the blocks themselves.

 FAT_FREE is 0, which is also the number of a block.  A link to block 0 would read as
 "free"; it never occurs because a chain is allocated first-fit in one go and therefore
 strictly ascends.
 */
module Fat {
  import opened Lists

  const FAT_FREE: int := 0
  const FAT_END: int := 0xFFFF

  /** The bytes that `k` blocks of `size` bytes hold. */
  function Span(size: nat, k: nat): nat {
    if k == 0 then 0 else Span(size, k - 1) + size
  }

  /** The number of blocks that `len` bytes need. */
  function Need(size: nat, len: nat): nat
    requires size > 0
  {
    if len == 0 then 0 else if len <= size then 1 else 1 + Need(size, len - size)
  }

  ghost predicate Ascending(c: seq<nat>) {
    forall i, j :: 0 <= i < j < |c| ==> c[i] < c[j]
  }

  /** The blocks of a chain, one after the other. */
  function Concat(blocks: seq<seq<char>>, c: seq<nat>): seq<char>
    requires forall i :: 0 <= i < |c| ==> c[i] < |blocks|
  {
    if c == [] then [] else Concat(blocks, c[..|c| - 1]) + blocks[c[|c| - 1]]
  }

  /** How many blocks are free. */
  function FreeCount(fat: seq<int>): nat {
    if fat == [] then 0 else FreeCount(fat[..|fat| - 1]) + if fat[|fat| - 1] == FAT_FREE then 1 else 0
  }

  // ---- Block arithmetic ---------------------------------------------------------

  lemma {:induction false} SpanMonotone(size: nat, j: nat, k: nat)
    requires j <= k
    ensures Span(size, j) <= Span(size, k)
    decreases k
  {
    if j < k {
      SpanMonotone(size, j, k - 1);
    }
  }

  /** `Need` is the least number of blocks that is enough: the ceiling of len / size. */
  lemma {:induction false} NeedIsCeiling(size: nat, len: nat, k: nat)
    requires size > 0
    ensures Need(size, len) <= k <==> len <= Span(size, k)
    decreases len
  {
    if len > size {
      if k == 0 {
      } else {
        NeedIsCeiling(size, len - size, k - 1);
      }
    } else if len > 0 && k > 0 {
      SpanMonotone(size, 1, k);
      assert Span(size, 1) == Span(size, 0) + size == size;
    }
  }

  lemma {:induction false} ConcatLength(blocks: seq<seq<char>>, c: seq<nat>, size: nat)
    requires forall i :: 0 <= i < |c| ==> c[i] < |blocks|
    requires forall b :: 0 <= b < |blocks| ==> |blocks[b]| == size
    ensures |Concat(blocks, c)| == Span(size, |c|)
    decreases |c|
  {
    if c != [] {
      ConcatLength(blocks, c[..|c| - 1], size);
    }
  }

  lemma {:induction false} ConcatFrame(blocks: seq<seq<char>>, blocks': seq<seq<char>>, c: seq<nat>)
    requires |blocks| <= |blocks'|
    requires forall i :: 0 <= i < |c| ==> c[i] < |blocks| && blocks'[c[i]] == blocks[c[i]]
    ensures Concat(blocks', c) == Concat(blocks, c)
    decreases |c|
  {
    if c != [] {
      ConcatFrame(blocks, blocks', c[..|c| - 1]);
    }
  }

  lemma {:induction false} ConcatPrefix(blocks: seq<seq<char>>, c: seq<nat>, k: nat)
    requires k <= |c| && forall i :: 0 <= i < |c| ==> c[i] < |blocks|
    ensures |Concat(blocks, c[..k])| <= |Concat(blocks, c)|
    ensures Concat(blocks, c[..k]) == Concat(blocks, c)[..|Concat(blocks, c[..k])|]
    decreases |c|
  {
    if k < |c| {
      ConcatPrefix(blocks, c[..|c| - 1], k);
      assert c[..|c| - 1][..k] == c[..k];
    } else {
      assert c[..k] == c;
    }
  }

  // ---- Counting free blocks -------------------------------------------------------

  lemma {:induction false} FreeCountUpdate(fat: seq<int>, b: nat, v: int)
    requires b < |fat|
    ensures FreeCount(fat[b := v]) ==
            FreeCount(fat) - (if fat[b] == FAT_FREE then 1 else 0) + (if v == FAT_FREE then 1 else 0)
    decreases |fat|
  {
    var n := |fat| - 1;
    if b < n {
      FreeCountUpdate(fat[..n], b, v);
      assert fat[b := v][..n] == fat[..n][b := v];
    } else {
      assert fat[b := v][..n] == fat[..n];
    }
  }

  lemma {:induction false} FreeCountZero(fat: seq<int>)
    ensures FreeCount(fat) == 0 <==> forall b :: 0 <= b < |fat| ==> fat[b] != FAT_FREE
    decreases |fat|
  {
    if fat != [] {
      FreeCountZero(fat[..|fat| - 1]);
    }
  }

  // ---- Linking and unlinking -------------------------------------------------------

  /** A chain with the block `b` linked in at its end. */
  lemma ChainExtend(fat: seq<int>, first: int, c: seq<nat>, b: nat)
    requires Linked(fat, FAT_END, first, c) && Ascending(c) && b < |fat|
    requires c != [] ==> c[|c| - 1] < b
    ensures Ascending(c + [b])
    ensures c == [] ==> Linked(fat[b := FAT_END], FAT_END, b, [b])
    ensures c != [] ==> Linked(fat[b := FAT_END][c[|c| - 1] := b], FAT_END, first, c + [b])
  {
    if c != [] {
      var l := c[|c| - 1];
      assert forall i :: 0 <= i < |c| ==> c[i] <= l;
      LinkedAppend(fat, FAT_END, first, c, b);
      assert fat[b := FAT_END][l := b] == fat[l := b][b := FAT_END];
    }
  }

  /** No link of an ascending chain reads as FAT_FREE. */
  lemma LinksNotFree(fat: seq<int>, first: int, c: seq<nat>)
    requires Linked(fat, FAT_END, first, c) && Ascending(c)
    ensures forall i :: 0 <= i < |c| ==> c[i] < |fat| && fat[c[i]] != FAT_FREE
  {
    forall i | 0 <= i < |c| ensures c[i] < |fat| && fat[c[i]] != FAT_FREE {
      assert fat[c[i]] == Successor(c, i, FAT_END);
    }
  }

  /** The table with the blocks of `c` marked free. */
  function Cleared(fat: seq<int>, c: seq<nat>): (r: seq<int>)
    requires forall i :: 0 <= i < |c| ==> c[i] < |fat|
    ensures |r| == |fat|
  {
    if c == [] then fat else Cleared(fat, c[..|c| - 1])[c[|c| - 1] := FAT_FREE]
  }

  /** Exactly the blocks of the chain become free, and nothing else changes. */
  lemma {:induction false} ClearedIs(fat: seq<int>, c: seq<nat>)
    requires NoDup(c) && forall i :: 0 <= i < |c| ==> c[i] < |fat| && fat[c[i]] != FAT_FREE
    ensures forall b :: 0 <= b < |fat| ==> Cleared(fat, c)[b] == if b in c then FAT_FREE else fat[b]
    ensures FreeCount(Cleared(fat, c)) == FreeCount(fat) + |c|
    decreases |c|
  {
    if c != [] {
      var front, last := c[..|c| - 1], c[|c| - 1];
      assert c == front + [last];
      ClearedIs(fat, front);
      FreeCountUpdate(Cleared(fat, front), last, FAT_FREE);
    }
  }

  /** A block that is not on the chain stays what it was. */
  lemma {:induction false} ClearedElsewhere(fat: seq<int>, c: seq<nat>, b: nat)
    requires (forall i :: 0 <= i < |c| ==> c[i] < |fat| && c[i] != b) && b < |fat|
    ensures Cleared(fat, c)[b] == fat[b]
    decreases |c|
  {
    if c != [] {
      ClearedElsewhere(fat, c[..|c| - 1], b);
    }
  }

  /** One round of the freeing loop. */
  lemma ClearedStep(fat: seq<int>, c: seq<nat>, k: nat)
    requires Ascending(c) && k < |c| && forall i :: 0 <= i < |c| ==> c[i] < |fat|
    ensures Cleared(fat, c[..k])[c[k]] == fat[c[k]]
    ensures Cleared(fat, c[..k + 1]) == Cleared(fat, c[..k])[c[k] := FAT_FREE]
  {
    ClearedElsewhere(fat, c[..k], c[k]);
    assert c[..k + 1][..k] == c[..k];
  }
}
