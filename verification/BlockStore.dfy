/**
 The block layer of src/fs.c at work on its two arrays.
 */
module BlockStores {
  import opened Lists
  import opened Fat

  /** What a write that did not finish may have changed: free blocks only. */
  ghost predicate TakesFree(fat: seq<int>, blocks: seq<seq<char>>, fat': seq<int>, blocks': seq<seq<char>>) {
    && |fat'| == |fat| == |blocks| == |blocks'|
    && forall b :: 0 <= b < |fat| && fat[b] != FAT_FREE ==> fat'[b] == fat[b] && blocks'[b] == blocks[b]
  }

  /**
   A chain under construction: it took the lowest free blocks, in order, and touched no
   other block.
   */
  ghost predicate Built(
    fat0: seq<int>, blocks0: seq<seq<char>>, fat: seq<int>, blocks: seq<seq<char>>, first: int, c: seq<nat>)
  {
    && |fat0| == |fat| == |blocks| == |blocks0| < FAT_END
    && Linked(fat, FAT_END, first, c) && Ascending(c)
    && WereFree(fat0, c)
    && (forall b :: 0 <= b < |fat| && (fat0[b] != FAT_FREE || Beyond(c, b)) ==>
          fat[b] == fat0[b] && blocks[b] == blocks0[b])
    && FreeCount(fat) + |c| == FreeCount(fat0)
  }

  /** The chain has not come as far as block `b`. */
  predicate Beyond(c: seq<nat>, b: int) {
    c == [] || c[|c| - 1] < b
  }

  ghost predicate WereFree(fat0: seq<int>, c: seq<nat>) {
    forall i :: 0 <= i < |c| ==> c[i] < |fat0| && fat0[c[i]] == FAT_FREE
  }

  /** Everything up to the end of the chain is in use. */
  ghost predicate FirstFit(fat: seq<int>, c: seq<nat>) {
    c != [] ==> forall b :: 0 <= b < |fat| && b <= c[|c| - 1] ==> fat[b] != FAT_FREE
  }

  /** The table after block `b` was linked behind the chain `c`. */
  ghost function Link(fat: seq<int>, c: seq<nat>, b: nat): seq<int>
    requires b < |fat| && (c != [] ==> c[|c| - 1] < |fat|)
  {
    if c == [] then fat[b := FAT_END] else fat[b := FAT_END][c[|c| - 1] := b]
  }

  lemma LinkFree(fat: seq<int>, c: seq<nat>, b: nat)
    requires b < |fat| && fat[b] == FAT_FREE
    requires c != [] ==> c[|c| - 1] < b && fat[c[|c| - 1]] != FAT_FREE
    ensures FreeCount(Link(fat, c, b)) == FreeCount(fat) - 1
  {
    FreeCountUpdate(fat, b, FAT_END);
    if c != [] {
      FreeCountUpdate(fat[b := FAT_END], c[|c| - 1], b);
    }
  }

  lemma BuildStep(
    fat0: seq<int>, blocks0: seq<seq<char>>, fat: seq<int>, blocks: seq<seq<char>>, first: int, c: seq<nat>,
    b: nat, bytes: seq<char>)
    requires Built(fat0, blocks0, fat, blocks, first, c) && b < |fat| && fat[b] == FAT_FREE && Beyond(c, b)
    ensures Built(fat0, blocks0, Link(fat, c, b), blocks[b := bytes], if c == [] then b else first, c + [b])
  {
    LinksNotFree(fat, first, c);
    LinkFree(fat, c, b);
    ChainExtend(fat, first, c, b);
  }

  lemma FirstFitStep(fat: seq<int>, c: seq<nat>, b: nat)
    requires FirstFit(fat, c) && b < |fat| && fat[b] == FAT_FREE && (c != [] ==> c[|c| - 1] < |fat|)
    requires forall j :: 0 <= j < b ==> fat[j] != FAT_FREE
    ensures Beyond(c, b)
    ensures FirstFit(Link(fat, c, b), c + [b])
  {
  }

  /** The chain's blocks begin with the first `n` bytes of the data. */
  ghost predicate Holds(blocks: seq<seq<char>>, c: seq<nat>, data: seq<char>, n: nat) {
    && (forall i :: 0 <= i < |c| ==> c[i] < |blocks|)
    && n <= |Concat(blocks, c)| && n <= |data| && Concat(blocks, c)[..n] == data[..n]
  }

  lemma HoldStep(blocks: seq<seq<char>>, c: seq<nat>, data: seq<char>, n: nat, b: nat, chunk: nat, rest: seq<char>)
    requires Holds(blocks, c, data, n) && |Concat(blocks, c)| == n && b < |blocks|
    requires c != [] ==> c[|c| - 1] < b && Ascending(c)
    requires n + chunk <= |data|
    ensures Holds(blocks[b := data[n..n + chunk] + rest], c + [b], data, n + chunk)
    ensures |Concat(blocks[b := data[n..n + chunk] + rest], c + [b])| == n + chunk + |rest|
  {
    var bytes := data[n..n + chunk] + rest;
    var blocks', c' := blocks[b := bytes], c + [b];
    forall i | 0 <= i < |c| ensures c[i] != b { assert c[i] <= c[|c| - 1]; }
    ConcatFrame(blocks, blocks', c);
    assert c'[..|c|] == c;
    assert Concat(blocks', c') == data[..n] + bytes;
    assert data[..n] + data[n..n + chunk] == data[..n + chunk];
  }

  /** The state of write_to_blocks()'s loop with `n` bytes written. */
  ghost predicate Writing(
    fat0: seq<int>, blocks0: seq<seq<char>>, fat: seq<int>, blocks: seq<seq<char>>, first: int, c: seq<nat>,
    data: seq<char>, n: nat, size: nat)
  {
    && size > 0 && Built(fat0, blocks0, fat, blocks, first, c) && FirstFit(fat, c) && Holds(blocks, c, data, n)
    && |c| + Need(size, |data| - n) == Need(size, |data|)
    && (n < |data| ==> |Concat(blocks, c)| == n)
  }

  lemma WriteStart(fat0: seq<int>, blocks0: seq<seq<char>>, data: seq<char>, size: nat)
    requires size > 0 && |fat0| == |blocks0| < FAT_END
    ensures Writing(fat0, blocks0, fat0, blocks0, FAT_END, [], data, 0, size)
  {
  }

  lemma WriteStep(
    fat0: seq<int>, blocks0: seq<seq<char>>, fat: seq<int>, blocks: seq<seq<char>>, first: int, c: seq<nat>,
    data: seq<char>, n: nat, size: nat, b: nat, chunk: nat)
    requires Writing(fat0, blocks0, fat, blocks, first, c, data, n, size) && n < |data|
    requires b < |fat| && fat[b] == FAT_FREE && (forall j :: 0 <= j < b ==> fat[j] != FAT_FREE)
    requires |blocks[b]| == size && chunk == if |data| - n > size then size else |data| - n
    ensures c != [] ==> c[|c| - 1] < b
    ensures Writing(fat0, blocks0, Link(fat, c, b), blocks[b := data[n..n + chunk] + blocks[b][chunk..]],
                    if c == [] then b else first, c + [b], data, n + chunk, size)
  {
    FirstFitStep(fat, c, b);
    BuildStep(fat0, blocks0, fat, blocks, first, c, b, data[n..n + chunk] + blocks[b][chunk..]);
    HoldStep(blocks, c, data, n, b, chunk, blocks[b][chunk..]);
    NeedStep(size, |data|, n, chunk, |c|);
  }

  lemma NeedStep(size: nat, len: nat, n: nat, chunk: nat, k: nat)
    requires size > 0 && n < len && chunk == if len - n > size then size else len - n
    requires k + Need(size, len - n) == Need(size, len)
    ensures k + 1 + Need(size, len - (n + chunk)) == Need(size, len)
  {
  }

  /**
   A finished write: the chain `c` ascends from `first`, took only blocks that were free,
   is as long as the data need, and its blocks begin with the data.
   */
  ghost predicate Written(
    fat0: seq<int>, blocks0: seq<seq<char>>, fat: seq<int>, blocks: seq<seq<char>>, first: int, c: seq<nat>,
    data: seq<char>, size: nat)
  {
    && size > 0 && Built(fat0, blocks0, fat, blocks, first, c) && Holds(blocks, c, data, |data|)
    && |c| == Need(size, |data|)
  }

  /** Disk full: the blocks that were free are all on the chain, and they are too few. */
  lemma WriteFull(
    fat0: seq<int>, blocks0: seq<seq<char>>, fat: seq<int>, blocks: seq<seq<char>>, first: int, c: seq<nat>,
    data: seq<char>, n: nat, size: nat)
    requires Writing(fat0, blocks0, fat, blocks, first, c, data, n, size)
    ensures TakesFree(fat0, blocks0, fat, blocks)
    ensures n < |data| && FreeCount(fat) == 0 ==> FreeCount(fat0) < Need(size, |data|)
    ensures n == |data| ==> FreeCount(fat0) >= Need(size, |data|) && first != |fat|
    ensures n == |data| ==> Written(fat0, blocks0, fat, blocks, first, c, data, size)
  {
  }

  // ---- Reading a chain back -----------------------------------------------------------

  lemma ChainCovers(blocks: seq<seq<char>>, c: seq<nat>, size: nat, len: nat)
    requires size > 0 && |c| == Need(size, len) && forall i :: 0 <= i < |c| ==> c[i] < |blocks|
    requires forall b :: 0 <= b < |blocks| ==> |blocks[b]| == size
    ensures len <= |Concat(blocks, c)|
  {
    ConcatLength(blocks, c, size);
    NeedIsCeiling(size, len, |c|);
  }

  /** `k` blocks were walked and `left` bytes are still wanted. */
  ghost predicate ReadSoFar(blocks: seq<seq<char>>, c: seq<nat>, k: nat, len: nat, left: nat, out: seq<char>) {
    && k <= |c| && left <= len && (forall i :: 0 <= i < |c| ==> c[i] < |blocks|)
    && len <= |Concat(blocks, c)| && len - left <= |Concat(blocks, c[..k])|
    && out == Concat(blocks, c[..k])[..len - left]
    && (left > 0 ==> |Concat(blocks, c[..k])| == len - left)
  }

  lemma ReadStep(
    blocks: seq<seq<char>>, c: seq<nat>, k: nat, len: nat, left: nat, out: seq<char>, size: nat, chunk: nat)
    requires ReadSoFar(blocks, c, k, len, left, out) && k < |c| && left > 0
    requires |blocks[c[k]]| == size && chunk == if left < size then left else size
    ensures ReadSoFar(blocks, c, k + 1, len, left - chunk, out + blocks[c[k]][..chunk])
  {
    assert c[..k + 1][..k] == c[..k];
    assert Concat(blocks, c[..k + 1]) == Concat(blocks, c[..k]) + blocks[c[k]];
  }

  lemma ReadDone(blocks: seq<seq<char>>, c: seq<nat>, k: nat, len: nat, left: nat, out: seq<char>)
    requires ReadSoFar(blocks, c, k, len, left, out) && (left == 0 || k == |c|)
    ensures out == Concat(blocks, c)[..len]
  {
    ConcatPrefix(blocks, c, k);
    assert k == |c| ==> c[..k] == c;
  }

  class BlockStore {
    const size: nat                     // FS_BLOCK_SIZE
    const fat: array<int>
    const blocks: array<seq<char>>

    ghost predicate Valid()
      reads this, fat, blocks
    {
      && size > 0 && fat.Length == blocks.Length < FAT_END
      && forall b :: 0 <= b < blocks.Length ==> |blocks[b]| == size
    }

    /** fs_init()'s FAT loop on arrays that start out zeroed. */
    constructor (size: nat, n: nat, zeroed: seq<char>)
      requires size > 0 && n < FAT_END && |zeroed| == size
      ensures Valid() && fresh(fat) && fresh(blocks) && this.size == size && fat.Length == n
      ensures forall b :: 0 <= b < n ==> fat[b] == FAT_FREE
    {
      this.size := size;
      fat := new int[n](_ => FAT_FREE);
      blocks := new seq<char>[n](_ => zeroed);
    }

    /** alloc_block(): the first free block, or the number of blocks. */
    method AllocBlock() returns (b: nat)
      requires Valid()
      ensures b <= fat.Length && (b < fat.Length ==> fat[b] == FAT_FREE)
      ensures forall j :: 0 <= j < b ==> fat[j] != FAT_FREE
      ensures b == fat.Length <==> FreeCount(fat[..]) == 0
    {
      b := 0;
      while b < fat.Length && fat[b] != FAT_FREE
        invariant 0 <= b <= fat.Length && forall j :: 0 <= j < b ==> fat[j] != FAT_FREE
      {
        b := b + 1;
      }
      FreeCountZero(fat[..]);
    }

    /**
     free_chain(): frees exactly the blocks of the chain, unless it starts at block 0;
     then the guard takes its head for FAT_FREE and nothing is freed.
     */
    method FreeChain(head: int, ghost c: seq<nat>)
      requires Valid() && Linked(fat[..], FAT_END, head, c) && Ascending(c)
      modifies fat
      ensures Valid() && forall i :: 0 <= i < |c| ==> c[i] < fat.Length
      ensures fat[..] == if head == 0 then old(fat[..]) else Cleared(old(fat[..]), c)
    {
      ghost var was := fat[..];
      var start := head;
      ghost var k := 0;
      LinksNotFree(was, head, c);
      while start < fat.Length && start != FAT_END && start != FAT_FREE
        invariant 0 <= k <= |c| && (head == 0 ==> k == 0) && start == if k < |c| then c[k] else FAT_END
        invariant fat[..] == Cleared(was, c[..k])
        decreases |c| - k
      {
        ClearedStep(was, c, k);
        assert was[c[k]] == Successor(c, k, FAT_END);
        var next := fat[start];
        fat[start] := FAT_FREE;
        start, k := next, k + 1;
      }
      assert head != 0 ==> c[..k] == c;
    }

    /**
     write_to_blocks(): on success the new chain `c` ascends, is as long as the data
     need, was free before, and reads back as the data; it succeeds iff enough blocks were
     free.  On failure the return value is the number of blocks, only free blocks changed, and
     none of them is free any more.
     */
    method WriteToBlocks(data: seq<char>) returns (first: int, ghost c: seq<nat>)
      requires Valid()
      modifies fat, blocks
      ensures Valid() && TakesFree(old(fat[..]), old(blocks[..]), fat[..], blocks[..])
      ensures first == fat.Length <==> FreeCount(old(fat[..])) < Need(size, |data|)
      ensures first == fat.Length ==> FreeCount(fat[..]) == 0
      ensures first != fat.Length ==>
        Written(old(fat[..]), old(blocks[..]), fat[..], blocks[..], first, c, data, size)
    {
      ghost var fat0, blocks0 := fat[..], blocks[..];
      var written;
      first, written, c := WriteLoop(data);
      WriteFull(fat0, blocks0, fat[..], blocks[..], first, c, data, written, size);
      if written < |data| {
        first := fat.Length;
      }
    }

    /** The loop of write_to_blocks(): it ends with the data written or with no block free. */
    method WriteLoop(data: seq<char>) returns (first: int, written: nat, ghost c: seq<nat>)
      requires Valid()
      modifies fat, blocks
      ensures Valid() && written <= |data| && (written < |data| ==> FreeCount(fat[..]) == 0)
      ensures Writing(old(fat[..]), old(blocks[..]), fat[..], blocks[..], first, c, data, written, size)
    {
      first, written, c := FAT_END, 0, [];
      var prev := FAT_END;
      ghost var fat0, blocks0 := fat[..], blocks[..];
      WriteStart(fat0, blocks0, data, size);
      while written < |data|
        invariant Valid() && 0 <= written <= |data|
        invariant Writing(fat0, blocks0, fat[..], blocks[..], first, c, data, written, size)
        invariant prev == if c == [] then FAT_END else c[|c| - 1]
      {
        var blk, chunk, head := WriteBlock(data, written, prev, first, fat0, blocks0, c);
        if blk == fat.Length {
          return;
        }
        first, prev, written, c := head, blk, written + chunk, c + [blk];
      }
    }

    /** One round of write_to_blocks(): the block it took, or the number of blocks. */
    method WriteBlock(
      data: seq<char>, written: nat, prev: int, first: int,
      ghost fat0: seq<int>, ghost blocks0: seq<seq<char>>, ghost c: seq<nat>)
      returns (blk: nat, chunk: nat, head: int)
      requires Valid() && written < |data| && prev == if c == [] then FAT_END else c[|c| - 1]
      requires Writing(fat0, blocks0, fat[..], blocks[..], first, c, data, written, size)
      modifies fat, blocks
      ensures Valid() && blk <= fat.Length && 0 < chunk <= |data| - written
      ensures blk == fat.Length ==>
        fat[..] == old(fat[..]) && blocks[..] == old(blocks[..]) && FreeCount(fat[..]) == 0
      ensures blk < fat.Length ==>
        Writing(fat0, blocks0, fat[..], blocks[..], head, c + [blk], data, written + chunk, size)
    {
      blk := AllocBlock();
      chunk := if |data| - written > size then size else |data| - written;
      if blk < fat.Length {
        WriteStep(fat0, blocks0, fat[..], blocks[..], first, c, data, written, size, blk, chunk);
        AddBlock(blk, prev, data[written..written + chunk], c);
      }
      head := if first == FAT_END then blk else first;
    }

    /** Link a fresh block in and fill it. */
    method AddBlock(blk: nat, prev: int, bytes: seq<char>, ghost c: seq<nat>)
      requires Valid() && blk < fat.Length && |bytes| <= size
      requires prev == if c == [] then FAT_END else c[|c| - 1]
      requires c != [] ==> c[|c| - 1] < blk
      modifies fat, blocks
      ensures Valid() && fat[..] == Link(old(fat[..]), c, blk)
      ensures blocks[..] == old(blocks[..])[blk := bytes + old(blocks[blk])[|bytes|..]]
    {
      fat[blk] := FAT_END;
      if prev != FAT_END {
        fat[prev] := blk;
      }
      blocks[blk] := bytes + blocks[blk][|bytes|..];
    }

    /** The chain walk of fs_read(), fs_edit() and fs_copy(): the first `len` bytes of a chain. */
    method ReadChain(head: int, len: nat, ghost c: seq<nat>) returns (out: seq<char>)
      requires Valid() && Linked(fat[..], FAT_END, head, c) && |c| == Need(size, len)
      ensures len <= |Concat(blocks[..], c)| && out == Concat(blocks[..], c)[..len]
    {
      var blk, left := head, len;
      ghost var k := 0;
      out := [];
      ChainCovers(blocks[..], c, size, len);
      while blk < fat.Length && left > 0
        invariant 0 <= k <= |c| && 0 <= left <= len && blk == if k < |c| then c[k] else FAT_END
        invariant ReadSoFar(blocks[..], c, k, len, left, out)
        decreases |c| - k
      {
        assert fat[..][c[k]] == Successor(c, k, FAT_END);
        var chunk := if left < size then left else size;
        ReadStep(blocks[..], c, k, len, left, out, size, chunk);
        out := out + blocks[blk][..chunk];
        left, blk, k := left - chunk, fat[blk], k + 1;
      }
      ReadDone(blocks[..], c, k, len, left, out);
    }
  }
}
