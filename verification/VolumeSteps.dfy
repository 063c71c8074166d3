/**
 What each kind of update to a volume does: it keeps `Ok`, changes the map in one key, and
 moves blocks between the free list and the files.
 */
module VolumeSteps {
  import opened Lists
  import opened Fat
  import opened Volumes
  import opened BlockStores

  // ---- Counting blocks ----------------------------------------------------------------

  /** The number of blocks on the files' chains. */
  ghost function Owned(chains: seq<seq<nat>>): nat {
    if chains == [] then 0 else |chains[0]| + Owned(chains[1..])
  }

  /** The blocks that are free or belong to a file; the others are lost until the next boot. */
  ghost function Live(v: Volume): nat {
    FreeCount(v.fat) + Owned(v.chains)
  }

  lemma {:induction false} OwnedUpdate(chains: seq<seq<nat>>, k: nat, c: seq<nat>)
    requires k < |chains|
    ensures Owned(chains[k := c]) == Owned(chains) - |chains[k]| + |c|
  {
    if k == 0 {
      assert chains[k := c][1..] == chains[1..];
    } else {
      OwnedUpdate(chains[1..], k - 1, c);
      assert chains[k := c][1..] == chains[1..][k - 1 := c];
    }
  }

  /** The blocks that free_chain() gives back for slot `i`. */
  ghost function Reclaimed(v: Volume, i: nat): nat
    requires i < |v.files| == |v.chains|
  {
    if v.files[i].firstBlock == 0 then 0 else |v.chains[i]|
  }

  // ---- One slot changes, no block does -------------------------------------------------

  /** Slot `k` gets another name or flag; its chain stays. */
  lemma Relabel(v: Volume, k: nat, e: Entry, size: nat)
    requires Ok(v, size) && k < |v.files| && KeysUnique(v.files[k := e])
    requires e.firstBlock == v.files[k].firstBlock && e.size == v.files[k].size && (e.used || e.size == 0)
    ensures Ok(v.(files := v.files[k := e]), size)
    ensures Contents(v.(files := v.files[k := e]), size) ==
            if e.used then Others(v, k, size)[KeyOf(e) := Data(v, k, size)] else Others(v, k, size)
  {
    var v' := v.(files := v.files[k := e]);
    ChainRange(v, k, size);
    assert v.chains[k := v.chains[k]] == v.chains;
    OtherBlocks(v, k, size);
    assert Fits(v.files[k], v.chains[k], size);
    SlotOk(v, v', k, e, v.chains[k], size);
    SlotContents(v, v', k, size);
  }

  /** A slot without blocks holds the empty file. */
  lemma EmptySlot(v: Volume, k: nat, size: nat)
    requires Ok(v, size) && k < |v.files| && (!v.files[k].used || v.files[k].size == 0)
    ensures v.chains[k] == [] && v.files[k].firstBlock == FAT_END && Data(v, k, size) == []
  {
    ChainRange(v, k, size);
    assert Fits(v.files[k], v.chains[k], size);
  }

  lemma OtherBlocks(v: Volume, k: nat, size: nat)
    requires Ok(v, size) && k < |v.files|
    ensures forall i, b :: 0 <= i < |v.files| && i != k && b in v.chains[i] ==>
      b !in v.chains[k] && b < |v.fat| && v.fat[b] != FAT_FREE
  {
    forall i, b | 0 <= i < |v.files| && i != k && b in v.chains[i]
      ensures b !in v.chains[k] && b < |v.fat| && v.fat[b] != FAT_FREE
    {
      ChainRange(v, i, size);
    }
  }

  // ---- free_chain() on a slot -----------------------------------------------------------

  ghost function Freed(v: Volume, k: nat, e: Entry, size: nat): Volume
    requires Ok(v, size) && k < |v.files|
  {
    ChainRange(v, k, size);
    v.(fat := if v.files[k].firstBlock == 0 then v.fat else Cleared(v.fat, v.chains[k]),
       files := v.files[k := e], chains := v.chains[k := []])
  }

  lemma FreedOk(v: Volume, k: nat, e: Entry, size: nat)
    requires Ok(v, size) && k < |v.files| && KeysUnique(v.files[k := e])
    requires e.firstBlock == FAT_END && e.size == 0
    ensures Ok(Freed(v, k, e, size), size)
    ensures FreeCount(Freed(v, k, e, size).fat) == FreeCount(v.fat) + Reclaimed(v, k)
    ensures Live(Freed(v, k, e, size)) == Live(v) + Reclaimed(v, k) - |v.chains[k]|
  {
    var v' := Freed(v, k, e, size);
    ChainRange(v, k, size);
    assert NoDup(v.chains[k]);
    ClearedIs(v.fat, v.chains[k]);
    OtherBlocks(v, k, size);
    SlotOk(v, v', k, e, [], size);
    OwnedUpdate(v.chains, k, []);
  }

  lemma FreedContents(v: Volume, k: nat, e: Entry, size: nat)
    requires Ok(v, size) && k < |v.files| && KeysUnique(v.files[k := e])
    requires e.firstBlock == FAT_END && e.size == 0
    ensures Ok(Freed(v, k, e, size), size)
    ensures Contents(Freed(v, k, e, size), size) ==
            if e.used then Others(v, k, size)[KeyOf(e) := []] else Others(v, k, size)
  {
    FreedOk(v, k, e, size);
    OtherBlocks(v, k, size);
    SlotContents(v, Freed(v, k, e, size), k, size);
  }

  // ---- write_to_blocks() for a slot -----------------------------------------------------

  ghost function Stored(v: Volume, k: nat, e: Entry, c: seq<nat>, fat: seq<int>, blocks: seq<seq<char>>): Volume
    requires k < |v.files| == |v.chains|
  {
    Volume(fat, blocks, v.files[k := e], v.chains[k := c])
  }

  lemma StoredOk(
    v: Volume, k: nat, e: Entry, c: seq<nat>, fat: seq<int>, blocks: seq<seq<char>>, data: seq<char>, size: nat)
    requires Ok(v, size) && k < |v.files| && KeysUnique(v.files[k := e]) && v.chains[k] == []
    requires e.used && e.size == |data|
    requires Written(v.fat, v.blocks, fat, blocks, e.firstBlock, c, data, size)
    requires forall b :: 0 <= b < |blocks| ==> |blocks[b]| == size
    ensures Ok(Stored(v, k, e, c, fat, blocks), size)
    ensures FreeCount(fat) == FreeCount(v.fat) - Need(size, |data|)
    ensures Live(Stored(v, k, e, c, fat, blocks)) == Live(v)
  {
    OtherBlocks(v, k, size);
    assert forall i, b :: 0 <= i < |v.files| && i != k && b in v.chains[i] ==> b !in c;
    SlotOk(v, Stored(v, k, e, c, fat, blocks), k, e, c, size);
    OwnedUpdate(v.chains, k, c);
  }

  lemma StoredContents(
    v: Volume, k: nat, e: Entry, c: seq<nat>, fat: seq<int>, blocks: seq<seq<char>>, data: seq<char>, size: nat)
    requires Ok(v, size) && k < |v.files| && KeysUnique(v.files[k := e]) && v.chains[k] == []
    requires e.used && e.size == |data|
    requires Written(v.fat, v.blocks, fat, blocks, e.firstBlock, c, data, size)
    requires forall b :: 0 <= b < |blocks| ==> |blocks[b]| == size
    ensures Ok(Stored(v, k, e, c, fat, blocks), size)
    ensures Contents(Stored(v, k, e, c, fat, blocks), size) == Others(v, k, size)[KeyOf(e) := data]
  {
    var v' := Stored(v, k, e, c, fat, blocks);
    StoredOk(v, k, e, c, fat, blocks, data, size);
    OtherBlocks(v, k, size);
    SlotContents(v, v', k, size);
    assert data[..|data|] == data;
  }

  /** A write that failed changed free blocks only, so every file is as it was. */
  lemma UnfinishedOk(v: Volume, fat: seq<int>, blocks: seq<seq<char>>, size: nat)
    requires Ok(v, size) && TakesFree(v.fat, v.blocks, fat, blocks)
    requires forall b :: 0 <= b < |blocks| ==> |blocks[b]| == size
    ensures Ok(v.(fat := fat, blocks := blocks), size)
  {
    forall i | 0 <= i < |v.files| ensures Linked(fat, FAT_END, v.files[i].firstBlock, v.chains[i]) {
      ChainRange(v, i, size);
      LinkedFrame(v.fat, fat, FAT_END, v.files[i].firstBlock, v.chains[i]);
    }
  }

  lemma Unfinished(v: Volume, fat: seq<int>, blocks: seq<seq<char>>, size: nat)
    requires Ok(v, size) && TakesFree(v.fat, v.blocks, fat, blocks)
    requires forall b :: 0 <= b < |blocks| ==> |blocks[b]| == size
    ensures Ok(v.(fat := fat, blocks := blocks), size)
    ensures Contents(v.(fat := fat, blocks := blocks), size) == Contents(v, size)
  {
    var v' := v.(fat := fat, blocks := blocks);
    UnfinishedOk(v, fat, blocks, size);
    forall key | key in Keys(v.files)
      ensures Data(v', Find(v.files, key, 0), size) == Data(v, Find(v.files, key, 0), size)
    {
      var i := Find(v.files, key, 0);
      ChainRange(v, i, size);
      SameData(v, v', i, size);
    }
  }

  // ---- Unique keys -----------------------------------------------------------------------

  lemma FreshKey(files: seq<Entry>, k: nat, e: Entry)
    requires KeysUnique(files) && k < |files|
    requires !e.used || Find(files, KeyOf(e), 0) == |files| || (files[k].used && KeyOf(files[k]) == KeyOf(e))
    ensures KeysUnique(files[k := e])
  {
  }

  lemma FindIs(v: Volume, key: Key, size: nat)
    requires Ok(v, size)
    ensures Find(v.files, key, 0) < |v.files| <==> key in Contents(v, size)
  {
    if key in Contents(v, size) {
      var i := SlotOf(v, key, size);
    } else {
      var i := Find(v.files, key, 0);
      if i < |v.files| {
        ContentsAt(v, i, size);
      }
    }
  }
}
