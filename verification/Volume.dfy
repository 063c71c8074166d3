/**
 The whole in-memory volume of src/fs.c as a value, the condition every operation keeps,
 and the map from (name, directory) to bytes that it stands for.
 */
module Volumes {
  import opened Lists
  import opened Fat

  /** struct file_entry */
  datatype Entry = Entry(name: string, dir: string, firstBlock: int, size: nat, used: bool)

  /** fat[], blocks[], files[], and for each slot the chain of blocks its file owns. */
  datatype Volume = Volume(fat: seq<int>, blocks: seq<seq<char>>, files: seq<Entry>, chains: seq<seq<nat>>)

  type Key = (string, string)

  function KeyOf(e: Entry): Key { (e.name, e.dir) }

  function Heads(files: seq<Entry>): seq<int> {
    seq(|files|, i requires 0 <= i < |files| => files[i].firstBlock)
  }

  /** The chain is as long as the size demands; an unused slot owns nothing. */
  ghost predicate Fits(e: Entry, c: seq<nat>, size: nat)
    requires size > 0
  {
    Ascending(c) && |c| == Need(size, e.size) && (!e.used ==> e.size == 0)
  }

  ghost predicate KeysUnique(files: seq<Entry>) {
    forall i, j {:trigger KeyOf(files[i]), KeyOf(files[j])} ::
      0 <= i < j < |files| && files[i].used && files[j].used ==> KeyOf(files[i]) != KeyOf(files[j])
  }

  /**
   What every operation keeps.  Blocks that are allocated but on no chain are allowed:
   a write that finds the disk full, and freeing a chain that starts at block 0, leave some.
   */
  ghost predicate Ok(v: Volume, size: nat) {
    && size > 0 && |v.blocks| == |v.fat| < FAT_END && |v.chains| == |v.files|
    && (forall b :: 0 <= b < |v.blocks| ==> |v.blocks[b]| == size)
    && Rows(v.fat, FAT_END, Heads(v.files), v.chains)
    && (forall i {:trigger Fits(v.files[i], v.chains[i], size)} ::
          0 <= i < |v.files| ==> Fits(v.files[i], v.chains[i], size))
    && KeysUnique(v.files)
  }

  /** A file's bytes: its blocks in order, cut to its size. */
  ghost function Data(v: Volume, i: nat, size: nat): (d: seq<char>)
    requires Ok(v, size) && i < |v.files|
    ensures |d| == v.files[i].size
  {
    ChainRange(v, i, size);
    assert Fits(v.files[i], v.chains[i], size);
    ConcatLength(v.blocks, v.chains[i], size);
    NeedIsCeiling(size, v.files[i].size, |v.chains[i]|);
    Concat(v.blocks, v.chains[i])[..v.files[i].size]
  }

  /** find_file(): the first slot from `from` on that holds the key, or the number of slots. */
  function Find(files: seq<Entry>, key: Key, from: nat): (i: nat)
    requires from <= |files|
    ensures from <= i <= |files|
    ensures i < |files| ==> files[i].used && KeyOf(files[i]) == key
    ensures forall j :: from <= j < i ==> !(files[j].used && KeyOf(files[j]) == key)
    decreases |files| - from
  {
    if from == |files| || (files[from].used && KeyOf(files[from]) == key) then from
    else Find(files, key, from + 1)
  }

  ghost function Keys(files: seq<Entry>): set<Key> {
    set i | 0 <= i < |files| && files[i].used :: KeyOf(files[i])
  }

  /** The map the volume stands for. */
  ghost function Contents(v: Volume, size: nat): map<Key, seq<char>>
    requires Ok(v, size)
  {
    map key | key in Keys(v.files) :: Data(v, Find(v.files, key, 0), size)
  }

  lemma ChainRange(v: Volume, i: nat, size: nat)
    requires Ok(v, size) && i < |v.files|
    ensures forall k :: 0 <= k < |v.chains[i]| ==> v.chains[i][k] < |v.fat| == |v.blocks|
    ensures forall k :: 0 <= k < |v.chains[i]| ==> v.fat[v.chains[i][k]] != FAT_FREE
    ensures Linked(v.fat, FAT_END, v.files[i].firstBlock, v.chains[i])
  {
    assert Linked(v.fat, FAT_END, Heads(v.files)[i], v.chains[i]) && Fits(v.files[i], v.chains[i], size);
    LinksNotFree(v.fat, v.files[i].firstBlock, v.chains[i]);
  }

  lemma HeadsUpdate(files: seq<Entry>, k: nat, e: Entry)
    requires k < |files|
    ensures Heads(files[k := e]) == Heads(files)[k := e.firstBlock]
  {
  }

  // ---- Changing one slot --------------------------------------------------------------

  /** Entry `k` takes over the chain `c`; every block of another file is as before. */
  lemma SlotOk(v: Volume, v': Volume, k: nat, e: Entry, c: seq<nat>, size: nat)
    requires Ok(v, size) && k < |v.files|
    requires v'.files == v.files[k := e] && v'.chains == v.chains[k := c]
    requires |v'.fat| == |v.fat| && |v'.blocks| == |v.blocks|
    requires forall b :: 0 <= b < |v'.blocks| ==> |v'.blocks[b]| == size
    requires Linked(v'.fat, FAT_END, e.firstBlock, c) && Fits(e, c, size) && KeysUnique(v'.files)
    requires forall i, b :: 0 <= i < |v.files| && i != k && b in v.chains[i] ==>
      b !in c && b < |v.fat| && v'.fat[b] == v.fat[b]
    ensures Ok(v', size)
  {
    HeadsUpdate(v.files, k, e);
    RowsFrame(v.fat, FAT_END, Heads(v.files), v.chains, v'.fat, k, e.firstBlock, c);
  }

  lemma ContentsAt(v: Volume, i: nat, size: nat)
    requires Ok(v, size) && i < |v.files| && v.files[i].used
    ensures KeyOf(v.files[i]) in Contents(v, size) && Contents(v, size)[KeyOf(v.files[i])] == Data(v, i, size)
    ensures Find(v.files, KeyOf(v.files[i]), 0) == i
  {
    var j := Find(v.files, KeyOf(v.files[i]), 0);
    assert j == i by {
      assert j <= i;
    }
  }

  lemma SlotOf(v: Volume, key: Key, size: nat) returns (i: nat)
    requires Ok(v, size) && key in Contents(v, size)
    ensures i < |v.files| && v.files[i].used && KeyOf(v.files[i]) == key
    ensures Contents(v, size)[key] == Data(v, i, size)
  {
    i := Find(v.files, key, 0);
  }

  /** `v'` differs from `v` in slot `k` only; the other files' blocks hold what they held. */
  ghost predicate OnlySlot(v: Volume, v': Volume, k: nat) {
    && k < |v.files| == |v'.files| == |v.chains| == |v'.chains| && |v'.blocks| == |v.blocks|
    && (forall i :: 0 <= i < |v.files| && i != k ==> v'.files[i] == v.files[i] && v'.chains[i] == v.chains[i])
    && (forall i, b :: 0 <= i < |v.files| && i != k && b in v.chains[i] ==>
          b < |v.blocks| && v'.blocks[b] == v.blocks[b])
  }

  /** The map without slot `k`'s file. */
  ghost function Others(v: Volume, k: nat, size: nat): map<Key, seq<char>>
    requires Ok(v, size) && k < |v.files|
  {
    if v.files[k].used then Contents(v, size) - {KeyOf(v.files[k])} else Contents(v, size)
  }

  /** A file that is not slot `k`'s is found under its key before and after. */
  lemma OtherKey(v: Volume, v': Volume, k: nat, size: nat, key: Key)
    requires Ok(v, size) && Ok(v', size) && OnlySlot(v, v', k) && key in Others(v, k, size)
    ensures key in Contents(v', size) && Contents(v', size)[key] == Contents(v, size)[key]
    ensures v'.files[k].used ==> KeyOf(v'.files[k]) != key
  {
    var i := SlotOf(v, key, size);
    assert i != k && v'.files[i] == v.files[i];
    SameData(v, v', i, size);
    ContentsAt(v', i, size);
    if v'.files[k].used && KeyOf(v'.files[k]) == key {
      ContentsAt(v', k, size);
      assert false;
    }
  }

  lemma OthersSame(v: Volume, v': Volume, k: nat, size: nat)
    requires Ok(v, size) && Ok(v', size) && OnlySlot(v, v', k)
    ensures forall key :: key in Others(v, k, size) ==>
      key in Others(v', k, size) && Others(v', k, size)[key] == Others(v, k, size)[key]
  {
    var m, m' := Others(v, k, size), Others(v', k, size);
    forall key | key in m ensures key in m' && m'[key] == m[key] {
      OtherKey(v, v', k, size, key);
    }
  }

  lemma OthersEqual(v: Volume, v': Volume, k: nat, size: nat)
    requires Ok(v, size) && Ok(v', size) && OnlySlot(v, v', k)
    ensures Others(v', k, size) == Others(v, k, size)
  {
    OthersSame(v, v', k, size);
    OthersSame(v', v, k, size);
  }

  /** The map is slot `k`'s file and the others. */
  lemma ContentsSplit(v: Volume, k: nat, size: nat)
    requires Ok(v, size) && k < |v.files|
    ensures Contents(v, size) ==
            if v.files[k].used then Others(v, k, size)[KeyOf(v.files[k]) := Data(v, k, size)] else Others(v, k, size)
  {
    if v.files[k].used {
      ContentsAt(v, k, size);
    }
  }

  /** What changing one slot does to the map. */
  lemma SlotContents(v: Volume, v': Volume, k: nat, size: nat)
    requires Ok(v, size) && Ok(v', size) && OnlySlot(v, v', k)
    ensures Contents(v', size) ==
            if v'.files[k].used then Others(v, k, size)[KeyOf(v'.files[k]) := Data(v', k, size)]
            else Others(v, k, size)
  {
    OthersEqual(v, v', k, size);
    ContentsSplit(v', k, size);
  }

  lemma SameData(v: Volume, v': Volume, i: nat, size: nat)
    requires Ok(v, size) && Ok(v', size) && i < |v.files| == |v'.files| && |v'.blocks| == |v.blocks|
    requires v'.files[i] == v.files[i] && v'.chains[i] == v.chains[i]
    requires forall b :: b in v.chains[i] ==> b < |v.blocks| && v'.blocks[b] == v.blocks[b]
    ensures Data(v', i, size) == Data(v, i, size)
  {
    ChainRange(v, i, size);
    forall j | 0 <= j < |v.chains[i]| ensures v'.blocks[v.chains[i][j]] == v.blocks[v.chains[i][j]] {
      assert v.chains[i][j] in v.chains[i];
    }
    ConcatFrame(v.blocks, v'.blocks, v.chains[i]);
  }
}
