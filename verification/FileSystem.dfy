/**
 The file operations of src/fs.c.  Each is stated as an update of the map from
 (name, directory) to bytes, with the exact condition for every error and the exact
 number of blocks that are free afterwards.

 Lines typed at the keyboard are a parameter, as readline() delivers them; the end of the
 list stands for the terminating line.
 */
module FileSystems {
  import opened Lists
  import opened Fat
  import opened Volumes
  import opened BlockStores
  import opened VolumeSteps

  const FS_NAME_LEN := 64
  const FS_DIR_LEN := 64

  datatype Outcome = Done | NoName | NotFound | Exists | DirFull | DiskFull | Cancelled

  predicate Blank(c: char) {
    c == ' ' || c == '\t' || c == '\r' || c == '\n'
  }

  /** A confirmation prompt was answered with yes. */
  predicate Yes(answer: string) {
    answer != "" && (answer[0] == 'y' || answer[0] == 'Y')
  }

  /** trim_line(): the longest prefix that does not end in a blank. */
  function Trim(s: string): (r: string)
    ensures r <= s && (r != [] ==> !Blank(r[|r| - 1]))
    ensures forall i :: |r| <= i < |s| ==> Blank(s[i])
  {
    if s != [] && Blank(s[|s| - 1]) then Trim(s[..|s| - 1]) else s
  }

  /** Typing `lines` after `buf`: lines that do not fit are dropped whole, "." ends the input. */
  function Typed(lines: seq<string>, buf: seq<char>, cap: nat): (r: seq<char>)
    ensures buf <= r && (|buf| <= cap ==> |r| <= cap)
    ensures r != buf ==> r[|r| - 1] == '\n'
  {
    if lines == [] || Trim(lines[0]) == "." then buf
    else if |buf| + |Trim(lines[0])| + 1 <= cap then Typed(lines[1..], buf + Trim(lines[0]) + "\n", cap)
    else Typed(lines[1..], buf, cap)
  }

  /** One line: stored with its line feed if it fits, else dropped whole; "." adds nothing. */
  lemma TypedOne(line: string, buf: seq<char>, cap: nat)
    ensures Typed([line], buf, cap) ==
            if Trim(line) == "." || |buf| + |Trim(line)| + 1 > cap then buf else buf + Trim(line) + "\n"
  {
    assert [line][1..] == [];
  }

  /** Typing in two sittings is the same as typing at once. */
  lemma {:induction false} TypedTwice(a: seq<string>, b: seq<string>, buf: seq<char>, cap: nat)
    requires forall i :: 0 <= i < |a| ==> Trim(a[i]) != "."
    ensures Typed(a + b, buf, cap) == Typed(b, Typed(a, buf, cap), cap)
    decreases |a|
  {
    if a == [] {
      assert a + b == b;
    } else {
      assert (a + b)[1..] == a[1..] + b && (a + b)[0] == a[0];
      TypedTwice(a[1..], b, if |buf| + |Trim(a[0])| + 1 <= cap then buf + Trim(a[0]) + "\n" else buf, cap);
    }
  }

  /** What is typed behind a "." is not part of the file. */
  lemma TypedToDot(a: seq<string>, dot: string, b: seq<string>, buf: seq<char>, cap: nat)
    requires (forall i :: 0 <= i < |a| ==> Trim(a[i]) != ".") && Trim(dot) == "."
    ensures Typed(a + [dot] + b, buf, cap) == Typed(a, buf, cap)
  {
    assert a + [dot] + b == a + ([dot] + b);
    TypedTwice(a, [dot] + b, buf, cap);
  }

  function Joined(lines: seq<string>): seq<char> {
    if lines == [] then [] else Joined(lines[..|lines| - 1]) + Trim(lines[|lines| - 1]) + "\n"
  }

  /** Lines that fit are stored one behind the other. */
  lemma {:induction false} TypedAll(lines: seq<string>, buf: seq<char>, cap: nat)
    requires (forall i :: 0 <= i < |lines| ==> Trim(lines[i]) != ".") && |buf| + |Joined(lines)| <= cap
    ensures Typed(lines, buf, cap) == buf + Joined(lines)
  {
    if lines != [] {
      var front, last := lines[..|lines| - 1], lines[|lines| - 1];
      TypedAll(front, buf, cap);
      assert lines == front + [last];
      TypedTwice(front, [last], buf, cap);
      TypedOne(last, Typed(front, buf, cap), cap);
      LineBehind(buf, Joined(front), Trim(last));
    }
  }

  lemma LineBehind(buf: seq<char>, text: seq<char>, line: string)
    ensures (buf + text) + line + "\n" == buf + (text + line + "\n")
  {
  }

  method TrimLine(s: string) returns (r: string)
    ensures r == Trim(s)
  {
    var i := |s| - 1;
    while i >= 0 && Blank(s[i])
      invariant -1 <= i < |s| && Trim(s[..i + 1]) == Trim(s)
    {
      assert s[..i + 1][..i] == s[..i];
      i := i - 1;
    }
    r := s[..i + 1];
  }

  /** The input loop of fs_write() and fs_edit(). */
  method Collect(lines: seq<string>, buf: seq<char>, cap: nat) returns (r: seq<char>)
    ensures r == Typed(lines, buf, cap)
  {
    r := buf;
    var i := 0;
    while i < |lines|
      invariant 0 <= i <= |lines| && Typed(lines[i..], r, cap) == Typed(lines, buf, cap)
    {
      var line := TrimLine(lines[i]);
      assert lines[i..][1..] == lines[i + 1..];
      if line == "." {
        return;
      }
      if |r| + |line| + 1 <= cap {
        r := r + line + "\n";
      }
      i := i + 1;
    }
  }

  // ---- What the operations are stated in terms of ---------------------------------------

  /** No directory slot is left. */
  ghost predicate Full(files: seq<Entry>) {
    forall i :: 0 <= i < |files| ==> files[i].used
  }

  /** The blocks available once the file called `key`, if any, has given its own back. */
  ghost function Room(v: Volume, key: Key): nat
    requires |v.files| == |v.chains|
  {
    FreeCount(v.fat) + var i := Find(v.files, key, 0); if i < |v.files| then Reclaimed(v, i) else 0
  }

  /** The blocks that giving back the file called `key` loses: all of it when it starts at block 0. */
  ghost function Lost(v: Volume, key: Key): nat
    requires |v.files| == |v.chains|
  {
    var i := Find(v.files, key, 0);
    if i < |v.files| then |v.chains[i]| - Reclaimed(v, i) else 0
  }

  /**
   Giving a file back loses blocks exactly when it starts at block 0, whose number
   free_chain() takes for FAT_FREE.
   */
  lemma LostIff(v: Volume, key: Key, size: nat)
    requires Ok(v, size)
    ensures Lost(v, key) > 0 <==>
            var i := Find(v.files, key, 0); i < |v.files| && v.files[i].firstBlock == 0
  {
    var i := Find(v.files, key, 0);
    if i < |v.files| {
      ChainRange(v, i, size);
    }
  }

  /** On a disk of one block the only file lies in block 0, and giving it back makes no room. */
  lemma OnlyBlock(v: Volume, key: Key)
    requires Ok(v, 1) && |v.fat| == 1 && key in Contents(v, 1) && |Contents(v, 1)[key]| == 1
    ensures Room(v, key) == FreeCount(v.fat)
  {
    var i := SlotOf(v, key, 1);
    ContentsAt(v, i, 1);
    ChainRange(v, i, 1);
    assert Fits(v.files[i], v.chains[i], 1) && Need(1, 1) == 1;
    assert v.chains[i][0] == 0;
  }

  /** A file of one byte fills an empty disk of one block. */
  method FillDisk() returns (fs: FileSystem, written: Outcome)
    ensures fresh(fs) && fresh(fs.store.fat) && fresh(fs.store.blocks) && fresh(fs.files) && fs.Valid()
    ensures fs.store.size == fs.store.fat.Length == 1 && FreeCount(fs.Vol().fat) == 0
    ensures written == Done && fs.Map() == map[("a", "/") := "\n"]
  {
    fs := new FileSystem(1, 1, 1, " ");
    FindIs(fs.Vol(), ("a", "/"), 1);
    assert !fs.files[..][0].used;
    assert [""][1..] == [] && Typed([""], [], fs.Capacity()) == "\n" && Need(1, 1) == 1;
    written := fs.Write("a", "/", [""]);
  }

  /** The file is deleted again; its block is not free. */
  method BlockZeroLost() returns (written: Outcome, deleted: Outcome, free: bool)
    ensures written == Done && deleted == Done && !free
  {
    var fs;
    fs, written := FillDisk();
    OnlyBlock(fs.Vol(), ("a", "/"));
    deleted := fs.Delete("a", "/", "y");
    FreeCountZero(fs.store.fat[..]);
    free := fs.store.fat[0] == FAT_FREE;
  }

  class FileSystem {
    const store: BlockStore
    const files: array<Entry>
    ghost var chains: seq<seq<nat>>     // the blocks of each slot's file

    ghost function Vol(): Volume
      reads this, store, store.fat, store.blocks, files
    {
      Volume(store.fat[..], store.blocks[..], files[..], chains)
    }

    ghost predicate Valid()
      reads this, store, store.fat, store.blocks, files
    {
      store.Valid() && Ok(Vol(), store.size)
    }

    /** What the volume stands for. */
    ghost function Map(): map<Key, seq<char>>
      reads this, store, store.fat, store.blocks, files
      requires Valid()
    {
      Contents(Vol(), store.size)
    }

    function Capacity(): nat {
      Span(store.size, store.fat.Length)
    }

    /** fs_init(): an empty volume with every block free. */
    constructor (size: nat, blocks: nat, slots: nat, zeroed: seq<char>)
      requires size > 0 && blocks < FAT_END && |zeroed| == size
      ensures Valid() && fresh(store) && fresh(store.fat) && fresh(store.blocks) && fresh(files)
      ensures Map() == map[] && FreeCount(Vol().fat) == store.fat.Length == blocks && store.size == size
      ensures files.Length == slots && forall i :: 0 <= i < slots ==> !files[i].used
    {
      store := new BlockStore(size, blocks, zeroed);
      files := new Entry[slots](_ => Entry("", "", FAT_END, 0, false));
      chains := seq(slots, _ => []);
      new;
      AllFree(store.fat[..]);
      EmptyVolume(Vol(), size);
    }

    /** find_file() */
    method FindFile(name: string, dir: string) returns (i: nat)
      ensures i == Find(files[..], (name, dir), 0)
    {
      i := 0;
      while i < files.Length && !(files[i].used && files[i].name == name && files[i].dir == dir)
        invariant 0 <= i <= files.Length && Find(files[..], (name, dir), 0) == Find(files[..], (name, dir), i)
      {
        i := i + 1;
      }
    }

    method Lookup(name: string, dir: string) returns (i: nat)
      requires Valid()
      ensures i == Find(files[..], (name, dir), 0) && (i < files.Length <==> (name, dir) in Map())
      ensures i < files.Length ==> files[i].used && KeyOf(files[i]) == (name, dir)
    {
      FindIs(Vol(), (name, dir), store.size);
      i := FindFile(name, dir);
    }

    /** find_free_slot() */
    method FindFreeSlot() returns (i: nat)
      ensures i <= files.Length && (i < files.Length ==> !files[i].used) && forall j :: 0 <= j < i ==> files[j].used
      ensures i == files.Length <==> Full(files[..])
    {
      i := 0;
      while i < files.Length && files[i].used
        invariant 0 <= i <= files.Length && forall j :: 0 <= j < i ==> files[j].used
      {
        i := i + 1;
      }
    }

    /** free_chain() on the blocks of slot `k`, whose entry becomes `e`. */
    method Detach(k: nat, e: Entry)
      requires Valid() && k < files.Length && KeysUnique(files[..][k := e])
      requires e.firstBlock == FAT_END && e.size == 0
      modifies this, store.fat, files
      ensures Valid() && files[..] == old(files[..])[k := e] && chains == old(chains)[k := []]
      ensures Map() == if e.used then Others(old(Vol()), k, store.size)[KeyOf(e) := []]
                       else Others(old(Vol()), k, store.size)
      ensures FreeCount(Vol().fat) == FreeCount(old(Vol().fat)) + Reclaimed(old(Vol()), k)
      ensures Live(Vol()) == Live(old(Vol())) + Reclaimed(old(Vol()), k) - |old(chains)[k]|
    {
      FreedOk(Vol(), k, e, store.size);
      FreedContents(Vol(), k, e, store.size);
      ghost var v' := Freed(Vol(), k, e, store.size);
      ChainRange(Vol(), k, store.size);
      assert Fits(files[..][k], chains[k], store.size);
      store.FreeChain(files[k].firstBlock, chains[k]);
      files[k] := e;
      chains := chains[k := []];
      assert files[..] == old(files[..])[k := e];
      assert Vol() == v';
    }

    /** Write `data` into fresh blocks and make slot `k` the file `name` in `dir` that owns them. */
    method Store(k: nat, name: string, dir: string, data: seq<char>) returns (ok: bool)
      requires Valid() && k < files.Length && chains[k] == []
      requires KeysUnique(files[..][k := Entry(name, dir, FAT_END, 0, true)])
      modifies this, store.fat, store.blocks, files
      ensures Valid() && (ok <==> FreeCount(old(Vol().fat)) >= Need(store.size, |data|))
      ensures ok ==> Map() == Others(old(Vol()), k, store.size)[(name, dir) := data]
      ensures ok ==> FreeCount(Vol().fat) == FreeCount(old(Vol().fat)) - Need(store.size, |data|)
      ensures ok ==> Live(Vol()) == Live(old(Vol()))
      ensures !ok ==> Map() == old(Map()) && files[..] == old(files[..]) && chains == old(chains)
      ensures !ok ==> FreeCount(Vol().fat) == 0
    {
      ghost var v := Vol();
      var first, c := store.WriteToBlocks(data);
      ok := first != store.fat.Length;
      if ok {
        ghost var e := Entry(name, dir, first, |data|, true);
        SameKey(v.files, k, Entry(name, dir, FAT_END, 0, true), e);
        StoredOk(v, k, e, c, store.fat[..], store.blocks[..], data, store.size);
        StoredContents(v, k, e, c, store.fat[..], store.blocks[..], data, store.size);
        files[k] := Entry(name, dir, first, |data|, true);
        chains := chains[k := c];
        assert Vol() == Stored(v, k, e, c, store.fat[..], store.blocks[..]);
      } else {
        Unfinished(v, store.fat[..], store.blocks[..], store.size);
        assert Vol() == v.(fat := store.fat[..], blocks := store.blocks[..]);
      }
    }

    /** The slot fs_write() uses: the file's own, else a free one, else none. */
    method FindSlot(name: string, dir: string) returns (k: nat)
      requires Valid()
      ensures k <= files.Length && (k == files.Length <==> (name, dir) !in Map() && Full(files[..]))
      ensures k < files.Length && files[k].used ==> k == Find(files[..], (name, dir), 0)
      ensures k < files.Length && !files[k].used ==>
        Find(files[..], (name, dir), 0) == files.Length && Reclaimed(Vol(), k) == |chains[k]| == 0
    {
      k := Lookup(name, dir);
      if k == files.Length {
        k := FindFreeSlot();
        if k < files.Length {
          EmptySlot(Vol(), k, store.size);
        }
      }
    }

    /** fs_write() after the slot is found: the old blocks go, or the new entry is filled in. */
    method Open(name: string, dir: string) returns (k: nat)
      requires Valid()
      modifies this, store.fat, files
      ensures Valid() && k <= files.Length
      ensures k == files.Length <==> (name, dir) !in old(Map()) && Full(old(files[..]))
      ensures k == files.Length ==> Vol() == old(Vol())
      ensures k < files.Length ==> chains[k] == [] && files[k] == Entry(name, dir, FAT_END, 0, true)
      ensures k < files.Length ==> Map() == old(Map())[(name, dir) := []]
      ensures k < files.Length ==> FreeCount(Vol().fat) == Room(old(Vol()), (name, dir))
      ensures k < files.Length ==> Live(Vol()) == Live(old(Vol())) - Lost(old(Vol()), (name, dir))
    {
      k := FindSlot(name, dir);
      if k < files.Length {
        Prepare(k, name, dir);
      }
    }

    /** The old blocks of the slot go, and it becomes an empty file. */
    method Prepare(k: nat, name: string, dir: string)
      requires Valid() && k < files.Length
      requires files[k].used ==> k == Find(files[..], (name, dir), 0)
      requires !files[k].used ==>
        Find(files[..], (name, dir), 0) == files.Length && Reclaimed(Vol(), k) == |chains[k]| == 0
      modifies this, store.fat, files
      ensures Valid() && chains[k] == [] && files[k] == Entry(name, dir, FAT_END, 0, true)
      ensures Map() == old(Map())[(name, dir) := []]
      ensures FreeCount(Vol().fat) == Room(old(Vol()), (name, dir))
      ensures Live(Vol()) == Live(old(Vol())) - Lost(old(Vol()), (name, dir))
    {
      FreshKey(files[..], k, Entry(name, dir, FAT_END, 0, true));
      Replacing(Vol(), k, (name, dir), [], store.size);
      ghost var was := files[..];
      Detach(k, Entry(name, dir, FAT_END, 0, true));
      assert files[..][k] == was[k := Entry(name, dir, FAT_END, 0, true)][k];
    }

    /** Write `data` into fresh blocks for the empty file in slot `k`. */
    method Fill(k: nat, name: string, dir: string, data: seq<char>) returns (ok: bool)
      requires Valid() && k < files.Length && chains[k] == [] && files[k] == Entry(name, dir, FAT_END, 0, true)
      modifies this, store.fat, store.blocks, files
      ensures Valid() && (ok <==> FreeCount(old(Vol().fat)) >= Need(store.size, |data|))
      ensures ok ==> Map() == old(Map())[(name, dir) := data] && Live(Vol()) == Live(old(Vol()))
      ensures ok ==> FreeCount(Vol().fat) == FreeCount(old(Vol().fat)) - Need(store.size, |data|)
      ensures !ok ==> Map() == old(Map()) && files[k] == old(files[k]) && FreeCount(Vol().fat) == 0
    {
      assert files[..][k := files[k]] == files[..];
      Replacing(Vol(), k, (name, dir), data, store.size);
      ok := Store(k, name, dir, data);
      assert !ok ==> files[..][k] == old(files[..])[k];
    }

    /** Give up the empty file in slot `k`. */
    method Abandon(k: nat)
      requires Valid() && k < files.Length && files[k].used && files[k].size == 0
      modifies files
      ensures Valid() && Map() == old(Map()) - {KeyOf(old(files[k]))}
    {
      ghost var v, e := Vol(), files[k].(used := false);
      FreshKey(files[..], k, e);
      Relabel(v, k, e, store.size);
      files[k] := files[k].(used := false);
      assert Vol() == v.(files := v.files[k := e]);
    }

    /** The end of fs_write(): the data get in, or the slot is given up. */
    method FillOrAbandon(k: nat, name: string, dir: string, data: seq<char>) returns (ok: bool)
      requires Valid() && k < files.Length && chains[k] == [] && files[k] == Entry(name, dir, FAT_END, 0, true)
      modifies this, store.fat, store.blocks, files
      ensures Valid() && (ok <==> FreeCount(old(Vol().fat)) >= Need(store.size, |data|))
      ensures ok ==> Map() == old(Map())[(name, dir) := data] && Live(Vol()) == Live(old(Vol()))
      ensures ok ==> FreeCount(Vol().fat) == FreeCount(old(Vol().fat)) - Need(store.size, |data|)
      ensures !ok ==> Map() == old(Map()) - {(name, dir)} && FreeCount(Vol().fat) == 0
    {
      ok := Fill(k, name, dir, data);
      if !ok {
        Abandon(k);
      }
    }

    /**
     fs_write(): the file becomes exactly what was typed.  When the disk is full the file is
     gone, together with every block that was free.
     */
    method Write(name: string, dir: string, lines: seq<string>) returns (r: Outcome)
      requires Valid() && |name| < FS_NAME_LEN && |dir| < FS_DIR_LEN
      modifies this, store.fat, store.blocks, files
      ensures Valid() && r in {Done, NoName, DirFull, DiskFull}
      ensures r == NoName <==> name == ""
      ensures r == DirFull <==> name != "" && (name, dir) !in old(Map()) && Full(old(files[..]))
      ensures r == NoName || r == DirFull ==> Vol() == old(Vol())
      ensures r == Done || r == DiskFull ==>
        (r == DiskFull <==>
         Room(old(Vol()), (name, dir)) < Need(store.size, |Typed(lines, [], Capacity())|))
      ensures r == Done ==> Map() == old(Map())[(name, dir) := Typed(lines, [], Capacity())]
      ensures r == Done ==>
        FreeCount(Vol().fat) ==
        Room(old(Vol()), (name, dir)) - Need(store.size, |Typed(lines, [], Capacity())|)
      ensures r == Done ==> Live(Vol()) == Live(old(Vol())) - Lost(old(Vol()), (name, dir))
      ensures r == DiskFull ==> Map() == old(Map()) - {(name, dir)} && FreeCount(Vol().fat) == 0
    {
      if |name| == 0 {
        return NoName;
      }
      var k := Open(name, dir);
      if k == files.Length {
        return DirFull;
      }
      var data := Collect(lines, [], Capacity());
      Update(old(Map()), (name, dir), [], data);
      var ok := FillOrAbandon(k, name, dir, data);
      return if ok then Done else DiskFull;
    }

    /** fs_read(): the bytes shown are the file's. */
    method Read(name: string, dir: string) returns (r: Outcome, text: seq<char>)
      requires Valid()
      ensures r in {Done, NoName, NotFound}
      ensures r == NoName <==> name == ""
      ensures r == NotFound <==> name != "" && (name, dir) !in Map()
      ensures r == Done ==> text == Map()[(name, dir)]
    {
      text := [];
      if |name| == 0 {
        return NoName, text;
      }
      var i := Lookup(name, dir);
      if i == files.Length {
        return NotFound, text;
      }
      text := ReadFile(i);
      return Done, text;
    }

    method ReadFile(i: nat) returns (text: seq<char>)
      requires Valid() && i < files.Length && files[i].used
      ensures KeyOf(files[i]) in Map() && text == Map()[KeyOf(files[i])]
    {
      ChainRange(Vol(), i, store.size);
      ContentsAt(Vol(), i, store.size);
      assert Fits(files[..][i], chains[i], store.size);
      text := store.ReadChain(files[i].firstBlock, files[i].size, chains[i]);
    }

    /** fs_edit(): the file becomes what it was followed by what was typed; empty when the disk is full. */
    method Edit(name: string, dir: string, lines: seq<string>) returns (r: Outcome)
      requires Valid()
      modifies this, store.fat, store.blocks, files
      ensures Valid() && r in {Done, NoName, NotFound, DiskFull}
      ensures r == NoName <==> name == ""
      ensures r == NotFound <==> name != "" && (name, dir) !in old(Map())
      ensures r == NoName || r == NotFound ==> Vol() == old(Vol())
      ensures r == Done || r == DiskFull ==>
        var data := Typed(lines, old(Map())[(name, dir)], Capacity());
        && (r == DiskFull <==> Room(old(Vol()), (name, dir)) < Need(store.size, |data|))
        && Map() == old(Map())[(name, dir) := if r == Done then data else []]
        && FreeCount(Vol().fat) == (if r == Done then Room(old(Vol()), (name, dir)) - Need(store.size, |data|) else 0)
      ensures r == Done ==> Live(Vol()) == Live(old(Vol())) - Lost(old(Vol()), (name, dir))
    {
      if |name| == 0 {
        return NoName;
      }
      var i := Lookup(name, dir);
      if i == files.Length {
        return NotFound;
      }
      var was := ReadFile(i);
      var data := Collect(lines, was, Capacity());
      var ok := Replace(name, dir, data);
      return if ok then Done else DiskFull;
    }

    /** The end of fs_edit(): the old blocks go, and the data get in or the file stays empty. */
    method Replace(name: string, dir: string, data: seq<char>) returns (ok: bool)
      requires Valid() && (name, dir) in Map()
      modifies this, store.fat, store.blocks, files
      ensures Valid() && (ok <==> Room(old(Vol()), (name, dir)) >= Need(store.size, |data|))
      ensures Map() == old(Map())[(name, dir) := if ok then data else []]
      ensures FreeCount(Vol().fat) == if ok then Room(old(Vol()), (name, dir)) - Need(store.size, |data|) else 0
      ensures ok ==> Live(Vol()) == Live(old(Vol())) - Lost(old(Vol()), (name, dir))
    {
      var k := Open(name, dir);
      Update(old(Map()), (name, dir), [], data);
      ok := Fill(k, name, dir, data);
    }

    method Erase(k: nat, name: string, dir: string)
      requires Valid() && k == Find(files[..], (name, dir), 0) < files.Length
      modifies this, store.fat, files
      ensures Valid() && Map() == old(Map()) - {(name, dir)}
      ensures FreeCount(Vol().fat) == Room(old(Vol()), (name, dir))
      ensures Live(Vol()) == Live(old(Vol())) - Lost(old(Vol()), (name, dir))
    {
      FreshKey(files[..], k, Entry("", files[k].dir, FAT_END, 0, false));
      Detach(k, Entry("", files[k].dir, FAT_END, 0, false));
    }

    /** fs_delete(): the file is gone and its blocks are free, unless they started at block 0. */
    method Delete(name: string, dir: string, answer: string) returns (r: Outcome)
      requires Valid()
      modifies this, store.fat, files
      ensures Valid() && r in {Done, NoName, NotFound, Cancelled}
      ensures r == NoName <==> name == ""
      ensures r == NotFound <==> name != "" && (name, dir) !in old(Map())
      ensures r == Cancelled <==> name != "" && (name, dir) in old(Map()) && !Yes(answer)
      ensures r != Done ==> Vol() == old(Vol())
      ensures r == Done ==> Map() == old(Map()) - {(name, dir)}
      ensures r == Done ==> FreeCount(Vol().fat) == Room(old(Vol()), (name, dir))
      ensures r == Done ==> Live(Vol()) == Live(old(Vol())) - Lost(old(Vol()), (name, dir))
    {
      if |name| == 0 {
        return NoName;
      }
      var i := Lookup(name, dir);
      if i == files.Length {
        return NotFound;
      }
      if !Yes(answer) {
        return Cancelled;
      }
      Erase(i, name, dir);
      return Done;
    }

    /** fs_rename(): the bytes move from one key to the other and no block is touched. */
    method Rename(oldName: string, newName: string, dir: string) returns (r: Outcome)
      requires Valid() && |newName| < FS_NAME_LEN
      modifies files
      ensures Valid() && r in {Done, NoName, NotFound, Exists}
      ensures r == NoName <==> oldName == "" || newName == ""
      ensures r == NotFound <==> r != NoName && (oldName, dir) !in old(Map())
      ensures r == Exists <==> r != NoName && r != NotFound && (newName, dir) in old(Map())
      ensures r != Done ==> Vol() == old(Vol())
      ensures r == Done ==>
        Map() == (old(Map()) - {(oldName, dir)})[(newName, dir) := old(Map())[(oldName, dir)]]
    {
      if |oldName| == 0 || |newName| == 0 {
        return NoName;
      }
      var i := Lookup(oldName, dir);
      if i == files.Length {
        return NotFound;
      }
      var j := Lookup(newName, dir);
      if j < files.Length {
        return Exists;
      }
      ghost var v, e := Vol(), files[i].(name := newName);
      FreshKey(files[..], i, e);
      ContentsAt(v, i, store.size);
      Relabel(v, i, e, store.size);
      files[i] := files[i].(name := newName);
      assert Vol() == v.(files := v.files[i := e]);
      return Done;
    }

    /** Make the free slot `k` a new file that holds `data`. */
    method Create(k: nat, name: string, dir: string, data: seq<char>) returns (ok: bool)
      requires Valid() && k < files.Length && !files[k].used && Find(files[..], (name, dir), 0) == files.Length
      modifies this, store.fat, store.blocks, files
      ensures Valid() && (ok <==> FreeCount(old(Vol().fat)) >= Need(store.size, |data|))
      ensures ok ==> Map() == old(Map())[(name, dir) := data] && Live(Vol()) == Live(old(Vol()))
      ensures ok ==> FreeCount(Vol().fat) == FreeCount(old(Vol().fat)) - Need(store.size, |data|)
      ensures !ok ==> Map() == old(Map()) && FreeCount(Vol().fat) == 0
    {
      EmptySlot(Vol(), k, store.size);
      FreshKey(files[..], k, Entry(name, dir, FAT_END, 0, true));
      ok := Store(k, name, dir, data);
    }

    /** fs_copy(): a second file with the same bytes, in blocks of its own. */
    method Copy(src: string, dst: string, dir: string) returns (r: Outcome)
      requires Valid() && |dst| < FS_NAME_LEN && |dir| < FS_DIR_LEN
      modifies this, store.fat, store.blocks, files
      ensures Valid() && r in {Done, NoName, NotFound, Exists, DirFull, DiskFull}
      ensures r == NoName <==> src == "" || dst == ""
      ensures r == NotFound <==> r != NoName && (src, dir) !in old(Map())
      ensures r == Exists <==> r != NoName && r != NotFound && (dst, dir) in old(Map())
      ensures r == DirFull <==> r !in {NoName, NotFound, Exists} && Full(old(files[..]))
      ensures r == DiskFull <==>
        r !in {NoName, NotFound, Exists, DirFull} &&
        FreeCount(old(Vol().fat)) < Need(store.size, |old(Map())[(src, dir)]|)
      ensures r == DiskFull ==> Map() == old(Map()) && FreeCount(Vol().fat) == 0
      ensures r in {NoName, NotFound, Exists, DirFull} ==> Vol() == old(Vol())
      ensures r == Done ==> Map() == old(Map())[(dst, dir) := old(Map())[(src, dir)]]
      ensures r == Done ==>
        && FreeCount(Vol().fat) == FreeCount(old(Vol().fat)) - Need(store.size, |old(Map())[(src, dir)]|)
        && Live(Vol()) == Live(old(Vol()))
    {
      if |src| == 0 || |dst| == 0 {
        return NoName;
      }
      var i := Lookup(src, dir);
      if i == files.Length {
        return NotFound;
      }
      var j := Lookup(dst, dir);
      if j < files.Length {
        return Exists;
      }
      j := FindFreeSlot();
      if j == files.Length {
        return DirFull;
      }
      var data := ReadFile(i);
      var ok := Create(j, dst, dir, data);
      return if ok then Done else DiskFull;
    }

    /** fs_dir_empty() */
    method DirEmpty(dir: string) returns (empty: bool)
      requires Valid()
      ensures empty <==> forall key :: key in Map() ==> key.1 != dir
    {
      var i := 0;
      while i < files.Length
        invariant 0 <= i <= files.Length && forall j :: 0 <= j < i ==> !(files[j].used && files[j].dir == dir)
      {
        if files[i].used && files[i].dir == dir {
          ContentsAt(Vol(), i, store.size);
          return false;
        }
        i := i + 1;
      }
      forall key | key in Map() ensures key.1 != dir {
        var k := SlotOf(Vol(), key, store.size);
      }
      return true;
    }
  }

  /** Putting a file in its own slot, or in a free one, is an update of the map. */
  lemma Replacing(v: Volume, k: nat, key: Key, data: seq<char>, size: nat)
    requires Ok(v, size) && k < |v.files| && (v.files[k].used ==> KeyOf(v.files[k]) == key)
    ensures Others(v, k, size)[key := data] == Contents(v, size)[key := data]
  {
  }

  lemma Update<K, V>(m: map<K, V>, k: K, v: V, w: V)
    ensures m[k := v][k := w] == m[k := w] && m[k := v] - {k} == m - {k}
  {
  }

  lemma SameKey(files: seq<Entry>, k: nat, e: Entry, e': Entry)
    requires k < |files| && KeysUnique(files[k := e]) && KeyOf(e') == KeyOf(e) && e'.used == e.used
    ensures KeysUnique(files[k := e'])
  {
    var s, t := files[k := e], files[k := e'];
    forall i, j | 0 <= i < j < |t| && t[i].used && t[j].used ensures KeyOf(t[i]) != KeyOf(t[j]) {
      assert KeyOf(s[i]) != KeyOf(s[j]);
    }
  }

  lemma EmptyVolume(v: Volume, size: nat)
    requires size > 0 && |v.blocks| == |v.fat| < FAT_END && |v.chains| == |v.files|
    requires forall b :: 0 <= b < |v.blocks| ==> |v.blocks[b]| == size
    requires forall i :: 0 <= i < |v.files| ==> v.files[i] == Entry("", "", FAT_END, 0, false) && v.chains[i] == []
    ensures Ok(v, size) && Contents(v, size) == map[]
  {
    assert Rows(v.fat, FAT_END, Heads(v.files), v.chains);
    assert Keys(v.files) == {};
  }

  lemma {:induction false} AllFree(fat: seq<int>)
    requires forall b :: 0 <= b < |fat| ==> fat[b] == FAT_FREE
    ensures FreeCount(fat) == |fat|
  {
    if fat != [] {
      AllFree(fat[..|fat| - 1]);
    }
  }
}
