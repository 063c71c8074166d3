/**
 The directory table of src/dir.c and its four operations.
 */
module Directories {
  import opened Lists
  import opened Paths
  import opened FileSystems

  const DIR_MAX := 32

  datatype Reply = Made | Usage | TooMany | Known | Missing | IsRoot | IsCwd | NotEmpty | Kept

  /** What every operation keeps: the root comes first, no path twice, all absolute and terminated. */
  ghost predicate TableOk(table: seq<string>) {
    && table != [] && table[0] == "/" && NoDup(table)
    && forall i :: 0 <= i < |table| ==> Absolute(table[i]) && |table[i]| < DIR_NAME_LEN
  }

  /** The path that `cd target` looks for. */
  function Destination(cwd: string, target: string): string
    requires target != ""
  {
    if target == ".." then Parent(cwd) else if target == "/" then "/" else Build(cwd, target)
  }

  lemma AddPath(table: seq<string>, path: string)
    requires TableOk(table) && path !in table && Absolute(path) && |path| < DIR_NAME_LEN
    ensures TableOk(table + [path])
  {
    AppendNoDup(table, path);
  }

  lemma DropPath(table: seq<string>, k: nat)
    requires TableOk(table) && 0 < k < |table|
    ensures TableOk(table[..k] + table[k + 1..]) && Without(table, table[k]) == table[..k] + table[k + 1..]
  {
    WithoutAt(table, table[k], k);
    WithoutNoDup(table, table[k]);
  }

  /** Where the entry at `i` is once the one at `k` is gone. */
  lemma Dropped(table: seq<string>, k: nat, i: nat)
    requires k < |table| && i < |table| && i != k
    ensures var r, i' := table[..k] + table[k + 1..], if i > k then i - 1 else i; i' < |r| && r[i'] == table[i]
  {
  }

  lemma GapClosed(was: seq<string>, now: seq<string>, k: nat)
    requires k < |was| == |now| + 1
    requires forall j :: 0 <= j < k ==> now[j] == was[j]
    requires forall j :: k < j < |was| ==> now[j - 1] == was[j]
    ensures now == was[..k] + was[k + 1..]
  {
    forall j | k <= j < |now| ensures now[j] == was[k + 1..][j - k] {
      assert now[(j + 1) - 1] == was[j + 1];
    }
  }

  class Directory {
    const dirs: array<string>
    var count: nat
    var cwd: nat

    ghost predicate Valid()
      reads this, dirs
    {
      dirs.Length == DIR_MAX && count <= DIR_MAX && cwd < count && TableOk(dirs[..count])
    }

    ghost function Table(): seq<string>
      reads this, dirs
      requires Valid()
    {
      dirs[..count]
    }

    /** dir_getcwd() */
    function Cwd(): (path: string)
      reads this, dirs
      requires Valid()
      ensures path in Table() && Absolute(path) && |path| < DIR_NAME_LEN
    {
      assert dirs[..count][cwd] == dirs[cwd];
      dirs[cwd]
    }

    /** dir_init() */
    constructor ()
      ensures Valid() && fresh(dirs) && Table() == ["/"] && Cwd() == "/"
    {
      dirs := new string[DIR_MAX](_ => "/");
      count := 1;
      cwd := 0;
    }

    /** find_dir() */
    method FindDir(path: string) returns (i: nat)
      requires Valid()
      ensures i == DIR_MAX <==> path !in Table()
      ensures i != DIR_MAX ==> i < count && dirs[i] == path
    {
      i := 0;
      while i < count
        invariant 0 <= i <= count && path !in dirs[..i]
      {
        if dirs[i] == path {
          assert dirs[..count][i] == path;
          return;
        }
        i := i + 1;
      }
      i := DIR_MAX;
    }

    /** dir_mkdir() */
    method Mkdir(name: string) returns (r: Reply)
      requires Valid() && PathFits(Cwd(), name)
      modifies this, dirs
      ensures Valid() && Cwd() == old(Cwd()) && r in {Made, Usage, TooMany, Known}
      ensures r == Usage <==> name == ""
      ensures r == TooMany <==> name != "" && |old(Table())| == DIR_MAX
      ensures r == Known <==> r !in {Usage, TooMany} && Build(old(Cwd()), name) in old(Table())
      ensures Table() == if r == Made then old(Table()) + [Build(old(Cwd()), name)] else old(Table())
    {
      if |name| == 0 {
        return Usage;
      }
      if count >= DIR_MAX {
        return TooMany;
      }
      var path := Build(Cwd(), name);
      var i := FindDir(path);
      if i < DIR_MAX {
        return Known;
      }
      AddPath(Table(), path);
      dirs[count] := path;
      count := count + 1;
      assert dirs[..count] == old(Table()) + [path];
      return Made;
    }

    /** dir_cd() */
    method Cd(target: string) returns (r: Reply)
      requires Valid() && (target in ["..", "/"] || PathFits(Cwd(), target))
      modifies `cwd
      ensures Valid() && Table() == old(Table()) && r in {Made, Usage, Missing}
      ensures r == Usage <==> target == ""
      ensures r == Missing <==> target != "" && Destination(old(Cwd()), target) !in Table()
      ensures Cwd() == if r == Made then Destination(old(Cwd()), target) else old(Cwd())
    {
      if |target| == 0 {
        return Usage;
      }
      var path := "/";
      if target == ".." {
        path := ParentPath(Cwd());
      } else if target != "/" {
        path := Build(Cwd(), target);
      }
      var i := FindDir(path);
      if i == DIR_MAX {
        return Missing;
      }
      cwd := i;
      return Made;
    }

    /** dir_rmdir(): the path is gone, the others keep their order, and the working directory stays. */
    method Rmdir(name: string, answer: string, fs: FileSystem) returns (r: Reply)
      requires Valid() && PathFits(Cwd(), name) && fs.Valid()
      modifies this, dirs
      ensures Valid() && Cwd() == old(Cwd())
      ensures r == Usage <==> name == ""
      ensures r == IsRoot <==> name != "" && Build(old(Cwd()), name) == "/"
      ensures r == Missing <==> r !in {Usage, IsRoot} && Build(old(Cwd()), name) !in old(Table())
      ensures r == IsCwd <==> r !in {Usage, IsRoot} && Build(old(Cwd()), name) == old(Cwd())
      ensures r in {NotEmpty, Made, Kept} ==>
        (r == NotEmpty <==> exists key :: key in fs.Map() && key.1 == Build(old(Cwd()), name))
      ensures r in {Made, Kept} ==> (r == Made <==> Yes(answer))
      ensures r in {Made, Usage, IsRoot, Missing, IsCwd, NotEmpty, Kept}
      ensures Table() == if r == Made then Without(old(Table()), Build(old(Cwd()), name)) else old(Table())
    {
      if |name| == 0 {
        return Usage;
      }
      var target := Build(Cwd(), name);
      if target == "/" {
        return IsRoot;
      }
      var i := FindDir(target);
      if i == DIR_MAX {
        return Missing;
      }
      if i == cwd {
        return IsCwd;
      }
      assert dirs[..count][cwd] == Cwd() && dirs[..count][i] == target;
      var empty := fs.DirEmpty(target);
      if !empty {
        return NotEmpty;
      }
      if !Yes(answer) {
        return Kept;
      }
      Remove(i);
      return Made;
    }

    /** The end of dir_rmdir(): close the gap and follow the working directory to its new index. */
    method Remove(k: nat)
      requires Valid() && 0 < k < count && k != cwd
      modifies this, dirs
      ensures Valid() && Cwd() == old(Cwd()) && Table() == Without(old(Table()), old(dirs[k]))
    {
      ghost var table, i := Table(), cwd;
      DropPath(table, k);
      Dropped(table, k, i);
      Shift(k);
      Shorten();
      if cwd > k {
        cwd := cwd - 1;
      }
      assert dirs[..count][cwd] == table[i];
    }

    /** Clear the last slot and give it up. */
    method Shorten()
      requires 0 < count <= dirs.Length
      modifies `count, dirs
      ensures count == old(count) - 1 && dirs[..count] == old(dirs[..count - 1])
    {
      dirs[count - 1] := "";
      count := count - 1;
    }

    /** The compaction loop: overwrite slot `k` by moving the later ones down. */
    method Shift(k: nat)
      requires k < count <= dirs.Length
      modifies dirs
      ensures dirs[..count - 1] == old(dirs[..count])[..k] + old(dirs[..count])[k + 1..]
    {
      ghost var was := dirs[..count];
      var i := k;
      while i < count - 1
        invariant k <= i <= count - 1
        invariant forall j :: 0 <= j < k ==> dirs[j] == was[j]
        invariant forall j :: k < j <= i ==> dirs[j - 1] == was[j]
        invariant forall j :: i <= j < count ==> dirs[j] == was[j]
      {
        assert dirs[i + 1] == was[i + 1];
        dirs[i] := dirs[i + 1];
        i := i + 1;
      }
      GapClosed(was, dirs[..count - 1], k);
    }
  }
}
