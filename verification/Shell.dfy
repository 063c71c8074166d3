/**
 The command shell of src/shell.c over the file system and the directory table: what one
 command may do to the session, and what holds after any sequence of commands.
 */
module Shells {
  import opened Lists
  import opened Volumes
  import opened FileSystems
  import opened Paths
  import opened Directories

  /** What a user can observe: the files by (name, directory), the directories, and where they are. */
  datatype Session = Session(files: map<Key, seq<char>>, table: seq<string>, cwd: string)

  /** A command line, and what is typed at the prompts it opens. */
  datatype Line = Line(argv: seq<string>, input: seq<string>, answer: string)

  function Arg(argv: seq<string>, i: nat): string {
    if i < |argv| then argv[i] else ""
  }

  /** The argument of cd, which defaults to the root. */
  function CdArg(argv: seq<string>): string {
    if |argv| > 1 then argv[1] else "/"
  }

  /** Every name fits the buffer it is copied to. */
  predicate LineFits(cwd: string, line: Line) {
    && line.argv != []
    && |Arg(line.argv, 1)| < FS_NAME_LEN && |Arg(line.argv, 2)| < FS_NAME_LEN
    && (line.argv[0] in ["mkdir", "rmdir"] ==> PathFits(cwd, Arg(line.argv, 1)))
    && (line.argv[0] == "cd" ==> CdArg(line.argv) in ["..", "/"] || PathFits(cwd, CdArg(line.argv)))
  }

  /** No two directories are the same, the user is in one of them, and so is every file. */
  ghost predicate SessionOk(s: Session) {
    TableOk(s.table) && s.cwd in s.table && forall key :: key in s.files ==> key.0 != "" && key.1 in s.table
  }

  // ---- One command ---------------------------------------------------------------------

  /** What a command does to the files; fwrite, fedit and copy may run out of room. */
  ghost predicate FileStep(m: map<Key, seq<char>>, cwd: string, line: Line, cap: nat, m': map<Key, seq<char>>)
    requires line.argv != []
  {
    var cmd, a, b := line.argv[0], (Arg(line.argv, 1), cwd), (Arg(line.argv, 2), cwd);
    if a.0 == "" then m' == m
    else if cmd == "fwrite" then m' == m[a := Typed(line.input, [], cap)] || m' == m - {a}
    else if a !in m then m' == m
    else if cmd == "fedit" then m' == m[a := Typed(line.input, m[a], cap)] || m' == m[a := []]
    else if cmd == "fdel" then m' == if Yes(line.answer) then m - {a} else m
    else if b.0 == "" || b in m then m' == m
    else if cmd == "rename" then m' == (m - {a})[b := m[a]]
    else m' == m || (cmd == "copy" && m' == m[b := m[a]])
  }

  ghost function AfterMkdir(s: Session, name: string): Session {
    if name == "" || |s.table| == DIR_MAX || Build(s.cwd, name) in s.table then s
    else s.(table := s.table + [Build(s.cwd, name)])
  }

  ghost function AfterCd(s: Session, target: string): Session {
    if target == "" || Destination(s.cwd, target) !in s.table then s else s.(cwd := Destination(s.cwd, target))
  }

  ghost predicate Removable(s: Session, path: string) {
    path != "/" && path in s.table && path != s.cwd && forall key :: key in s.files ==> key.1 != path
  }

  ghost function AfterRmdir(s: Session, name: string, answer: string): Session {
    if name == "" || !Removable(s, Build(s.cwd, name)) || !Yes(answer) then s
    else s.(table := Without(s.table, Build(s.cwd, name)))
  }

  ghost predicate Step(s: Session, line: Line, cap: nat, s': Session)
    requires line.argv != []
  {
    if line.argv[0] == "mkdir" then s' == AfterMkdir(s, Arg(line.argv, 1))
    else if line.argv[0] == "cd" then s' == AfterCd(s, CdArg(line.argv))
    else if line.argv[0] == "rmdir" then s' == AfterRmdir(s, Arg(line.argv, 1), line.answer)
    else s' == s.(files := s'.files) && FileStep(s.files, s.cwd, line, cap, s'.files)
  }

  lemma StepOk(s: Session, line: Line, cap: nat, s': Session)
    requires SessionOk(s) && LineFits(s.cwd, line) && Step(s, line, cap, s')
    ensures SessionOk(s')
  {
    var path := if Arg(line.argv, 1) == "" then "/" else Build(s.cwd, Arg(line.argv, 1));
    if line.argv[0] == "mkdir" && s' != s {
      AddPath(s.table, path);
    } else if line.argv[0] == "rmdir" && s' != s {
      var k :| 0 <= k < |s.table| && s.table[k] == path;
      DropPath(s.table, k);
      WithoutNoDup(s.table, path);
    }
  }

  /** A command leaves every file outside the working directory alone. */
  lemma StepElsewhere(s: Session, line: Line, cap: nat, s': Session, key: Key)
    requires line.argv != [] && Step(s, line, cap, s') && key.1 != s.cwd
    ensures key in s'.files <==> key in s.files
    ensures key in s.files ==> s'.files[key] == s.files[key]
  {
  }

  // ---- Any number of commands -----------------------------------------------------------

  /** `trace` is what the session looks like before, between and after the commands. */
  ghost predicate Trace(trace: seq<Session>, script: seq<Line>, cap: nat) {
    && |trace| == |script| + 1
    && forall i :: 0 <= i < |script| ==>
      LineFits(trace[i].cwd, script[i]) && Step(trace[i], script[i], cap, trace[i + 1])
  }

  lemma {:induction false} TraceOk(trace: seq<Session>, script: seq<Line>, cap: nat, k: nat)
    requires Trace(trace, script, cap) && SessionOk(trace[0]) && k <= |script|
    ensures SessionOk(trace[k])
  {
    if k > 0 {
      TraceOk(trace, script, cap, k - 1);
      StepOk(trace[k - 1], script[k - 1], cap, trace[k]);
    }
  }

  lemma TraceStep(trace: seq<Session>, script: seq<Line>, n: nat, cap: nat, s: Session)
    requires n < |script| && Trace(trace, script[..n], cap) && SessionOk(trace[n])
    requires LineFits(trace[n].cwd, script[n]) && Step(trace[n], script[n], cap, s)
    ensures Trace(trace + [s], script[..n + 1], cap) && SessionOk(s)
  {
    StepOk(trace[n], script[n], cap, s);
  }

  /** The files of a directory the user does not enter stay what they are, whatever they type elsewhere. */
  lemma {:induction false} TraceElsewhere(trace: seq<Session>, script: seq<Line>, cap: nat, key: Key, k: nat)
    requires Trace(trace, script, cap) && k <= |script|
    requires forall i :: 0 <= i < k ==> trace[i].cwd != key.1
    ensures key in trace[k].files <==> key in trace[0].files
    ensures key in trace[0].files ==> trace[k].files[key] == trace[0].files[key]
  {
    if k > 0 {
      TraceElsewhere(trace, script, cap, key, k - 1);
      StepElsewhere(trace[k - 1], script[k - 1], cap, trace[k], key);
    }
  }

  /** A directory disappears only while it holds no file and the user is elsewhere. */
  lemma {:induction false} TraceKeeps(trace: seq<Session>, script: seq<Line>, cap: nat, path: string, k: nat)
    requires Trace(trace, script, cap) && SessionOk(trace[0]) && k <= |script|
    requires path in trace[0].table
    requires forall i :: 0 <= i < k ==> trace[i].cwd == path || exists key :: key in trace[i].files && key.1 == path
    ensures path in trace[k].table
  {
    if k > 0 {
      TraceKeeps(trace, script, cap, path, k - 1);
      TraceOk(trace, script, cap, k - 1);
      WithoutNoDup(trace[k - 1].table, Build(trace[k - 1].cwd, SafeName(Arg(script[k - 1].argv, 1))));
      assert Step(trace[k - 1], script[k - 1], cap, trace[(k - 1) + 1]);
    }
  }

  function SafeName(name: string): (r: string)
    ensures r != "" && (name != "" ==> r == name)
  {
    if name == "" then "/" else name
  }

  class Shell {
    const fs: FileSystem
    const dir: Directory

    ghost predicate Valid()
      reads this, fs, fs.store, fs.store.fat, fs.store.blocks, fs.files, dir, dir.dirs
    {
      fs.Valid() && dir.Valid() && dir.dirs != fs.store.blocks
    }

    ghost function Now(): Session
      reads this, fs, fs.store, fs.store.fat, fs.store.blocks, fs.files, dir, dir.dirs
      requires Valid()
    {
      Session(fs.Map(), dir.Table(), dir.Cwd())
    }

    /** The state after boot. */
    constructor (size: nat, blocks: nat, slots: nat, zeroed: seq<char>)
      requires size > 0 && blocks < 0xFFFF && |zeroed| == size
      ensures Valid() && Now() == Session(map[], ["/"], "/") && SessionOk(Now())
    {
      fs := new FileSystem(size, blocks, slots, zeroed);
      dir := new Directory();
    }

    /** shell_dispatch() */
    method Dispatch(line: Line)
      requires Valid() && LineFits(dir.Cwd(), line)
      modifies fs, fs.store.fat, fs.store.blocks, fs.files, dir, dir.dirs
      ensures Valid() && Step(old(Now()), line, fs.Capacity(), Now())
    {
      if line.argv[0] in ["mkdir", "cd", "rmdir"] {
        Navigate(line);
      } else {
        Operate(line, dir.Cwd());
      }
    }

    /** The file commands, with the working directory as their directory. */
    method Operate(line: Line, cwd: string)
      requires fs.Valid() && LineFits(cwd, line) && |cwd| < FS_DIR_LEN
      modifies fs, fs.store.fat, fs.store.blocks, fs.files
      ensures fs.Valid() && FileStep(old(fs.Map()), cwd, line, fs.Capacity(), fs.Map())
    {
      var cmd, name := line.argv[0], Arg(line.argv, 1);
      if cmd == "fwrite" {
        var _ := fs.Write(name, cwd, line.input);
      } else if cmd == "fread" || cmd == "cat" {
        var _, _ := fs.Read(name, cwd);
      } else if cmd == "fedit" {
        var _ := fs.Edit(name, cwd, line.input);
      } else if cmd == "fdel" {
        var _ := fs.Delete(name, cwd, line.answer);
      } else {
        Relocate(line, cwd);
      }
    }

    /** The file commands with two names. */
    method Relocate(line: Line, cwd: string)
      requires line.argv != [] && line.argv[0] !in ["fwrite", "fedit", "fdel"]
      requires fs.Valid() && LineFits(cwd, line) && |cwd| < FS_DIR_LEN
      modifies fs, fs.store.fat, fs.store.blocks, fs.files
      ensures fs.Valid() && FileStep(old(fs.Map()), cwd, line, fs.Capacity(), fs.Map())
    {
      if line.argv[0] == "rename" {
        var _ := fs.Rename(Arg(line.argv, 1), Arg(line.argv, 2), cwd);
      } else if line.argv[0] == "copy" {
        var _ := fs.Copy(Arg(line.argv, 1), Arg(line.argv, 2), cwd);
      }
    }

    /** The directory commands. */
    method Navigate(line: Line)
      requires Valid() && LineFits(dir.Cwd(), line) && line.argv[0] in ["mkdir", "cd", "rmdir"]
      modifies dir, dir.dirs
      ensures Valid() && Step(old(Now()), line, fs.Capacity(), Now())
    {
      if line.argv[0] == "mkdir" {
        var _ := dir.Mkdir(Arg(line.argv, 1));
      } else if line.argv[0] == "cd" {
        var _ := dir.Cd(CdArg(line.argv));
      } else {
        RemoveDir(Arg(line.argv, 1), line.answer);
      }
    }

    method RemoveDir(name: string, answer: string)
      requires Valid() && PathFits(dir.Cwd(), name)
      modifies dir, dir.dirs
      ensures Valid() && Now() == AfterRmdir(old(Now()), name, answer)
    {
      var _ := dir.Rmdir(name, answer, fs);
    }

    /** shell_run() on a script, up to the first line with a name that is too long. */
    method Run(script: seq<Line>) returns (n: nat, ghost trace: seq<Session>)
      requires Valid() && SessionOk(Now())
      modifies fs, fs.store.fat, fs.store.blocks, fs.files, dir, dir.dirs
      ensures Valid() && SessionOk(Now()) && n <= |script|
      ensures Trace(trace, script[..n], fs.Capacity()) && trace[0] == old(Now()) && trace[n] == Now()
      ensures n < |script| ==> !LineFits(dir.Cwd(), script[n])
    {
      n := 0;
      trace := [Now()];
      while n < |script| && LineFits(dir.Cwd(), script[n])
        invariant Valid() && SessionOk(Now()) && n <= |script|
        invariant Trace(trace, script[..n], fs.Capacity()) && trace[0] == old(Now()) && trace[n] == Now()
      {
        Dispatch(script[n]);
        TraceStep(trace, script, n, fs.Capacity(), Now());
        trace := trace + [Now()];
        n := n + 1;
      }
    }
  }
}
