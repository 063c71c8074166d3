/**
 The path strings of src/dir.c.
 */
module Paths {

  const DIR_NAME_LEN := 64

  /** The part of an absolute path that build_path() puts in front of a relative name. */
  function Prefix(cwd: string): string {
    if cwd != "/" && |cwd| < DIR_NAME_LEN - 2 then cwd + "/" else cwd
  }

  predicate Absolute(path: string) {
    path != "" && path[0] == '/'
  }

  /** The result fits its buffer, terminator included. */
  predicate PathFits(cwd: string, name: string) {
    (if Absolute(name) then |name| else |Prefix(cwd)| + |name|) < DIR_NAME_LEN
  }

  /** build_path() */
  function Build(cwd: string, name: string): (r: string)
    requires name != ""
    ensures Absolute(cwd) ==> Absolute(r)
    ensures PathFits(cwd, name) ==> |r| < DIR_NAME_LEN
  {
    if Absolute(name) then
      if |name| > 1 && name[|name| - 1] == '/' then name[..|name| - 1] else name
    else Prefix(cwd) + name
  }

  /** An absolute path is taken as it is, with or without a slash behind it. */
  lemma SlashOptional(cwd: string, path: string)
    requires Absolute(path) && path[|path| - 1] != '/'
    ensures Build(cwd, path) == path && Build(cwd, path + "/") == path
  {
    assert (path + "/")[..|path|] == path;
  }

  /**
   A path that was built names the same directory wherever it is used, exactly when no slash
   is left at its end: none is stripped off a relative name, and one only off an absolute one.
   */
  lemma BuiltAnywhere(cwd: string, name: string, other: string)
    requires Absolute(cwd) && name != ""
    ensures Build(other, Build(cwd, name)) == Build(cwd, name) <==>
            if Absolute(name) then !(|name| > 2 && name[|name| - 1] == name[|name| - 2] == '/')
            else name[|name| - 1] != '/'
  {
  }

  /** The position behind the last slash, 0 if there is none. */
  function AfterSlash(path: string): (k: nat)
    ensures k <= |path| && (k > 0 ==> path[k - 1] == '/')
    ensures forall i :: k <= i < |path| ==> path[i] != '/'
  {
    if path == "" || path[|path| - 1] == '/' then |path| else AfterSlash(path[..|path| - 1])
  }

  /** What parent_path() computes. */
  function Parent(path: string): (r: string)
    ensures Absolute(path) ==> Absolute(r) && |r| <= |path|
  {
    var k := AfterSlash(path);
    if path == "/" || k <= 1 then "/" else path[..k - 1]
  }

  /** `child` is one more component behind `parent`. */
  predicate Child(child: string, parent: string) {
    var stem := if parent == "/" then "/" else parent + "/";
    stem < child && '/' !in child[|stem|..]
  }

  /** parent_path() */
  method ParentPath(path: string) returns (r: string)
    ensures r == Parent(path)
  {
    if path == "/" {
      return "/";
    }
    var len := |path|;
    while len > 0 && path[len - 1] != '/'
      invariant 0 <= len <= |path| && forall i :: len <= i < |path| ==> path[i] != '/'
    {
      len := len - 1;
    }
    r := if len <= 1 then "/" else path[..len - 1];
  }

  /** is_immediate_child() */
  method IsImmediateChild(child: string, parent: string) returns (b: bool)
    ensures b <==> Child(child, parent)
  {
    var from := 1;
    if parent == "/" {
      if |child| == 0 || child[0] != '/' || |child| == 1 {
        return false;
      }
    } else {
      from := |parent| + 1;
      if !(parent <= child) || |child| == |parent| || child[|parent|] != '/' {
        return false;
      }
    }
    assert child[..from] == if parent == "/" then "/" else parent + "/";
    var rest := from;
    while rest < |child|
      invariant from <= rest <= |child| && '/' !in child[from..rest]
    {
      if child[rest] == '/' {
        assert child[from..][rest - from] == '/';
        return false;
      }
      rest := rest + 1;
    }
    assert child[from..rest] == child[from..];
    return rest != from;
  }

  lemma LastSlash(path: string, k: nat)
    requires 0 < k <= |path| && path[k - 1] == '/' && forall i :: k <= i < |path| ==> path[i] != '/'
    ensures AfterSlash(path) == k
  {
  }

  /** Where a name put behind a path has its last slash. */
  lemma SlashBehind(stem: string, name: string)
    ensures '/' in name ==> AfterSlash(stem + name) == |stem| + AfterSlash(name) && AfterSlash(name) > 0
    ensures '/' !in name ==> AfterSlash(stem + name) == AfterSlash(stem)
  {
    var k := AfterSlash(stem + name);
    if '/' in name {
      var i :| 0 <= i < |name| && name[i] == '/';
      assert (stem + name)[|stem| + AfterSlash(name) - 1] == '/';
      LastSlash(stem + name, |stem| + AfterSlash(name));
    } else if AfterSlash(stem) > 0 {
      LastSlash(stem + name, AfterSlash(stem));
    }
  }

  /**
   Going down and up again: the parent of a directory made from a relative name is the
   working directory exactly when the name has no slash and the separator fitted.
   */
  lemma ParentOfBuilt(cwd: string, name: string)
    requires Absolute(cwd) && name != "" && !Absolute(name)
    ensures Parent(Build(cwd, name)) == cwd <==> '/' !in name && (cwd == "/" || |cwd| < DIR_NAME_LEN - 2)
  {
    var stem := Prefix(cwd);
    SlashBehind(stem, name);
    if '/' in name {
      assert AfterSlash(name) > 1;
    } else if stem == cwd + "/" {
      LastSlash(stem, |stem|);
      assert (stem + name)[..|cwd|] == cwd;
    } else if cwd == "/" {
      LastSlash(stem, 1);
    }
  }

  /** ls lists a subdirectory made from a relative name under the same condition. */
  lemma BuiltIsChild(cwd: string, name: string)
    requires Absolute(cwd) && name != "" && !Absolute(name)
    ensures Child(Build(cwd, name), cwd) <==> '/' !in name && (cwd == "/" || |cwd| < DIR_NAME_LEN - 2)
  {
    var stem := Prefix(cwd);
    assert (stem + name)[|stem|..] == name;
    assert stem == cwd ==> (stem + name)[|cwd|] == name[0];
  }

  /**
   is_immediate_child() and parent_path() agree on all absolute paths, but for the root
   itself, paths that end in a slash, and "//x", which parent_path() puts under the root.
   */
  lemma ChildIffParent(child: string, parent: string)
    requires Absolute(child) && Absolute(parent)
    ensures Child(child, parent) <==>
            && Parent(child) == parent && child[|child| - 1] != '/'
            && !(parent == "/" && |child| > 1 && child[1] == '/')
  {
    var k := AfterSlash(child);
    var stem := if parent == "/" then "/" else parent + "/";
    if Child(child, parent) {
      assert forall i :: |stem| <= i < |child| ==> child[i] == child[|stem|..][i - |stem|];
      LastSlash(child, |stem|);
      assert child[|child| - 1] != '/';
      if parent != "/" {
        assert child[..|parent|] == parent;
      }
    }
    if Parent(child) == parent && child[|child| - 1] != '/' && !(parent == "/" && |child| > 1 && child[1] == '/') {
      assert k == |stem| && child[..k] == stem;
      assert '/' !in child[k..];
    }
  }
}
