/**
 Sequences without repetition and the singly linked lists that represent them.

 A linked list is held the way the C code holds it: a table `next` with one link
 per node and a head cell, both ending in a sentinel `nil`.  `Linked` says which
 sequence such a list denotes; the lemmas say what each piece of pointer surgery
 does to that sequence.
 */
module Lists {

  ghost predicate NoDup<T>(s: seq<T>) {
    forall i, j :: 0 <= i < j < |s| ==> s[i] != s[j]
  }

  /** `s` without its first occurrence of `x`; the others keep their order. */
  function Without<T(==)>(s: seq<T>, x: T): (r: seq<T>)
    ensures forall y :: y in r ==> y in s
  {
    if s == [] then [] else if s[0] == x then s[1..] else [s[0]] + Without(s[1..], x)
  }

  lemma {:induction false} WithoutAt<T>(s: seq<T>, x: T, k: nat)
    requires k < |s| && s[k] == x && x !in s[..k]
    ensures Without(s, x) == s[..k] + s[k + 1..]
  {
    if k > 0 {
      assert s[1..][..k - 1] == s[..k][1..];
      WithoutAt(s[1..], x, k - 1);
      assert s[1..][k..] == s[k + 1..];
    }
  }

  lemma {:induction false} WithoutAbsent<T>(s: seq<T>, x: T)
    requires x !in s
    ensures Without(s, x) == s
  {
    if s != [] {
      WithoutAbsent(s[1..], x);
    }
  }

  lemma WithoutNoDup<T>(s: seq<T>, x: T)
    requires NoDup(s)
    ensures NoDup(Without(s, x))
    ensures forall y :: y in Without(s, x) <==> y in s && y != x
    ensures |s| == |Without(s, x)| + if x in s then 1 else 0
  {
    if x in s {
      var k :| 0 <= k < |s| && s[k] == x;
      WithoutAt(s, x, k);
    } else {
      WithoutAbsent(s, x);
    }
  }

  lemma AppendNoDup<T>(s: seq<T>, x: T)
    requires NoDup(s) && x !in s
    ensures NoDup(s + [x]) && NoDup([x] + s)
    ensures forall y :: y in s + [x] <==> y in s || y == x
    ensures forall y :: y in [x] + s <==> y in s || y == x
  {
  }

  /** A repetition-free sequence of numbers below `n` has at most `n` of them. */
  lemma {:induction false} Pigeonhole(s: seq<nat>, n: nat)
    requires NoDup(s) && forall i :: 0 <= i < |s| ==> s[i] < n
    ensures |s| <= n
    decreases n
  {
    if n > 0 {
      var t: seq<nat> := Without<nat>(s, n - 1);
      WithoutNoDup<nat>(s, n - 1);
      forall i | 0 <= i < |t| ensures t[i] < n - 1 {
        assert t[i] in t && t[i] in s;
      }
      Pigeonhole(t, n - 1);
    }
  }

  /** What follows the `i`-th node of the list `s`: the next node or the sentinel. */
  ghost function Successor(s: seq<nat>, i: nat, nil: int): int
    requires i < |s|
  {
    if i + 1 < |s| then s[i + 1] else nil
  }

  ghost function First(s: seq<nat>, nil: int): int {
    if s == [] then nil else s[0]
  }

  /** The list that starts in a cell holding `head` and runs through `next` is `s`. */
  ghost predicate Linked(next: seq<int>, nil: int, head: int, s: seq<nat>) {
    && head == First(s, nil)
    && (forall i :: 0 <= i < |s| ==> s[i] < |next|)
    && (forall i {:trigger Successor(s, i, nil)} :: 0 <= i < |s| ==> next[s[i]] == Successor(s, i, nil))
  }

  lemma LinkedFrame(next: seq<int>, next': seq<int>, nil: int, head: int, s: seq<nat>)
    requires Linked(next, nil, head, s) && |next| <= |next'|
    requires forall i :: 0 <= i < |s| ==> next'[s[i]] == next[s[i]]
    ensures Linked(next', nil, head, s)
  {
  }

  lemma LinkedAppend(next: seq<int>, nil: int, head: int, s: seq<nat>, x: nat)
    requires Linked(next, nil, head, s) && NoDup(s) && s != [] && x !in s && x < |next|
    ensures Linked(next[s[|s| - 1] := x][x := nil], nil, head, s + [x])
  {
    var next', t := next[s[|s| - 1] := x][x := nil], s + [x];
    forall i | 0 <= i < |t|
      ensures t[i] < |next| && next'[t[i]] == Successor(t, i, nil)
    {
      if i < |s| {
        assert t[i] == s[i] && s[i] in s && next[s[i]] == Successor(s, i, nil);
      }
    }
  }

  lemma LinkedPush(next: seq<int>, nil: int, head: int, s: seq<nat>, x: nat)
    requires Linked(next, nil, head, s) && x !in s && x < |next|
    ensures Linked(next[x := head], nil, x, [x] + s)
  {
    var next', t := next[x := head], [x] + s;
    forall i | 0 <= i < |t|
      ensures t[i] < |next| && next'[t[i]] == Successor(t, i, nil)
    {
      if i > 0 {
        assert t[i] == s[i - 1] && s[i - 1] in s;
        assert Successor(t, i, nil) == Successor(s, i - 1, nil);
      }
    }
  }

  /** Replacing the cell that points at the `k`-th node by that node's own link. */
  lemma LinkedUnlink(next: seq<int>, nil: int, head: int, s: seq<nat>, k: nat)
    requires Linked(next, nil, head, s) && NoDup(s) && k < |s|
    ensures k == 0 ==> Linked(next, nil, next[s[0]], Without(s, s[0]))
    ensures k > 0 ==> Linked(next[s[k - 1] := next[s[k]]], nil, head, Without(s, s[k]))
  {
    WithoutAt(s, s[k], k);
    assert next[s[k]] == Successor(s, k, nil);
    var t := Without(s, s[k]);
    var next' := if k == 0 then next else next[s[k - 1] := next[s[k]]];
    forall i | 0 <= i < |t|
      ensures t[i] < |next| && next'[t[i]] == Successor(t, i, nil)
    {
      if i + 1 < k {
        assert t[i] == s[i] && Successor(t, i, nil) == Successor(s, i, nil);
      } else if i + 1 == k {
        assert t[i] == s[i] && Successor(t, i, nil) == Successor(s, k, nil);
      } else {
        assert t[i] == s[i + 1] && Successor(t, i, nil) == Successor(s, i + 1, nil);
      }
    }
  }

  // ---- Several disjoint lists over one table of links -----------------------------

  ghost predicate Disjoint(rows: seq<seq<nat>>) {
    forall i, j, x :: 0 <= i < j < |rows| && x in rows[i] ==> x !in rows[j]
  }

  /** Row `i` is the list that starts at `heads[i]`; no node is on two rows, or twice on one. */
  ghost predicate Rows(next: seq<int>, nil: int, heads: seq<int>, rows: seq<seq<nat>>) {
    && |heads| == |rows| && Disjoint(rows)
    && forall i :: 0 <= i < |rows| ==> NoDup(rows[i]) && Linked(next, nil, heads[i], rows[i])
  }

  /** A change to row `i` and to the links of nodes on no other row. */
  lemma RowsFrame(
    next: seq<int>, nil: int, heads: seq<int>, rows: seq<seq<nat>>, next': seq<int>, i: nat, head: int, row: seq<nat>)
    requires Rows(next, nil, heads, rows) && i < |rows| && |next'| == |next|
    requires NoDup(row) && Linked(next', nil, head, row)
    requires forall j, x :: 0 <= j < |rows| && j != i && x in rows[j] ==> x !in row && next'[x] == next[x]
    ensures Rows(next', nil, heads[i := head], rows[i := row])
  {
    forall j | 0 <= j < |rows| && j != i ensures Linked(next', nil, heads[j], rows[j]) {
      forall k | 0 <= k < |rows[j]| ensures next'[rows[j][k]] == next[rows[j][k]] {
        assert rows[j][k] in rows[j];
      }
      LinkedFrame(next, next', nil, heads[j], rows[j]);
    }
  }

  lemma RowsAppend(next: seq<int>, nil: int, heads: seq<int>, rows: seq<seq<nat>>, i: nat, x: nat)
    requires Rows(next, nil, heads, rows) && i < |rows| && x < |next|
    requires forall j :: 0 <= j < |rows| ==> x !in rows[j]
    ensures rows[i] == [] ==> Rows(next[x := nil], nil, heads[i := x], rows[i := [x]])
    ensures rows[i] != [] ==>
      Rows(next[rows[i][|rows[i]| - 1] := x][x := nil], nil, heads, rows[i := rows[i] + [x]])
  {
    var s := rows[i];
    if s == [] {
      RowsFrame(next, nil, heads, rows, next[x := nil], i, x, [x]);
    } else {
      AppendNoDup(s, x);
      LinkedAppend(next, nil, heads[i], s, x);
      assert s[|s| - 1] in s;
      assert heads[i := heads[i]] == heads;
      RowsFrame(next, nil, heads, rows, next[s[|s| - 1] := x][x := nil], i, heads[i], s + [x]);
    }
  }

  lemma RowsPush(next: seq<int>, nil: int, heads: seq<int>, rows: seq<seq<nat>>, i: nat, x: nat)
    requires Rows(next, nil, heads, rows) && i < |rows| && x < |next|
    requires forall j :: 0 <= j < |rows| ==> x !in rows[j]
    ensures Rows(next[x := heads[i]], nil, heads[i := x], rows[i := [x] + rows[i]])
  {
    AppendNoDup(rows[i], x);
    LinkedPush(next, nil, heads[i], rows[i], x);
    RowsFrame(next, nil, heads, rows, next[x := heads[i]], i, x, [x] + rows[i]);
  }

  lemma RowsUnlink(next: seq<int>, nil: int, heads: seq<int>, rows: seq<seq<nat>>, i: nat, k: nat)
    requires Rows(next, nil, heads, rows) && i < |rows| && k < |rows[i]|
    ensures k == 0 ==> Rows(next, nil, heads[i := next[rows[i][0]]], rows[i := Without(rows[i], rows[i][0])])
    ensures k > 0 ==>
      Rows(next[rows[i][k - 1] := next[rows[i][k]]], nil, heads, rows[i := Without(rows[i], rows[i][k])])
  {
    var s := rows[i];
    LinkedUnlink(next, nil, heads[i], s, k);
    WithoutNoDup(s, s[k]);
    if k == 0 {
      RowsFrame(next, nil, heads, rows, next, i, next[s[0]], Without(s, s[0]));
    } else {
      assert s[k - 1] in s;
      assert heads[i := heads[i]] == heads;
      RowsFrame(next, nil, heads, rows, next[s[k - 1] := next[s[k]]], i, heads[i], Without(s, s[k]));
    }
  }
}
