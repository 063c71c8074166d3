/**
 The wait-for graph: every SENDING process points at its p_sendto.  It never has a
 cycle, which is also why mini_send()'s deadlock check terminates.
 */
module WaitGraph {
  import opened Lists
  import opened Ipc

  /** No process reaches itself over one or more SENDING processes. */
  ghost predicate Acyclic(s: State)
    requires Sane(s)
  {
    forall x, k :: 0 <= x < |s.proc| && k > 0 ==> Hop(s, x, k) != Some(x)
  }

  lemma {:induction false} HopCompose(s: State, x: nat, a: nat, b: nat)
    requires Sane(s) && x < |s.proc|
    ensures Hop(s, x, a).Some? ==> Hop(s, x, a).value < |s.proc|
    ensures Hop(s, x, a + b) ==
            if Hop(s, x, a).Some? && Hop(s, x, a).value < |s.proc|
            then Hop(s, Hop(s, x, a).value, b) else None
    decreases a
  {
    if a > 0 && s.proc[x].rts.sending {
      HopCompose(s, s.proc[x].sendTo, a - 1, b);
    }
  }

  /** The nodes met in the first `k` hops. */
  ghost function Trail(s: State, x: nat, k: nat): (t: seq<nat>)
    requires Sane(s) && x < |s.proc|
    requires forall i :: 0 <= i <= k ==> Hop(s, x, i).Some?
    ensures |t| == k + 1 && forall i :: 0 <= i <= k ==> t[i] == Hop(s, x, i).value < |s.proc|
  {
    HopCompose(s, x, k, 0);
    if k == 0 then [x] else Trail(s, x, k - 1) + [Hop(s, x, k).value]
  }

  lemma {:induction false} HopPrefix(s: State, x: nat, k: nat, i: nat)
    requires Sane(s) && x < |s.proc| && i <= k && Hop(s, x, k).Some?
    ensures Hop(s, x, i).Some?
  {
    HopCompose(s, x, i, k - i);
  }

  /** Without a cycle no walk is longer than the process table. */
  lemma WalkEnds(s: State, x: nat)
    requires Sane(s) && Acyclic(s) && x < |s.proc|
    ensures Hop(s, x, |s.proc|) == None
  {
    var n := |s.proc|;
    if Hop(s, x, n).Some? {
      forall i | 0 <= i <= n ensures Hop(s, x, i).Some? { HopPrefix(s, x, n, i); }
      var t := Trail(s, x, n);
      forall i, j | 0 <= i < j < |t| ensures t[i] != t[j] {
        HopCompose(s, x, i, j - i);
        assert Hop(s, t[i], j - i) == Some(t[j]);
      }
      Pigeonhole(t, n);
    }
  }

  /** Every edge of `s'` is one of `s`. */
  ghost predicate FewerEdges(s: State, s': State) {
    && |s'.proc| == |s.proc|
    && forall p :: 0 <= p < |s.proc| && s'.proc[p].rts.sending ==>
      s.proc[p].rts.sending && s'.proc[p].sendTo == s.proc[p].sendTo
  }

  lemma {:induction false} FewerHops(s: State, s': State, x: nat, k: nat)
    requires Sane(s) && Sane(s') && FewerEdges(s, s') && x < |s.proc|
    ensures Hop(s', x, k) == None || Hop(s', x, k) == Hop(s, x, k)
    decreases k
  {
    if k > 0 && s'.proc[x].rts.sending {
      FewerHops(s, s', s'.proc[x].sendTo, k - 1);
    }
  }

  lemma FewerEdgesAcyclic(s: State, s': State)
    requires Sane(s) && Sane(s') && Acyclic(s) && FewerEdges(s, s')
    ensures Acyclic(s')
  {
    forall x, k | 0 <= x < |s'.proc| && k > 0 ensures Hop(s', x, k) != Some(x) {
      FewerHops(s, s', x, k);
    }
  }

  /** `s'` has the edges of `s` and one from `c`, which had none, to `d`. */
  ghost predicate OneMoreEdge(s: State, s': State, c: nat, d: nat) {
    && c < |s.proc| == |s'.proc| && d < |s.proc|
    && !s.proc[c].rts.sending && s'.proc[c].rts.sending && s'.proc[c].sendTo == d
    && forall p :: 0 <= p < |s.proc| && p != c ==>
      && s'.proc[p].rts.sending == s.proc[p].rts.sending
      && s'.proc[p].sendTo == s.proc[p].sendTo
  }

  /** Walks that do not reach `c` are the same in both graphs. */
  lemma {:induction false} SameHops(s: State, s': State, c: nat, d: nat, x: nat, k: nat)
    requires Sane(s) && Sane(s') && OneMoreEdge(s, s', c, d) && x < |s.proc|
    requires forall i :: 0 <= i < k ==> Hop(s', x, i) != Some(c)
    ensures Hop(s', x, k) == Hop(s, x, k)
    decreases k
  {
    if k > 0 {
      assert Hop(s', x, 0) == Some(x);
      if s.proc[x].rts.sending {
        var y := s.proc[x].sendTo;
        forall i | 0 <= i < k - 1 ensures Hop(s', y, i) != Some(c) {
          assert Hop(s', x, i + 1) == Hop(s', y, i);
        }
        SameHops(s, s', c, d, y, k - 1);
      }
    }
  }

  /** The first visit to `c`, if any, on the way from `x`. */
  lemma {:induction false} FirstVisit(s: State, x: nat, c: nat, k: nat) returns (j: nat)
    requires Sane(s) && x < |s.proc| && Hop(s, x, k) == Some(c)
    ensures j <= k && Hop(s, x, j) == Some(c)
    ensures forall i :: 0 <= i < j ==> Hop(s, x, i) != Some(c)
    decreases k
  {
    if i :| 0 <= i < k && Hop(s, x, i) == Some(c) {
      j := FirstVisit(s, x, c, i);
    } else {
      j := k;
    }
  }

  /** A new edge closes a cycle exactly when its end already leads back to its start. */
  lemma OneMoreEdgeAcyclic(s: State, s': State, c: nat, d: nat)
    requires Sane(s) && Sane(s') && Acyclic(s) && OneMoreEdge(s, s', c, d)
    ensures Acyclic(s') <==> c != d && !Deadlock(s, c, d)
  {
    if c == d {
      assert Hop(s', c, 1) == Hop(s', d, 0) == Some(c);
    } else if Deadlock(s, c, d) {
      var k :| k > 0 && Hop(s, d, k) == Some(c);
      var j := FirstVisit(s, d, c, k);
      ReachInNew(s, s', c, d, j);
      assert Hop(s', c, j + 1) == Hop(s', d, j);
    } else {
      forall x, k | 0 <= x < |s'.proc| && k > 0 ensures Hop(s', x, k) != Some(x) {
        NoNewCycle(s, s', c, d, x, k);
      }
    }
  }

  lemma ReachInNew(s: State, s': State, c: nat, d: nat, j: nat)
    requires Sane(s) && Sane(s') && OneMoreEdge(s, s', c, d)
    requires Hop(s, d, j) == Some(c) && forall i :: 0 <= i < j ==> Hop(s, d, i) != Some(c)
    ensures Hop(s', d, j) == Some(c)
  {
    var i := 0;
    while i < j
      invariant 0 <= i <= j
      invariant forall l :: 0 <= l < i ==> Hop(s', d, l) != Some(c)
    {
      SameHops(s, s', c, d, d, i);
      i := i + 1;
    }
    SameHops(s, s', c, d, d, j);
  }

  lemma NoNewCycle(s: State, s': State, c: nat, d: nat, x: nat, k: nat)
    requires Sane(s) && Sane(s') && Acyclic(s) && OneMoreEdge(s, s', c, d)
    requires x < |s.proc| && k > 0 && c != d && !Deadlock(s, c, d)
    ensures Hop(s', x, k) != Some(x)
  {
    if i :| 0 <= i < k && Hop(s', x, i) == Some(c) {
      if Hop(s', x, k) == Some(x) {
        // Turn the cycle so that it starts in c; then it leads from d back to c.
        HopCompose(s', x, i, k - i);
        HopCompose(s', c, k - i, i);
        assert Hop(s', d, k - 1) == Hop(s', c, k) == Some(c);
        var j := FirstVisit(s', d, c, k - 1);
        SameHops(s, s', c, d, d, j);
        assert false;
      }
    } else {
      SameHops(s, s', c, d, x, k);
    }
  }
}
