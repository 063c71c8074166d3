/**
 What mini_receive()'s search of the pending notifications finds.  For ANY it is the
 lowest pending id.  For one particular source it finds that source's notification
 only when no lower bit of the same chunk is set; otherwise a pending notification is
 passed over and the caller blocks.
 */
module NoticeSearch {
  import opened Ipc

  lemma {:induction false} LowestIs(bits: set<nat>, lo: nat, hi: nat)
    ensures var r := Lowest(bits, lo, hi);
            match r
            case Some(id) => lo <= id < hi && id in bits && forall i :: lo <= i < id ==> i !in bits
            case None => forall i :: lo <= i < hi ==> i !in bits
    decreases hi - lo
  {
    if lo < hi && lo !in bits {
      LowestIs(bits, lo + 1, hi);
    }
  }

  /** receive(ANY) takes the lowest pending id, and misses none. */
  lemma {:induction false} ScanAny(s: State, bits: set<nat>, lo: nat)
    requires forall i :: i in bits ==> i < |s.proc|
    ensures match Scan(s, bits, Any, lo)
            case Some(id) => lo <= id && id in bits && forall i :: lo <= i < id ==> i !in bits
            case None => forall i :: lo <= i ==> i !in bits
    decreases |s.proc| - lo
  {
    LowestIs(bits, lo, lo + CHUNK);
    if lo < |s.proc| && Lowest(bits, lo, lo + CHUNK).None? {
      ScanAny(s, bits, lo + CHUNK);
    }
  }

  lemma {:induction false} ScanSound(s: State, bits: set<nat>, src: Source, lo: nat)
    ensures var r := Scan(s, bits, src, lo);
            r.Some? ==> r.value in bits && r.value < |s.proc| &&
                        (src == Any || (Owner(s, r.value).Some? && src == Only(Owner(s, r.value).value)))
    decreases |s.proc| - lo
  {
    LowestIs(bits, lo, lo + CHUNK);
    if lo < |s.proc| {
      ScanSound(s, bits, src, lo + CHUNK);
    }
  }

  /** Every privilege structure in use belongs to the slot of the same number. */
  ghost predicate OwnersOk(s: State) {
    forall p :: 0 <= p < |s.proc| ==> s.proc[p].owner == None || s.proc[p].owner == Some(p)
  }

  /** A pending notification of `x` that the search can see: the lowest of its chunk. */
  predicate Visible(bits: set<nat>, x: nat) {
    x in bits && forall i :: x / CHUNK * CHUNK <= i < x ==> i !in bits
  }

  /** receive(x) finds the notification pending from x exactly when it is visible. */
  lemma ScanOnly(s: State, bits: set<nat>, x: nat)
    requires OwnersOk(s) && x < |s.proc| && s.proc[x].owner == Some(x)
    requires forall i :: i in bits ==> i < |s.proc|
    ensures Scan(s, bits, Only(x), 0) == if Visible(bits, x) then Some(x) else None
  {
    ScanOnlyFrom(s, bits, x, 0);
  }

  lemma {:induction false} ScanOnlyFrom(s: State, bits: set<nat>, x: nat, k: nat)
    requires OwnersOk(s) && x < |s.proc| && s.proc[x].owner == Some(x)
    requires forall i :: i in bits ==> i < |s.proc|
    requires CHUNK * k <= x + CHUNK
    ensures Scan(s, bits, Only(x), CHUNK * k) ==
            if CHUNK * k <= x && Visible(bits, x) then Some(x) else None
    decreases x + CHUNK - CHUNK * k
  {
    var lo := CHUNK * k;
    LowestIs(bits, lo, lo + CHUNK);
    if lo <= x {
      assert lo + CHUNK == CHUNK * (k + 1);
      ScanOnlyFrom(s, bits, x, k + 1);
      assert lo <= x < lo + CHUNK ==> x / CHUNK == k;
    } else {
      ScanPast(s, bits, x, lo);
    }
  }

  lemma {:induction false} ScanPast(s: State, bits: set<nat>, x: nat, lo: nat)
    requires OwnersOk(s) && x < lo
    ensures Scan(s, bits, Only(x), lo) == None
    decreases |s.proc| - lo
  {
    LowestIs(bits, lo, lo + CHUNK);
    if lo < |s.proc| {
      ScanPast(s, bits, x, lo + CHUNK);
    }
  }

  /** With bits 5 and 6 pending, receive(6) does not see 6. */
  lemma HiddenNotice(s: State)
    requires OwnersOk(s) && 6 < |s.proc| && s.proc[6].owner == Some(6)
    ensures Scan(s, {5, 6}, Only(6), 0) == None
    ensures 6 in {5, 6}
  {
    ScanOnly(s, {5, 6}, 6);
    assert 6 / CHUNK * CHUNK <= 5 < 6;
  }
}
