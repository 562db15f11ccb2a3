// What the collector guarantees: exactness of collection, the free stack and the
// counters over every run, stale handles, and the cost of collecting.
module GcProps {
  import opened Handles
  import opened GcModel

  // ----- one collection -----

  // Reachable objects keep their words and generations, so their handles stay
  // good; every other object is gone and its handles with it.
  lemma CollectExact(g: Gc, i: nat)
    requires Inv(g) && i < |g.table|
    ensures |Collect(g).table| == |g.table|
    ensures Collect(g).table[i].used <==> Reachable(g, i)
    ensures Reachable(g, i) ==> g.table[i].used && Collect(g).table[i] == g.table[i].(mark := true)
    ensures g.table[i].used && !Reachable(g, i) ==> Collect(g).table[i] == FreedSlot(g.table[i])
    ensures !g.table[i].used ==> Collect(g).table[i] == g.table[i].(mark := false)
    ensures forall w :: HandleAt(Collect(g).table, w) == Just(i) <==> HandleAt(g.table, w) == Just(i) && Reachable(g, i)
  {
    if Reachable(g, i) { ReachUsed(g.table, AllRoots(g), i); }
  }

  lemma {:induction false} DeadMembers(table: seq<Slot>, keep: set<nat>, n: nat)
    requires n <= |table|
    ensures forall i :: i in Dead(table, keep, n) <==> 0 <= i < n && table[i].used && i !in keep
    ensures Distinct(Dead(table, keep, n))
    decreases n
  {
    if n > 0 { DeadMembers(table, keep, n - 1); }
  }

  lemma CollectFree(g: Gc)
    requires Inv(g)
    ensures FreeOk(Collect(g).table, Collect(g).free) && SlotsOk(Collect(g).table)
  {
    var keep := Kept(g.table, AllRoots(g));
    var dead := Dead(g.table, keep, |g.table|);
    DeadMembers(g.table, keep, |g.table|);
    forall i, j | 0 <= i < |g.free| && 0 <= j < |dead| ensures g.free[i] != dead[j] {
      assert g.free[i] in g.free && dead[j] in dead;
    }
    forall i ensures i in g.free + dead <==> 0 < i < |g.table| && !Collect(g).table[i].used {
      if 0 < i < |g.table| { CollectExact(g, i); }
    }
    forall i | 0 <= i < |g.table| ensures SlotOk(Collect(g).table[i]) { CollectExact(g, i); }
  }

  lemma CollectInv(g: Gc)
    requires Inv(g)
    ensures Inv(Collect(g))
  {
    CollectFree(g);
  }

  // The object graph the program can see is the same before and after.
  lemma CollectReach(g: Gc, j: nat)
    requires Inv(g)
    ensures Reachable(Collect(g), j) <==> Reachable(g, j)
  {
    hide Kept, Collect;
    var g2 := Collect(g);
    SameRoots(g);
    if Reachable(g, j) {
      var p :| IsPath(g.table, AllRoots(g), p) && p[|p| - 1] == j;
      PathKept(g, p, |p|);
      assert p[..|p|] == p;
    }
    if Reachable(g2, j) {
      var p :| IsPath(g2.table, AllRoots(g), p) && p[|p| - 1] == j;
      PathBack(g, p, |p|);
    }
  }

  lemma SameRoots(g: Gc)
    ensures AllRoots(Collect(g)) == AllRoots(g)
  {
  }

  lemma {:induction false} PathKept(g: Gc, p: seq<nat>, n: nat)
    requires Inv(g) && IsPath(g.table, AllRoots(g), p) && 0 < n <= |p|
    ensures IsPath(Collect(g).table, AllRoots(g), p[..n]) && Reachable(g, p[n - 1])
    decreases n
  {
    hide Collect, Reach;
    if n == 1 {
      ReachRoot(g.table, AllRoots(g), p[0]);
      TargetKept(g, p[0]);
      var r :| 0 <= r < |AllRoots(g)| && Points(g.table, AllRoots(g)[r], p[0]);
      PointsKept(g, AllRoots(g)[r], p[0]);
    } else {
      PathKept(g, p, n - 1);
      var i, j := p[n - 2], p[n - 1];
      assert Edge(g.table, i, j);
      ReachEdge(g.table, AllRoots(g), i, j);
      TargetKept(g, j);
      CollectExact(g, i);
      PointsKept(g, g.table[i].words, j);
      assert Edge(Collect(g).table, i, j);
      var q := p[..n];
      forall k | 0 <= k < |q| - 1 ensures Edge(Collect(g).table, q[k], q[k + 1]) {
        if k < n - 2 { assert Edge(Collect(g).table, p[..n - 1][k], p[..n - 1][k + 1]); }
      }
      assert Rooted(Collect(g).table, AllRoots(g), p[..n - 1][0]);
    }
  }

  lemma TargetKept(g: Gc, j: nat)
    requires Inv(g) && Reachable(g, j)
    ensures j < |g.table| && g.table[j].used
  {
    ReachUsed(g.table, AllRoots(g), j);
  }

  lemma PointsKept(g: Gc, words: seq<Word>, j: nat)
    requires Inv(g) && j < |g.table| && Reachable(g, j) && Points(g.table, words, j)
    ensures Points(Collect(g).table, words, j)
  {
    CollectExact(g, j);
    var k :| 0 <= k < |words| && HandleAt(g.table, words[k]) == Just(j);
    assert HandleAt(Collect(g).table, words[k]) == Just(j);
  }

  lemma {:induction false} PathBack(g: Gc, p: seq<nat>, n: nat)
    requires Inv(g) && IsPath(Collect(g).table, AllRoots(g), p) && 0 < n <= |p|
    ensures Reachable(g, p[n - 1])
    decreases n
  {
    hide Collect, Reach;
    if n == 1 {
      var r :| 0 <= r < |AllRoots(g)| && Points(Collect(g).table, AllRoots(g)[r], p[0]);
      PointsBack(g, AllRoots(g)[r], p[0]);
    } else {
      var i, j := p[n - 2], p[n - 1];
      assert Edge(Collect(g).table, i, j);
      PointsBack(g, Collect(g).table[i].words, j);
    }
  }

  // Only reachable slots are still valid targets.
  lemma PointsBack(g: Gc, words: seq<Word>, j: nat)
    requires Inv(g) && Points(Collect(g).table, words, j)
    ensures Reachable(g, j)
  {
    var k :| 0 <= k < |words| && HandleAt(Collect(g).table, words[k]) == Just(j);
    assert j < |Collect(g).table|;
    CollectExact(g, j);
  }

  // Collecting again frees nothing more.
  lemma CollectTwice(g: Gc)
    requires Inv(g)
    ensures Collect(Collect(g)).table == Collect(g).table && Collect(Collect(g)).free == Collect(g).free
  {
    var g1 := Collect(g);
    var g2 := Collect(g1);
    CollectInv(g);
    forall i: nat | i < |g1.table| ensures g2.table[i] == g1.table[i] {
      CollectExact(g, i);
      CollectExact(g1, i);
      CollectReach(g, i);
    }
    var keep := Kept(g1.table, AllRoots(g1));
    DeadMembers(g1.table, keep, |g1.table|);
    var dead := Dead(g1.table, keep, |g1.table|);
    if dead != [] {
      var i := dead[0];
      assert i in dead;
      CollectExact(g, i);
      CollectReach(g, i);
      assert false;
    }
  }

  // ----- allocation -----

  lemma {:induction false} CountAppend(a: seq<Slot>, b: seq<Slot>, n: nat)
    requires n <= |a| <= |b| && b[..|a|] == a
    ensures CountUsed(b, n) == CountUsed(a, n) && BytesUsed(b, n) == BytesUsed(a, n)
    decreases n
  {
    if n > 0 {
      CountAppend(a, b, n - 1);
      assert b[n - 1] == b[..|a|][n - 1];
    }
  }

  lemma {:induction false} CountUnused(t: seq<Slot>, m: nat, n: nat)
    requires m <= n <= |t| && forall i :: m <= i < n ==> !t[i].used
    ensures CountUsed(t, n) == CountUsed(t, m) && BytesUsed(t, n) == BytesUsed(t, m)
    decreases n
  {
    if m < n { CountUnused(t, m, n - 1); }
  }

  lemma {:induction false} RangeMembers(lo: nat, hi: nat)
    ensures forall i :: i in Range(lo, hi) <==> lo <= i < hi
    ensures Distinct(Range(lo, hi))
    decreases hi - lo
  {
    if lo < hi {
      RangeMembers(lo + 1, hi);
      var rest := Range(lo + 1, hi);
      forall k | 0 <= k < |rest| ensures rest[k] > lo { assert rest[k] in rest; }
    }
  }

  // Between taking a slot and filling it: everything but that slot is in order.
  ghost predicate Taken(g: Gc, i: nat) {
    && SlotsOk(g.table) && 0 < i < |g.table| && !g.table[i].used && i !in g.free
    && Distinct(g.free) && (forall j :: j in g.free <==> 0 < j < |g.table| && !g.table[j].used && j != i)
    && g.live == CountUsed(g.table, |g.table|) && g.bytes == BytesUsed(g.table, |g.table|)
    && g.floor <= g.threshold
  }

  lemma RangeSplit(f: seq<nat>, lo: nat, hi: nat)
    requires lo < hi
    ensures f + Range(lo, hi) == (f + [lo]) + Range(lo + 1, hi)
  {}

  lemma RangeEmpty(f: seq<nat>, lo: nat)
    ensures f + Range(lo, lo) == f
  {}

  lemma TakeSlotTaken(g: Gc)
    requires Inv(g) && Roomy(g)
    ensures var (g2, i) := TakeSlot(g); Taken(g2, i) && g.table <= g2.table && forall k :: |g.table| <= k < |g2.table| ==> g2.table[k] == EMPTY
  {
    if g.free != [] { PopTaken(g); } else { GrowTaken(g); }
  }

  lemma PopTaken(g: Gc)
    requires Inv(g) && g.free != []
    ensures var (g2, i) := TakeSlot(g); Taken(g2, i) && g2.table == g.table
  {
    var (g2, i) := TakeSlot(g);
    assert i in g.free;
    assert g.free == g2.free + [i];
    forall k | 0 <= k < |g2.free| ensures g2.free[k] != i { assert g.free[k] == g2.free[k]; }
    assert Distinct(g2.free);
    forall j: nat ensures j in g2.free <==> j in g.free && j != i { }
  }

  lemma GrowTaken(g: Gc)
    requires Inv(g) && Roomy(g) && g.free == []
    ensures var (g2, i) := TakeSlot(g); Taken(g2, i) && g.table <= g2.table && forall k :: |g.table| <= k < |g2.table| ==> g2.table[k] == EMPTY
  {
    hide CountUsed, BytesUsed;
    var (g2, i) := TakeSlot(g);
    var cap := |g.table|;
    AllUsed(g.table, cap);
    RangeMembers(FirstNew(cap) + 1, GrownCap(cap));
    assert g2.table[..cap] == g.table;
    CountAppend(g.table, g2.table, cap);
    CountUnused(g2.table, cap, |g2.table|);
    assert forall j :: 0 < j < cap ==> (j in g.free <==> !g.table[j].used);
  }

  // Equal use and sizes, equal sums.
  lemma {:induction false} CountSame(a: seq<Slot>, b: seq<Slot>, n: nat)
    requires n <= |a| == |b| && forall i :: 0 <= i < |a| ==> a[i].used == b[i].used && a[i].size == b[i].size
    ensures CountUsed(b, n) == CountUsed(a, n) && BytesUsed(b, n) == BytesUsed(a, n)
    decreases n
  {
    if n > 0 { CountSame(a, b, n - 1); }
  }

  // With the free stack empty every slot but slot 0 is in use.
  lemma {:induction false} AllUsed(t: seq<Slot>, n: nat)
    requires n <= |t| && forall i :: 0 < i < n ==> t[i].used
    ensures CountUsed(t, n) + 1 >= n
    decreases n
  {
    if n > 1 { AllUsed(t, n - 1); }
  }

  lemma {:induction false} CountFewer(a: seq<Slot>, b: seq<Slot>, n: nat)
    requires n <= |a| && n <= |b| && forall i :: 0 <= i < n && b[i].used ==> a[i].used
    ensures CountUsed(b, n) <= CountUsed(a, n)
    decreases n
  {
    if n > 0 { CountFewer(a, b, n - 1); }
  }

  lemma {:induction false} CountPlaced(t: seq<Slot>, i: nat, s: Slot, n: nat)
    requires i < |t| && n <= |t| && !t[i].used && s.used
    ensures CountUsed(t[i := s], n) == CountUsed(t, n) + (if i < n then 1 else 0)
    ensures BytesUsed(t[i := s], n) == BytesUsed(t, n) + (if i < n then s.size else 0)
    decreases n
  {
    if n > 0 { CountPlaced(t, i, s, n - 1); }
  }

  lemma PlaceInv(g: Gc, i: nat, size: nat)
    requires Taken(g, i)
    ensures Inv(Place(g, i, size))
  {
    var s := NewObject(size, g.table[i].gen);
    assert SlotOk(g.table[i]);
    CountPlaced(g.table, i, s, |g.table|);
    var t := g.table[i := s];
    forall j | 0 <= j < |t| ensures SlotOk(t[j]) { assert SlotOk(g.table[j]); }
  }

  lemma MaybeCollectInv(g: Gc)
    requires Inv(g)
    ensures Inv(MaybeCollect(g)) && |MaybeCollect(g).table| == |g.table| && MaybeCollect(g).live <= g.live
  {
    if g.since > g.threshold {
      CollectInv(g);
      CountFewer(g.table, Collect(g).table, |g.table|);
    }
  }

  lemma AllocInv(g: Gc, size: nat)
    requires Inv(g) && Roomy(g)
    ensures Inv(MaybeCollect(g)) && Inv(Alloc(g, size).0)
  {
    MaybeCollectInv(g);
    TakeSlotTaken(MaybeCollect(g));
    var (g2, i) := TakeSlot(MaybeCollect(g));
    PlaceInv(g2, i, size);
  }

  // The handle allocation returns: good afterwards, zeroed, and no handle of an
  // object that was live before.
  lemma AllocFresh(g: Gc, size: nat)
    requires Inv(g) && Roomy(g)
    ensures Inv(MaybeCollect(g))
    ensures var (g2, i) := Alloc(g, size);
            && 0 < i < |g2.table| && g2.table[i].gen < GENS && i < INDEXES
            && var h := MkHandle(g2.table[i].gen, i);
               && DerefOf(g2, h) == Object(i)
               && g2.table[i].size == size && |g2.table[i].words| == size / 8 && (forall k :: 0 <= k < size / 8 ==> g2.table[i].words[k] == 0)
               && HandleAt(MaybeCollect(g).table, h) == Nothing
    ensures var (g2, i) := Alloc(g, size);
            forall j: nat :: j < |g.table| && j != i ==> g2.table[j] == MaybeCollect(g).table[j]
    ensures var (g2, i) := Alloc(g, size); !Reachable(g, i)
  {
    MaybeCollectInv(g);
    var g1 := MaybeCollect(g);
    TakeSlotTaken(g1);
    var (g2, i) := TakeSlot(g1);
    assert SlotOk(g2.table[i]);
    Unpack(g2.table[i].gen, i);
    if Reachable(g, i) {
      ReachUsed(g.table, AllRoots(g), i);
      CollectExact(g, i);
      assert false;
    }
  }

  // No two live objects share a handle.
  lemma LiveHandlesDiffer(g: Gc, i: nat, j: nat)
    requires Inv(g) && i < |g.table| && j < |g.table| && i != j && g.table[i].used && g.table[j].used
    ensures MkHandle(g.table[i].gen, i) != MkHandle(g.table[j].gen, j)
  {
    HandlesDiffer(g.table[i].gen, i, g.table[j].gen, j);
  }
}
