// The collector of bootstrap/runtime/cardinal_gc.c as the object it is: a handle
// table, a free stack, a mark worklist, roots and counters, updated by loops.
module Collectors {
  import opened Handles
  import opened GcModel
  import opened GcProps
  import Model = GcModel

  // ----- marking -----

  // `table` is `base` with some reachable slots marked; the worklist holds marked
  // slots, each once.
  ghost predicate Marking(base: seq<Slot>, all: seq<seq<Word>>, table: seq<Slot>, work: seq<nat>) {
    && |table| == |base|
    && (forall i :: 0 <= i < |table| ==> table[i] == base[i].(mark := table[i].mark))
    && (forall i :: 0 <= i < |table| && table[i].mark ==> Reach(base, all, i))
    && (forall k :: 0 <= k < |work| ==> work[k] < |table| && table[work[k]].mark)
    && Distinct(work)
  }

  // What one word may point at is marked.
  ghost predicate Covered(base: seq<Slot>, table: seq<Slot>, words: seq<Word>) {
    |table| == |base| && forall j: nat :: Points(base, words, j) && j < |table| ==> table[j].mark
  }

  // Marked slots off the worklist have been scanned.
  ghost predicate Scanned(base: seq<Slot>, table: seq<Slot>, work: seq<nat>) {
    |table| == |base| && forall i :: 0 <= i < |table| && table[i].mark && i !in work ==> Covered(base, table, base[i].words)
  }

  ghost predicate MarksGrow(a: seq<Slot>, b: seq<Slot>) {
    |a| == |b| && forall i :: 0 <= i < |a| && a[i].mark ==> b[i].mark
  }

  function Marks(table: seq<Slot>, n: nat): nat
    requires n <= |table|
  {
    if n == 0 then 0 else Marks(table, n - 1) + (if table[n - 1].mark then 1 else 0)
  }

  function MarkedBytes(table: seq<Slot>, n: nat): nat
    requires n <= |table|
  {
    if n == 0 then 0 else MarkedBytes(table, n - 1) + (if table[n - 1].mark then table[n - 1].size else 0)
  }

  lemma {:induction false} MarkOne(t: seq<Slot>, i: nat, n: nat)
    requires i < |t| && n <= |t| && !t[i].mark
    ensures var t2 := t[i := t[i].(mark := true)];
            && Marks(t2, n) == Marks(t, n) + (if i < n then 1 else 0)
            && MarkedBytes(t2, n) == MarkedBytes(t, n) + (if i < n then t[i].size else 0)
    decreases n
  {
    if n > 0 { MarkOne(t, i, n - 1); }
  }

  lemma {:induction false} MarksBound(t: seq<Slot>, n: nat)
    requires n <= |t|
    ensures Marks(t, n) <= n
    ensures (forall i :: 0 <= i < n ==> !t[i].mark) ==> Marks(t, n) == 0 && MarkedBytes(t, n) == 0
    decreases n
  {
    if n > 0 { MarksBound(t, n - 1); }
  }

  // Bytes of the objects waiting on the worklist.
  function WaitingBytes(table: seq<Slot>, work: seq<nat>): nat
    requires forall k :: 0 <= k < |work| ==> work[k] < |table|
  {
    if work == [] then 0 else WaitingBytes(table, work[..|work| - 1]) + table[work[|work| - 1]].size
  }

  lemma {:induction false} WaitingSame(a: seq<Slot>, b: seq<Slot>, work: seq<nat>)
    requires |a| == |b| && forall i :: 0 <= i < |a| ==> a[i].size == b[i].size
    requires forall k :: 0 <= k < |work| ==> work[k] < |a|
    ensures WaitingBytes(b, work) == WaitingBytes(a, work)
    decreases |work|
  {
    if work != [] { WaitingSame(a, b, work[..|work| - 1]); }
  }

  // The slot a word refers to, if any, is marked.
  ghost predicate Settled(base: seq<Slot>, table: seq<Slot>, w: Word) {
    |table| == |base| && (HandleAt(base, w).Just? ==> HandleAt(base, w).value < |table| && table[HandleAt(base, w).value].mark)
  }

  lemma HandleSettled(base: seq<Slot>, table: seq<Slot>, w: Word)
    requires |table| == |base| && forall i :: 0 <= i < |table| ==> table[i] == base[i].(mark := table[i].mark)
    ensures HandleAt(table, w) == HandleAt(base, w) && (HandleAt(table, w).Just? ==> HandleAt(table, w).value < |table|)
  {
  }

  lemma SettledOne(base: seq<Slot>, t0: seq<Slot>, t: seq<Slot>, words: seq<Word>, k: nat)
    requires k < |words| && MarksGrow(t0, t) && |t| == |base| && (forall n :: 0 <= n < k ==> Settled(base, t0, words[n]))
    requires HandleAt(base, words[k]).Just? ==> HandleAt(base, words[k]).value < |t| && t[HandleAt(base, words[k]).value].mark
    ensures forall n :: 0 <= n < k + 1 ==> Settled(base, t, words[n])
  {
  }

  lemma SettledAll(base: seq<Slot>, table: seq<Slot>, words: seq<Word>)
    requires |table| == |base| && forall n :: 0 <= n < |words| ==> Settled(base, table, words[n])
    ensures Covered(base, table, words)
  {
    forall j: nat | Points(base, words, j) && j < |table| ensures table[j].mark {
      var k :| 0 <= k < |words| && HandleAt(base, words[k]) == Just(j);
      assert Settled(base, table, words[k]);
    }
  }

  lemma MarkSlot(base: seq<Slot>, all: seq<seq<Word>>, table: seq<Slot>, work: seq<nat>, i: nat)
    requires Marking(base, all, table, work) && i < |table| && !table[i].mark && Reach(base, all, i)
    ensures Marking(base, all, table[i := table[i].(mark := true)], work + [i])
  {
  }

  lemma CoveredKept(base: seq<Slot>, a: seq<Slot>, b: seq<Slot>, words: seq<Word>)
    requires Covered(base, a, words) && MarksGrow(a, b)
    ensures Covered(base, b, words)
  {
  }

  // With nothing left to scan, marked means reachable.
  lemma MarkedIsReachable(base: seq<Slot>, all: seq<seq<Word>>, table: seq<Slot>)
    requires Marking(base, all, table, []) && Scanned(base, table, [])
    requires forall r :: 0 <= r < |all| ==> Covered(base, table, all[r])
    ensures forall i :: 0 <= i < |table| ==> (table[i].mark <==> Reach(base, all, i))
  {
    var s := set i: nat | i < |table| && table[i].mark;
    forall j | Rooted(base, all, j) ensures j in s {
      var r :| 0 <= r < |all| && Points(base, all[r], j);
      assert Covered(base, table, all[r]);
    }
    forall i, j | i in s && Edge(base, i, j) ensures j in s {
      assert Covered(base, table, base[i].words);
    }
    forall i | 0 <= i < |table| && Reach(base, all, i) ensures table[i].mark {
      var p :| IsPath(base, all, p) && p[|p| - 1] == i;
      ClosedHolds(base, all, s, p);
    }
  }

  // ----- sweeping -----

  lemma {:induction false} SweptCounts(table: seq<Slot>, keep: set<nat>, n: nat)
    requires n <= |table|
    ensures CountUsed(Swept(table, keep), n) + |Dead(table, keep, n)| == CountUsed(table, n)
    ensures BytesUsed(Swept(table, keep), n) + DeadBytes(table, keep, n) == BytesUsed(table, n)
    decreases n
  {
    if n > 0 { SweptCounts(table, keep, n - 1); }
  }

  function DeadBytes(table: seq<Slot>, keep: set<nat>, n: nat): nat
    requires n <= |table|
  {
    if n == 0 then 0
    else DeadBytes(table, keep, n - 1) + (if table[n - 1].used && n - 1 !in keep then table[n - 1].size else 0)
  }

  // Bytes scanned in a collection are the survivors' bytes.
  lemma {:induction false} KeptBytes(base: seq<Slot>, table: seq<Slot>, keep: set<nat>, n: nat)
    requires n <= |base| == |table| && forall i :: 0 <= i < |table| ==> table[i].size == base[i].size && (table[i].mark <==> i in keep)
    requires forall i :: 0 <= i < |base| && i in keep ==> base[i].used
    ensures MarkedBytes(table, n) == BytesUsed(Swept(base, keep), n)
    decreases n
  {
    if n > 0 { KeptBytes(base, table, keep, n - 1); }
  }

  class Collector {
    var table: seq<Slot>
    var free: seq<nat>
    var work: seq<nat>
    var roots: seq<seq<Word>>
    var pins: seq<seq<Word>>
    var live: nat
    var bytes: nat
    var since: nat
    var threshold: nat
    var floor: nat
    var collections: nat
    // Bytes of objects the mark loop has scanned, over all collections.
    var scanned: nat

    function View(): Gc
      reads this
    {
      Gc(table, free, roots, pins, live, bytes, since, threshold, floor, collections)
    }

    ghost predicate Valid() reads this { Inv(View()) }

    constructor (threshold: nat)
      ensures Valid() && View() == Start(threshold) && scanned == 0
    {
      table, free, work, roots, pins := [], [], [], [], [];
      live, bytes, since, collections, scanned := 0, 0, 0, 0, 0;
      this.threshold, this.floor := threshold, threshold;
    }

    // ----- roots -----

    method PushRoot(words: seq<Word>)
      modifies this`roots
      ensures View() == old(View()).(roots := old(roots) + [words])
    {
      roots := roots + [words];
    }

    method PopRoots(n: nat)
      requires n <= |roots|
      modifies this`roots
      ensures View() == old(View()).(roots := old(roots)[..|old(roots)| - n])
    {
      roots := roots[..|roots| - n];
    }

    method Pin(words: seq<Word>)
      modifies this`pins
      ensures View() == old(View()).(pins := old(pins) + [words])
    {
      pins := pins + [words];
    }

    // ----- handles -----

    method ValidHandle(w: Word) returns (r: Maybe<nat>)
      ensures r == HandleAt(table, w)
    {
      if TagOf(w) != TAG { return Nothing; }
      var i := IdxOf(w);
      if i >= |table| || !table[i].used { return Nothing; }
      if table[i].gen != GenOf(w) { return Nothing; }
      return Just(i);
    }

    // ----- collection -----

    // Mark and enqueue what the words refer to.
    method ScanRange(words: seq<Word>, ghost base: seq<Slot>, ghost all: seq<seq<Word>>)
      requires Marking(base, all, table, work)
      requires forall j :: Points(base, words, j) ==> Reach(base, all, j)
      modifies this`table, this`work
      ensures Marking(base, all, table, work) && MarksGrow(old(table), table) && Covered(base, table, words)
      ensures old(work) <= work && forall i :: 0 <= i < |table| && table[i].mark && !old(table)[i].mark ==> i in work
      ensures Marks(table, |table|) - |work| == old(Marks(table, |table|) - |work|)
      ensures MarkedBytes(table, |table|) - Waiting(base, all, table, work) == old(MarkedBytes(table, |table|) - Waiting(base, all, table, work))
    {
      hide Points, Covered, Reach, HandleAt, Marks, MarkedBytes, WaitingBytes;
      var k := 0;
      while k < |words|
        invariant 0 <= k <= |words|
        invariant Marking(base, all, table, work) && MarksGrow(old(table), table)
        invariant forall n :: 0 <= n < k ==> Settled(base, table, words[n])
        invariant old(work) <= work && forall i :: 0 <= i < |table| && table[i].mark && !old(table)[i].mark ==> i in work
        invariant Marks(table, |table|) - |work| == old(Marks(table, |table|) - |work|)
        invariant MarkedBytes(table, |table|) - Waiting(base, all, table, work) == old(MarkedBytes(table, |table|) - Waiting(base, all, table, work))
      {
        ghost var t0 := table;
        HandleSettled(base, table, words[k]);
        var r := ValidHandle(words[k]);
        if r.Just? && !table[r.value].mark { MarkAndPush(r.value, words, base, all, k); }
        SettledOne(base, t0, table, words, k);
        k := k + 1;
      }
      SettledAll(base, table, words);
    }

    method MarkAndPush(i: nat, ghost words: seq<Word>, ghost base: seq<Slot>, ghost all: seq<seq<Word>>, ghost k: nat)
      requires Marking(base, all, table, work) && i < |table| && !table[i].mark && k < |words| && HandleAt(base, words[k]) == Just(i)
      requires forall j :: Points(base, words, j) ==> Reach(base, all, j)
      modifies this`table, this`work
      ensures Marking(base, all, table, work) && MarksGrow(old(table), table) && table[i].mark && work == old(work) + [i]
      ensures forall j :: 0 <= j < |table| && table[j].mark && !old(table)[j].mark ==> j == i
      ensures Marks(table, |table|) - |work| == old(Marks(table, |table|) - |work|)
      ensures MarkedBytes(table, |table|) - Waiting(base, all, table, work) == old(MarkedBytes(table, |table|) - Waiting(base, all, table, work))
    {
      assert Points(base, words, i);
      MarkSlot(base, all, table, work, i);
      MarkOne(table, i, |table|);
      WaitingSame(table, table[i := table[i].(mark := true)], work);
      assert (work + [i])[..|work|] == work;
      table := table[i := table[i].(mark := true)];
      work := work + [i];
    }

    method ClearMarks()
      modifies this`table, this`work
      ensures |table| == |old(table)| && work == []
      ensures forall i :: 0 <= i < |table| ==> table[i] == old(table)[i].(mark := false)
    {
      var i := 0;
      while i < |table|
        invariant 0 <= i <= |table| == |old(table)|
        invariant forall j :: 0 <= j < i ==> table[j] == old(table)[j].(mark := false)
        invariant forall j :: i <= j < |table| ==> table[j] == old(table)[j]
      {
        table := table[i := table[i].(mark := false)];
        i := i + 1;
      }
      work := [];
    }

    // Scan a list of root ranges.
    method ScanRoots(ranges: seq<seq<Word>>, ghost base: seq<Slot>, ghost all: seq<seq<Word>>)
      requires Marking(base, all, table, work) && forall r :: 0 <= r < |ranges| ==> ranges[r] in all
      requires Scanned(base, table, work) && Marks(table, |table|) == |work| && MarkedBytes(table, |table|) == Waiting(base, all, table, work)
      modifies this`table, this`work
      ensures Marking(base, all, table, work) && Scanned(base, table, work) && MarksGrow(old(table), table)
      ensures forall r :: 0 <= r < |ranges| ==> Covered(base, table, ranges[r])
      ensures Marks(table, |table|) == |work| && MarkedBytes(table, |table|) == Waiting(base, all, table, work)
    {
      hide Covered, Reach, Marks, MarkedBytes, WaitingBytes, Scanned, Marking;
      CoveredEmpty(base, all, table, work);
      var r := 0;
      while r < |ranges|
        invariant 0 <= r <= |ranges|
        invariant Marking(base, all, table, work) && Scanned(base, table, work) && MarksGrow(old(table), table)
        invariant forall s :: 0 <= s < r ==> Covered(base, table, ranges[s])
        invariant Marks(table, |table|) == |work| && MarkedBytes(table, |table|) == Waiting(base, all, table, work)
      {
        ghost var t0, w0 := table, work;
        RangeReached(base, all, ranges, r);
        ScanRange(ranges[r], base, all);
        ScannedMore(base, t0, table, w0, work);
        CoveredMore(base, t0, table, ranges, r);
        MarksGrowTrans(old(table), t0, table);
        r := r + 1;
      }
    }

    // Scan reachable objects until none is waiting. Each pass takes one object
    // off the worklist, and none is ever put on twice.
    method Trace(ghost base: seq<Slot>, ghost all: seq<seq<Word>>)
      requires Marking(base, all, table, work) && Scanned(base, table, work)
      requires Marks(table, |table|) == |work| && MarkedBytes(table, |table|) == Waiting(base, all, table, work)
      modifies this`table, this`work, this`scanned
      ensures Marking(base, all, table, []) && Scanned(base, table, []) && work == [] && MarksGrow(old(table), table)
      ensures scanned == old(scanned) + MarkedBytes(table, |table|)
    {
      hide Covered, Reach, Points, Marks, MarkedBytes, WaitingBytes, Scanned, Marking;
      ghost var popped := 0;
      CoveredEmpty(base, all, table, work);
      MarksBound(table, |table|);
      while |work| > 0
        invariant |table| == |base|
        invariant Marking(base, all, table, work) && Scanned(base, table, work) && MarksGrow(old(table), table)
        invariant popped + |work| == Marks(table, |table|) <= |table|
        invariant scanned + Waiting(base, all, table, work) == old(scanned) + MarkedBytes(table, |table|)
        decreases |base| - Marks(table, |table|) + |work|
      {
        ghost var t0 := table;
        var i := work[|work| - 1];
        PopWork(base, all, table, work);
        assert work == work[..|work| - 1] + [i];
        work := work[..|work| - 1];
        ghost var w1 := work;
        popped := popped + 1;
        scanned := scanned + table[i].size;
        ScanRange(table[i].words, base, all);
        ScannedNext(base, t0, table, w1, work, i);
        MarksGrowTrans(old(table), t0, table);
        MarksBound(table, |table|);
      }
      NothingWaits(base, all, table);
    }

    // Free every unmarked object.
    method Sweep(ghost base: seq<Slot>, ghost keep: set<nat>)
      requires |table| == |base| && SlotsOk(base) && forall i :: 0 <= i < |table| ==> table[i] == base[i].(mark := i in keep)
      requires forall i :: 0 <= i < |base| && i in keep ==> base[i].used
      requires live == CountUsed(base, |base|) && bytes == BytesUsed(base, |base|)
      modifies this`table, this`free, this`live, this`bytes
      ensures table == Swept(base, keep) && free == old(free) + Dead(base, keep, |base|)
      ensures live == CountUsed(table, |table|) && bytes == BytesUsed(table, |table|)
    {
      hide Dead, DeadBytes, CountUsed, BytesUsed, Swept, SlotsOk, SweptSlot, FreedSlot;
      SweptCounts(base, keep, |base|);
      DeadStart(base, keep);
      var i := 1;
      assert old(free) + [] == free;
      while i < |table|
        invariant |table| == |base| && 1 <= i && (i <= |table| || |table| == 0)
        invariant forall j :: 0 <= j < i && j < |table| ==> table[j] == SweptSlot(base[j], j in keep)
        invariant forall j :: i <= j < |table| ==> table[j] == base[j].(mark := j in keep)
        invariant free == old(free) + DeadTo(base, keep, i)
        invariant live + |DeadTo(base, keep, i)| == CountUsed(base, |base|)
        invariant bytes + DeadBytesTo(base, keep, i) == BytesUsed(base, |base|)
      {
        DeadSplit(base, keep, i);
        if table[i].used && !table[i].mark {
          table := table[i := FreedSlot(table[i])];
          bytes := bytes - table[i].size;
          live := live - 1;
          free := free + [i];
        }
        i := i + 1;
      }
      DeadEnd(base, keep, table, i);
    }

    // Mark exactly what is reachable.
    method MarkPhase() returns (ghost base: seq<Slot>)
      requires Valid()
      modifies this`table, this`work, this`scanned
      ensures Cleared(old(table), base) && |table| == |base|
      ensures forall i :: 0 <= i < |table| ==> table[i] == base[i].(mark := i in Kept(old(table), roots + pins))
      ensures forall i :: 0 <= i < |base| && i in Kept(old(table), roots + pins) ==> base[i].used
      ensures scanned == old(scanned) + MarkedBytes(table, |table|)
    {
      hide Inv, Covered, Reach, Marks, MarkedBytes, WaitingBytes, Scanned, Kept, Waiting;
      ghost var g := View();
      ghost var all := AllRoots(g);
      ClearMarks();
      base := table;
      BaseReach(g, base);
      MarkStart(base, all);
      ScanRoots(roots, base, all);
      ghost var t1 := table;
      ScanRoots(pins, base, all);
      ghost var t2 := table;
      Trace(base, all);
      RootsCovered(base, t1, t2, table, roots, pins);
      MarkedIsReachable(base, all, table);
      KeptUsed(g, base, table);
    }

    // cl_gc_collect.
    method CollectNow()
      requires Valid()
      modifies this
      ensures Valid() && View() == Model.Collect(old(View()))
      ensures scanned == old(scanned) + bytes
    {
      hide Inv, Kept, Swept, Dead, CountUsed, BytesUsed, MarkedBytes, Cleared;
      ghost var g := View();
      InvParts(g);
      collections := collections + 1;
      CountedInv(g);
      ghost var base := MarkPhase();
      ghost var keep := Kept(g.table, AllRoots(g));
      SweptSame(g, base, keep);
      KeptBytes(base, table, keep, |base|);
      Sweep(base, keep);
      since := 0;
      threshold := bytes * 2;
      if threshold < floor { threshold := floor; }
      CollectInv(g);
    }

    // ----- allocation -----

    method AllocSlot() returns (i: nat)
      requires Valid() && Roomy(View())
      modifies this`table, this`free
      ensures (View(), i) == TakeSlot(old(View())) && Taken(View(), i)
      ensures |table| == if old(free) != [] then |old(table)| else if old(table) == [] then 64 else 2 * |old(table)|
    {
      hide Roomy, Taken, Inv, Range;
      TakeSlotTaken(View());
      if |free| > 0 {
        i := free[|free| - 1];
        free := free[..|free| - 1];
        return;
      }
      var cap := |table|;
      table := table + Zeros(GrownCap(cap) - cap);
      i := FirstNew(cap);
      var j := i + 1;
      assert free + Range(j, |table|) == Range(FirstNew(cap) + 1, GrownCap(cap));
      while j < |table|
        invariant i + 1 <= j <= |table| == GrownCap(cap) && table == old(table) + Zeros(GrownCap(cap) - cap)
        invariant free + Range(j, |table|) == Range(FirstNew(cap) + 1, GrownCap(cap))
      {
        RangeSplit(free, j, |table|);
        free := free + [j];
        j := j + 1;
      }
      RangeEmpty(free, |table|);
    }

    // cl_gc_alloc: collect if enough was allocated, then hand out a zeroed object.
    method Allocate(size: nat) returns (h: Word)
      requires Valid() && Roomy(View())
      modifies this
      ensures Inv(MaybeCollect(old(View())))
      ensures Valid() && View() == Model.Alloc(old(View()), size).0
      ensures var i := Model.Alloc(old(View()), size).1; HandleAt(table, h) == Just(i) && table[i].gen < GENS && h == MkHandle(table[i].gen, i)
      ensures scanned == old(scanned) + (if old(since) > old(threshold) then MaybeCollect(old(View())).bytes else 0)
    {
      hide Points, Reach, Inv, Collect, Roomy, Taken, MkHandle, HandleAt, DerefOf;
      ghost var g := View();
      MaybeCollectInv(g);
      AllocInv(g, size);
      AllocFresh(g, size);
      StillRoomy(g);
      if since > threshold { CollectNow(); }
      var i := AllocSlot();
      TakenIn(View(), i);
      table := table[i := NewObject(size, table[i].gen)];
      live, bytes, since := live + 1, bytes + size, since + size;
      ObjectAt(View(), table[i].gen, i);
      h := MkHandle(table[i].gen, i);
    }
  }

  // ----- steps of the methods above -----

  lemma CoveredEmpty(base: seq<Slot>, all: seq<seq<Word>>, table: seq<Slot>, work: seq<nat>)
    requires Marking(base, all, table, work)
    ensures MarksGrow(table, table) && |table| == |base|
  {
  }

  lemma MarksGrowTrans(a: seq<Slot>, b: seq<Slot>, c: seq<Slot>)
    requires MarksGrow(a, b) && MarksGrow(b, c)
    ensures MarksGrow(a, c)
  {
  }

  lemma RangeReached(base: seq<Slot>, all: seq<seq<Word>>, ranges: seq<seq<Word>>, r: nat)
    requires r < |ranges| && forall s :: 0 <= s < |ranges| ==> ranges[s] in all
    ensures forall j :: Points(base, ranges[r], j) ==> Reach(base, all, j)
  {
    assert ranges[r] in all;
    forall j | Points(base, ranges[r], j) ensures Reach(base, all, j) {
      var n :| 0 <= n < |all| && all[n] == ranges[r];
      ReachRoot(base, all, j);
    }
  }

  lemma CoveredMore(base: seq<Slot>, t0: seq<Slot>, t: seq<Slot>, ranges: seq<seq<Word>>, r: nat)
    requires r < |ranges| && MarksGrow(t0, t) && Covered(base, t, ranges[r]) && forall s :: 0 <= s < r ==> Covered(base, t0, ranges[s])
    ensures forall s :: 0 <= s < r + 1 ==> Covered(base, t, ranges[s])
  {
    forall s | 0 <= s < r + 1 ensures Covered(base, t, ranges[s]) { if s < r { CoveredKept(base, t0, t, ranges[s]); } }
  }

  lemma ScannedMore(base: seq<Slot>, t0: seq<Slot>, t: seq<Slot>, w0: seq<nat>, w: seq<nat>)
    requires Scanned(base, t0, w0) && MarksGrow(t0, t) && |t| == |base| && w0 <= w
    requires forall j :: 0 <= j < |t| && t[j].mark && !t0[j].mark ==> j in w
    ensures Scanned(base, t, w)
  {
    hide Covered;
    ScannedKept(base, t0, t, w0, w, -1);
  }

  // The worklist's last slot is taken off, to be scanned next.
  lemma PopWork(base: seq<Slot>, all: seq<seq<Word>>, table: seq<Slot>, work: seq<nat>)
    requires Marking(base, all, table, work) && work != []
    ensures var i, rest := work[|work| - 1], work[..|work| - 1];
            && i < |table| && table[i].words == base[i].words && Marking(base, all, table, rest)
            && Waiting(base, all, table, work) == Waiting(base, all, table, rest) + table[i].size
            && forall j :: Points(base, base[i].words, j) ==> Reach(base, all, j)
  {
    var i := work[|work| - 1];
    forall j | Points(base, base[i].words, j) ensures Reach(base, all, j) {
      assert Edge(base, i, j);
      ReachEdge(base, all, i, j);
    }
  }

  // Bytes waiting, for a worklist known to be in range.
  ghost function Waiting(base: seq<Slot>, all: seq<seq<Word>>, table: seq<Slot>, work: seq<nat>): nat
    requires Marking(base, all, table, work)
  {
    WaitingBytes(table, work)
  }

  lemma NothingWaits(base: seq<Slot>, all: seq<seq<Word>>, table: seq<Slot>)
    requires Marking(base, all, table, [])
    ensures Waiting(base, all, table, []) == 0
  {
  }

  lemma ScannedNext(base: seq<Slot>, t0: seq<Slot>, t: seq<Slot>, w0: seq<nat>, w: seq<nat>, i: nat)
    requires Scanned(base, t0, w0 + [i]) && MarksGrow(t0, t) && |t| == |base| && w0 <= w && i < |base|
    requires Covered(base, t, base[i].words)
    requires forall j :: 0 <= j < |t| && t[j].mark && !t0[j].mark ==> j in w
    ensures Scanned(base, t, w)
  {
    hide Covered;
    ScannedKept(base, t0, t, w0, w, i);
  }

  // The words of i (or of no object) have been scanned since w0.
  lemma ScannedKept(base: seq<Slot>, t0: seq<Slot>, t: seq<Slot>, w0: seq<nat>, w: seq<nat>, i: int)
    requires MarksGrow(t0, t) && |t| == |base| && w0 <= w
    requires forall j :: 0 <= j < |t0| && t0[j].mark && j !in w0 && j != i ==> Covered(base, t0, base[j].words)
    requires 0 <= i < |base| ==> Covered(base, t, base[i].words)
    requires forall j :: 0 <= j < |t| && t[j].mark && !t0[j].mark ==> j in w
    ensures Scanned(base, t, w)
  {
    forall j | 0 <= j < |t| && t[j].mark && j !in w ensures Covered(base, t, base[j].words) {
      if j != i {
        CoveredKept(base, t0, t, base[j].words);
      }
    }
  }

  ghost function DeadTo(base: seq<Slot>, keep: set<nat>, i: nat): seq<nat> { if i <= |base| then Dead(base, keep, i) else [] }

  ghost function DeadBytesTo(base: seq<Slot>, keep: set<nat>, i: nat): nat { if i <= |base| then DeadBytes(base, keep, i) else 0 }

  // Slot 0 is never used.
  lemma DeadStart(base: seq<Slot>, keep: set<nat>)
    requires SlotsOk(base)
    ensures DeadTo(base, keep, 1) == [] && DeadBytesTo(base, keep, 1) == 0
    ensures |base| > 0 ==> base[0].(mark := 0 in keep) == SweptSlot(base[0], 0 in keep)
  {
    if |base| > 0 { assert Dead(base, keep, 0) == [] && DeadBytes(base, keep, 0) == 0; }
  }

  lemma DeadSplit(base: seq<Slot>, keep: set<nat>, i: nat)
    requires i < |base|
    ensures var s, dead := base[i], base[i].used && i !in keep;
            && DeadTo(base, keep, i + 1) == DeadTo(base, keep, i) + (if dead then [i] else [])
            && DeadBytesTo(base, keep, i + 1) == DeadBytesTo(base, keep, i) + (if dead then s.size else 0)
            && SweptSlot(s, i in keep) == (if dead then FreedSlot(s.(mark := i in keep)) else s.(mark := i in keep))
            && FreedSlot(s.(mark := i in keep)).size == s.size
    ensures |DeadTo(base, keep, i + 1)| <= CountUsed(base, |base|) && DeadBytesTo(base, keep, i + 1) <= BytesUsed(base, |base|)
  {
    SweptCounts(base, keep, |base|);
    DeadMonotone(base, keep, i + 1, |base|);
  }

  lemma DeadEnd(base: seq<Slot>, keep: set<nat>, table: seq<Slot>, i: nat)
    requires SlotsOk(base) && |table| == |base| && i >= 1 && i >= |base| && (i == |base| || |base| == 0)
    requires forall j :: 0 <= j < |table| ==> table[j] == SweptSlot(base[j], j in keep)
    ensures table == Swept(base, keep) && DeadTo(base, keep, i) == Dead(base, keep, |base|)
    ensures DeadBytesTo(base, keep, i) == DeadBytes(base, keep, |base|)
  {
  }

  lemma {:induction false} DeadMonotone(base: seq<Slot>, keep: set<nat>, m: nat, n: nat)
    requires m <= n <= |base|
    ensures |Dead(base, keep, m)| <= |Dead(base, keep, n)| && DeadBytes(base, keep, m) <= DeadBytes(base, keep, n)
    decreases n
  {
    if m < n { DeadMonotone(base, keep, m, n - 1); }
  }

  // Clearing the marks changes no reachability and no count.
  ghost predicate Cleared(t: seq<Slot>, base: seq<Slot>) {
    |t| == |base| && forall i :: 0 <= i < |t| ==> base[i] == t[i].(mark := false)
  }

  lemma BaseReach(g: Gc, base: seq<Slot>)
    requires Inv(g) && Cleared(g.table, base)
    ensures forall j :: Reach(base, AllRoots(g), j) <==> Reachable(g, j)
    ensures SlotsOk(base)
  {
    forall w ensures HandleAt(base, w) == HandleAt(g.table, w) { }
    forall words: seq<Word>, j ensures Points(base, words, j) <==> Points(g.table, words, j) { PointsSame(g.table, base, words, j); }
    forall p ensures IsPath(base, AllRoots(g), p) <==> IsPath(g.table, AllRoots(g), p) { PathSame(g.table, base, AllRoots(g), p); }
    forall i | 0 <= i < |base| ensures SlotOk(base[i]) { assert SlotOk(g.table[i]); }
  }

  lemma PointsSame(t: seq<Slot>, base: seq<Slot>, words: seq<Word>, j: nat)
    requires Cleared(t, base)
    ensures Points(base, words, j) <==> Points(t, words, j)
  {
    forall k | 0 <= k < |words| ensures HandleAt(base, words[k]) == HandleAt(t, words[k]) { }
  }

  lemma RootSame(t: seq<Slot>, base: seq<Slot>, all: seq<seq<Word>>, j: nat)
    requires Cleared(t, base)
    ensures Rooted(base, all, j) <==> Rooted(t, all, j)
  {
    forall r | 0 <= r < |all| ensures Points(base, all[r], j) <==> Points(t, all[r], j) { PointsSame(t, base, all[r], j); }
  }

  lemma PathSame(t: seq<Slot>, base: seq<Slot>, all: seq<seq<Word>>, p: seq<nat>)
    requires Cleared(t, base)
    ensures IsPath(base, all, p) <==> IsPath(t, all, p)
  {
    if |p| > 0 {
      RootSame(t, base, all, p[0]);
      forall k | 0 <= k < |p| - 1 ensures Edge(base, p[k], p[k + 1]) <==> Edge(t, p[k], p[k + 1]) {
        if p[k] < |t| { PointsSame(t, base, t[p[k]].words, p[k + 1]); }
      }
    }
  }

  lemma KeptUsed(g: Gc, base: seq<Slot>, table: seq<Slot>)
    requires Inv(g) && Cleared(g.table, base) && |table| == |base|
    requires forall i :: 0 <= i < |table| ==> (table[i].mark <==> Reach(base, AllRoots(g), i))
    ensures forall i :: 0 <= i < |table| ==> (table[i].mark <==> i in Kept(g.table, AllRoots(g)))
    ensures forall i :: 0 <= i < |base| && i in Kept(g.table, AllRoots(g)) ==> base[i].used
  {
    BaseReach(g, base);
    forall i | 0 <= i < |base| && i in Kept(g.table, AllRoots(g)) ensures base[i].used { ReachUsed(g.table, AllRoots(g), i); }
  }

  lemma StillRoomy(g: Gc)
    requires Inv(g) && Roomy(g)
    ensures Roomy(MaybeCollect(g))
  {
    MaybeCollectInv(g);
  }

  lemma ObjectAt(g: Gc, gen: nat, i: nat)
    requires gen < GENS && i < INDEXES && DerefOf(g, MkHandle(gen, i)) == Object(i)
    ensures HandleAt(g.table, MkHandle(gen, i)) == Just(i)
  {
  }

  lemma TakenIn(g: Gc, i: nat)
    requires Taken(g, i)
    ensures i < |g.table|
  {
  }

  lemma CountedInv(g: Gc)
    requires Inv(g)
    ensures Inv(g.(collections := g.collections + 1))
  {
  }

  lemma InvParts(g: Gc)
    requires Inv(g)
    ensures g.live == CountUsed(g.table, |g.table|) && g.bytes == BytesUsed(g.table, |g.table|)
    ensures SlotsOk(g.table)
  {
  }

  lemma MarkStart(base: seq<Slot>, all: seq<seq<Word>>)
    requires forall i :: 0 <= i < |base| ==> !base[i].mark
    ensures Marking(base, all, base, []) && Scanned(base, base, [])
    ensures Marks(base, |base|) == 0 && MarkedBytes(base, |base|) == Waiting(base, all, base, [])
  {
    MarksBound(base, |base|);
  }

  lemma RootsCovered(base: seq<Slot>, t1: seq<Slot>, t2: seq<Slot>, t: seq<Slot>, roots: seq<seq<Word>>,
                     pins: seq<seq<Word>>)
    requires MarksGrow(t1, t2) && MarksGrow(t2, t)
    requires forall r :: 0 <= r < |roots| ==> Covered(base, t1, roots[r])
    requires forall r :: 0 <= r < |pins| ==> Covered(base, t2, pins[r])
    ensures forall r :: 0 <= r < |roots + pins| ==> Covered(base, t, (roots + pins)[r])
  {
    hide Covered;
    forall r | 0 <= r < |roots + pins| ensures Covered(base, t, (roots + pins)[r]) {
      if r < |roots| {
        CoveredKept(base, t1, t2, roots[r]);
        CoveredKept(base, t2, t, roots[r]);
      } else {
        CoveredKept(base, t2, t, pins[r - |roots|]);
      }
    }
  }

  lemma SweptSame(g: Gc, base: seq<Slot>, keep: set<nat>)
    requires Cleared(g.table, base) && SlotsOk(g.table)
    ensures Swept(base, keep) == Swept(g.table, keep) && Dead(base, keep, |base|) == Dead(g.table, keep, |g.table|)
    ensures |base| == |g.table| && |Swept(base, keep)| == |base| && SlotsOk(base)
    ensures CountUsed(base, |base|) == CountUsed(g.table, |g.table|) && BytesUsed(base, |base|) == BytesUsed(g.table, |g.table|)
  {
    hide FreedSlot, Dead, CountUsed, BytesUsed;
    CountSame(g.table, base, |base|);
    DeadAlike(g.table, base, keep, |base|);
    forall i | 0 <= i < |base| ensures SlotOk(base[i]) && SweptSlot(base[i], i in keep) == SweptSlot(g.table[i], i in keep) {
      assert SlotOk(g.table[i]);
      FreedSame(g.table[i], base[i]);
    }
  }

  lemma FreedSame(a: Slot, b: Slot)
    requires b == a.(mark := b.mark)
    ensures FreedSlot(b) == FreedSlot(a)
  {
  }

  lemma {:induction false} DeadAlike(a: seq<Slot>, b: seq<Slot>, keep: set<nat>, n: nat)
    requires n <= |a| == |b| && forall i :: 0 <= i < |a| ==> a[i].used == b[i].used
    ensures Dead(b, keep, n) == Dead(a, keep, n)
    decreases n
  {
    if n > 0 { DeadAlike(a, b, keep, n - 1); }
  }
}
