// The collector's state and what each of its operations does to it. Objects and
// roots are sequences of 64-bit words; reachability is the existence of a path.
module GcModel {
  import opened Handles

  // An object of `size` bytes is scanned in whole words.
  datatype Slot = Slot(words: seq<Word>, size: nat, gen: nat, mark: bool, used: bool)

  // `roots` is the shadow stack and `pins` the permanent roots: what the memory
  // they point at holds now. `floor` is g_min_threshold.
  datatype Gc = Gc(table: seq<Slot>, free: seq<nat>, roots: seq<seq<Word>>, pins: seq<seq<Word>>,
                   live: nat, bytes: nat, since: nat, threshold: nat, floor: nat, collections: nat)

  datatype Maybe<+T> = Nothing | Just(value: T)

  const EMPTY := Slot([], 0, 0, false, false)

  function Start(threshold: nat): Gc { Gc([], [], [], [], 0, 0, 0, threshold, threshold, 0) }

  // valid_handle: tagged, in range, in use, of the slot's generation.
  function HandleAt(table: seq<Slot>, w: Word): Maybe<nat> {
    var i := IdxOf(w);
    if TagOf(w) == TAG && i < |table| && table[i].used && table[i].gen == GenOf(w) then Just(i) else Nothing
  }

  datatype Deref = NullHandle | InvalidHandle | StaleHandle | Object(i: nat)

  // cl_gc_deref and its three panics.
  function DerefOf(g: Gc, h: Word): Deref {
    if h == 0 then NullHandle
    else if TagOf(h) != TAG then InvalidHandle
    else
      match HandleAt(g.table, h)
      case Just(i) => Object(i)
      case Nothing => StaleHandle
  }

  // ----- reachability -----

  ghost predicate Points(table: seq<Slot>, words: seq<Word>, j: nat) {
    exists k :: 0 <= k < |words| && HandleAt(table, words[k]) == Just(j)
  }

  ghost predicate Rooted(table: seq<Slot>, all: seq<seq<Word>>, j: nat) {
    exists r :: 0 <= r < |all| && Points(table, all[r], j)
  }

  ghost predicate Edge(table: seq<Slot>, i: nat, j: nat) { i < |table| && Points(table, table[i].words, j) }

  ghost predicate IsPath(table: seq<Slot>, all: seq<seq<Word>>, p: seq<nat>) {
    && |p| > 0 && Rooted(table, all, p[0])
    && forall k :: 0 <= k < |p| - 1 ==> Edge(table, p[k], p[k + 1])
  }

  ghost predicate Reach(table: seq<Slot>, all: seq<seq<Word>>, j: nat) {
    exists p :: IsPath(table, all, p) && p[|p| - 1] == j
  }

  function AllRoots(g: Gc): seq<seq<Word>> { g.roots + g.pins }

  ghost predicate Reachable(g: Gc, j: nat) { Reach(g.table, AllRoots(g), j) }

  ghost function Kept(table: seq<Slot>, all: seq<seq<Word>>): set<nat> { set j | 0 <= j < |table| && Reach(table, all, j) }

  lemma ReachRoot(table: seq<Slot>, all: seq<seq<Word>>, j: nat)
    requires Rooted(table, all, j)
    ensures Reach(table, all, j)
  {
    assert IsPath(table, all, [j]);
  }

  lemma ReachEdge(table: seq<Slot>, all: seq<seq<Word>>, i: nat, j: nat)
    requires Reach(table, all, i) && Edge(table, i, j)
    ensures Reach(table, all, j)
  {
    var p :| IsPath(table, all, p) && p[|p| - 1] == i;
    assert IsPath(table, all, p + [j]);
  }

  // A set that holds the roots and is closed under edges holds everything reachable.
  lemma {:induction false} ClosedHolds(table: seq<Slot>, all: seq<seq<Word>>, s: set<nat>, p: seq<nat>)
    requires forall j :: Rooted(table, all, j) ==> j in s
    requires forall i, j :: i in s && Edge(table, i, j) ==> j in s
    requires IsPath(table, all, p)
    ensures p[|p| - 1] in s
    decreases |p|
  {
    if |p| > 1 {
      var q := p[..|p| - 1];
      assert IsPath(table, all, q);
      ClosedHolds(table, all, s, q);
      assert Edge(table, p[|p| - 2], p[|p| - 1]);
    }
  }

  lemma ReachUsed(table: seq<Slot>, all: seq<seq<Word>>, j: nat)
    requires Reach(table, all, j)
    ensures j < |table| && table[j].used
  {
    var p :| IsPath(table, all, p) && p[|p| - 1] == j;
    if |p| > 1 { assert Edge(table, p[|p| - 2], p[|p| - 1]); }
  }

  // ----- counting -----

  function CountUsed(table: seq<Slot>, n: nat): nat
    requires n <= |table|
  {
    if n == 0 then 0 else CountUsed(table, n - 1) + (if table[n - 1].used then 1 else 0)
  }

  function BytesUsed(table: seq<Slot>, n: nat): nat
    requires n <= |table|
  {
    if n == 0 then 0 else BytesUsed(table, n - 1) + (if table[n - 1].used then table[n - 1].size else 0)
  }

  // ----- collection -----

  function FreedSlot(s: Slot): Slot { Slot([], s.size, (s.gen + 1) % GENS, false, false) }

  function SweptSlot(s: Slot, keep: bool): Slot {
    if s.used && !keep then FreedSlot(s) else s.(mark := keep)
  }

  function Swept(table: seq<Slot>, keep: set<nat>): seq<Slot> {
    seq(|table|, i requires 0 <= i < |table| => SweptSlot(table[i], i in keep))
  }

  // The slots a sweep frees, in the order it frees them.
  function Dead(table: seq<Slot>, keep: set<nat>, n: nat): seq<nat>
    requires n <= |table|
  {
    if n == 0 then []
    else Dead(table, keep, n - 1) + (if table[n - 1].used && n - 1 !in keep then [n - 1] else [])
  }

  // Collect again once the live set has doubled.
  function NextThreshold(bytes: nat, floor: nat): nat { if 2 * bytes < floor then floor else 2 * bytes }

  ghost function Collect(g: Gc): Gc {
    var keep := Kept(g.table, AllRoots(g));
    var t := Swept(g.table, keep);
    var bytes := BytesUsed(t, |t|);
    Gc(t, g.free + Dead(g.table, keep, |g.table|), g.roots, g.pins, CountUsed(t, |t|), bytes, 0,
       NextThreshold(bytes, g.floor), g.floor, g.collections + 1)
  }

  // ----- allocation -----

  function Range(lo: nat, hi: nat): seq<nat>
    decreases hi - lo
  {
    if lo >= hi then [] else [lo] + Range(lo + 1, hi)
  }

  function GrownCap(cap: nat): nat { if cap == 0 then 64 else 2 * cap }

  // Index 0 is never handed out.
  function FirstNew(cap: nat): nat { if cap == 0 then 1 else cap }

  function Zeros(n: nat): seq<Slot> { seq(n, _ => EMPTY) }

  // alloc_slot: pop a free slot, or double the table and keep the rest for later.
  function TakeSlot(g: Gc): (Gc, nat) {
    if g.free != [] then (g.(free := g.free[..|g.free| - 1]), g.free[|g.free| - 1])
    else
      var cap := |g.table|;
      (g.(table := g.table + Zeros(GrownCap(cap) - cap), free := Range(FirstNew(cap) + 1, GrownCap(cap))), FirstNew(cap))
  }

  function NewObject(size: nat, gen: nat): Slot { Slot(seq(size / 8, _ => 0 as Word), size, gen, false, true) }

  ghost function MaybeCollect(g: Gc): Gc { if g.since > g.threshold then Collect(g) else g }

  // Initialise slot i as an object of that size.
  function Place(g: Gc, i: nat, size: nat): Gc
    requires i < |g.table|
  {
    g.(table := g.table[i := NewObject(size, g.table[i].gen)],
       live := g.live + 1, bytes := g.bytes + size, since := g.since + size)
  }

  // So few live objects that the 32-bit index suffices for one more, even if the
  // table has to double for it.
  predicate Roomy(g: Gc) { 2 * (g.live + 1) <= INDEXES }

  lemma TakeSlotIn(g: Gc)
    requires Inv(g)
    ensures TakeSlot(g).1 < |TakeSlot(g).0.table|
  {
    if g.free != [] { assert g.free[|g.free| - 1] in g.free; }
  }

  ghost function Alloc(g: Gc, size: nat): (Gc, nat)
    requires Inv(MaybeCollect(g))
  {
    var g1 := MaybeCollect(g);
    TakeSlotIn(g1);
    var (g2, i) := TakeSlot(g1);
    (Place(g2, i, size), i)
  }

  // ----- the invariant of every reachable state -----

  ghost predicate SlotsOk(table: seq<Slot>) {
    && |table| <= INDEXES
    && (|table| > 0 ==> !table[0].used)
    && forall i :: 0 <= i < |table| ==> SlotOk(table[i])
  }

  predicate SlotOk(s: Slot) { s.gen < GENS && |s.words| == (if s.used then s.size / 8 else 0) }

  ghost predicate Distinct(xs: seq<nat>) { forall i, j :: 0 <= i < j < |xs| ==> xs[i] != xs[j] }

  // The free stack holds each unused slot other than 0 exactly once.
  ghost predicate FreeOk(table: seq<Slot>, free: seq<nat>) {
    && Distinct(free)
    && forall i :: i in free <==> 0 < i < |table| && !table[i].used
  }

  ghost predicate Inv(g: Gc) {
    && SlotsOk(g.table) && FreeOk(g.table, g.free)
    && g.live == CountUsed(g.table, |g.table|) && g.bytes == BytesUsed(g.table, |g.table|)
    && g.floor <= g.threshold
  }
}
