// Storing into objects, and what stays reachable: the facts the containers rest
// on when any of their allocations may collect.
module GcMutate {
  import opened Handles
  import opened GcModel
  import opened GcProps
  import opened GcRuns
  import opened Collectors

  // An object's words, its handle and its size are as before.
  ghost predicate Same(a: seq<Slot>, b: seq<Slot>, j: nat) {
    j < |a| && j < |b| && b[j].used == a[j].used && b[j].gen == a[j].gen && b[j].words == a[j].words && b[j].size == a[j].size
  }

  // Every object the program could reach, but those in `but`, is untouched.
  ghost predicate Untouched(g: Gc, g2: Gc, but: set<nat>) {
    forall j: nat :: Reachable(g, j) && j !in but ==> Same(g.table, g2.table, j)
  }

  lemma PointsSame(a: seq<Slot>, b: seq<Slot>, words: seq<Word>, j: nat)
    requires Points(a, words, j) && Same(a, b, j)
    ensures Points(b, words, j)
  {
    var k :| 0 <= k < |words| && HandleAt(a, words[k]) == Just(j);
    assert HandleAt(b, words[k]) == Just(j);
  }

  // A path whose objects are untouched is still a path, also with more roots.
  lemma {:induction false} PathFrame(a: seq<Slot>, b: seq<Slot>, all: seq<seq<Word>>, all2: seq<seq<Word>>, p: seq<nat>)
    requires IsPath(a, all, p) && forall r :: r in all ==> r in all2
    requires forall k :: 0 <= k < |p| ==> Same(a, b, p[k])
    ensures Reach(b, all2, p[|p| - 1])
    decreases |p|
  {
    var n := |p| - 1;
    if n == 0 {
      var r :| 0 <= r < |all| && Points(a, all[r], p[0]);
      assert all[r] in all;
      var s :| 0 <= s < |all2| && all2[s] == all[r];
      PointsSame(a, b, all[r], p[0]);
      ReachRoot(b, all2, p[0]);
    } else {
      PathFrame(a, b, all, all2, p[..n]);
      assert Edge(a, p[n - 1], p[n]);
      PointsSame(a, b, a[p[n - 1]].words, p[n]);
      ReachEdge(b, all2, p[n - 1], p[n]);
    }
  }

  // The same path, step by step.
  lemma WaySame(a: seq<Slot>, b: seq<Slot>, all: seq<seq<Word>>, p: seq<nat>)
    requires IsPath(a, all, p) && forall k :: 0 <= k < |p| ==> Same(a, b, p[k])
    ensures IsPath(b, all, p)
  {
    var r :| 0 <= r < |all| && Points(a, all[r], p[0]);
    PointsSame(a, b, all[r], p[0]);
    forall k | 0 <= k < |p| - 1 ensures Edge(b, p[k], p[k + 1]) {
      assert Edge(a, p[k], p[k + 1]);
      PointsSame(a, b, a[p[k]].words, p[k + 1]);
    }
  }

  lemma {:induction false} PathReached(a: seq<Slot>, all: seq<seq<Word>>, p: seq<nat>, k: nat)
    requires IsPath(a, all, p) && k < |p|
    ensures Reach(a, all, p[k])
  {
    assert IsPath(a, all, p[..k + 1]);
  }

  lemma ReachFrame(a: seq<Slot>, b: seq<Slot>, all: seq<seq<Word>>, all2: seq<seq<Word>>, j: nat)
    requires Reach(a, all, j) && (forall r :: r in all ==> r in all2)
    requires forall i: nat :: Reach(a, all, i) ==> Same(a, b, i)
    ensures Reach(b, all2, j)
  {
    var p :| IsPath(a, all, p) && p[|p| - 1] == j;
    forall k | 0 <= k < |p| ensures Same(a, b, p[k]) { PathReached(a, all, p, k); }
    PathFrame(a, b, all, all2, p);
  }

  // The part of a path before the first visit to i.
  lemma {:induction false} FirstVisit(p: seq<nat>, i: nat) returns (n: nat)
    requires |p| > 0 && p[|p| - 1] == i
    ensures n < |p| && p[n] == i && forall k :: 0 <= k < n ==> p[k] != i
    decreases |p|
  {
    n := |p| - 1;
    if j: nat :| j < |p| - 1 && p[j] == i {
      n := FirstVisit(p[..j + 1], i);
    }
  }

  // An allocation, with the collection it may start, touches nothing reachable,
  // and its object is none of them.
  lemma AllocFrame(g: Gc, size: nat)
    requires Inv(g) && Roomy(g)
    ensures Inv(MaybeCollect(g)) && Inv(Alloc(g, size).0)
    ensures var (g2, n) := Alloc(g, size);
            && AllRoots(g2) == AllRoots(g) && g2.roots == g.roots && g2.pins == g.pins
            && Untouched(g, g2, {}) && !Reachable(g, n)
            && n < |g2.table| && g2.table[n].used && g2.table[n].words == seq(size / 8, _ => 0 as Word) && g2.table[n].size == size
            && forall j: nat :: Reachable(g, j) ==> Reachable(g2, j)
  {
    hide Collect, Inv;
    AllocInv(g, size);
    AllocFresh(g, size);
    var (g2, n) := Alloc(g, size);
    forall j: nat | Reachable(g, j) ensures Same(g.table, g2.table, j) { AllocSame(g, size, j); }
    AllocRoots(g, size);
    forall j: nat | Reachable(g, j) ensures Reachable(g2, j) { ReachFrame(g.table, g2.table, AllRoots(g), AllRoots(g2), j); }
  }

  lemma AllocRoots(g: Gc, size: nat)
    requires Inv(MaybeCollect(g))
    ensures Alloc(g, size).0.roots == g.roots && Alloc(g, size).0.pins == g.pins
    ensures var (g2, n) := Alloc(g, size); n < |g2.table| && g2.table[n] == NewObject(size, g2.table[n].gen)
  {
  }

  lemma AllocSame(g: Gc, size: nat, j: nat)
    requires Inv(g) && Roomy(g) && Reachable(g, j)
    ensures Inv(MaybeCollect(g)) && Same(g.table, Alloc(g, size).0.table, j)
  {
    hide Collect, Inv, Reach;
    ReachUsed(g.table, AllRoots(g), j);
    AllocFresh(g, size);
    MaybeCollectInv(g);
    CollectExact(g, j);
    TakeSlotTaken(MaybeCollect(g));
  }

  // ----- storing a range of words -----

  function WriteRange(g: Gc, i: nat, off: nat, ws: seq<Word>): Gc
    requires i < |g.table| && off + |ws| <= |g.table[i].words|
  {
    var s := g.table[i];
    g.(table := g.table[i := s.(words := s.words[..off] + ws + s.words[off + |ws|..])])
  }

  lemma WriteRangeInv(g: Gc, i: nat, off: nat, ws: seq<Word>)
    requires Inv(g) && i < |g.table| && off + |ws| <= |g.table[i].words|
    ensures Inv(WriteRange(g, i, off, ws))
  {
    var t := WriteRange(g, i, off, ws).table;
    CountSame(g.table, t, |t|);
    forall j | 0 <= j < |t| ensures SlotOk(t[j]) { assert SlotOk(g.table[j]); }
  }

  // A word of a good handle.
  ghost predicate Holds(g: Gc, h: Word, n: nat) {
    var i := IdxOf(h);
    h != 0 && DerefOf(g, h) == Object(i) && i < |g.table| && |g.table[i].words| == n
  }

  function WordsAt(g: Gc, h: Word): seq<Word> { if IdxOf(h) < |g.table| then g.table[IdxOf(h)].words else [] }

  lemma HoldsSame(g: Gc, g2: Gc, h: Word, n: nat)
    requires Holds(g, h, n) && Same(g.table, g2.table, IdxOf(h))
    ensures Holds(g2, h, n) && WordsAt(g2, h) == WordsAt(g, h)
  {
  }

  function Spliced(s: seq<Word>, off: nat, ws: seq<Word>): (r: seq<Word>)
    requires off + |ws| <= |s|
    ensures |r| == |s|
  {
    s[..off] + ws + s[off + |ws|..]
  }

  // Only the words of the objects in s may differ.
  ghost predicate OnlyChanged(g: Gc, g2: Gc, s: set<nat>) {
    && |g2.table| == |g.table| && g2.roots == g.roots && g2.pins == g.pins && g2.live == g.live
    && forall j: nat :: j < |g.table| ==>
         && g2.table[j].used == g.table[j].used && g2.table[j].gen == g.table[j].gen && g2.table[j].size == g.table[j].size
         && (j !in s ==> g2.table[j].words == g.table[j].words)
  }

  lemma ChangedTrans(a: Gc, b: Gc, c: Gc, s: set<nat>, t: set<nat>)
    requires OnlyChanged(a, b, s) && OnlyChanged(b, c, t)
    ensures OnlyChanged(a, c, s + t)
  {
  }

  lemma Elsewhere(g: Gc, g2: Gc, s: set<nat>, h: Word, n: nat)
    requires OnlyChanged(g, g2, s) && Holds(g, h, n) && IdxOf(h) !in s
    ensures Holds(g2, h, n) && WordsAt(g2, h) == WordsAt(g, h)
  {
  }

  lemma UntouchedThen(g: Gc, g1: Gc, g2: Gc, a: set<nat>, s: set<nat>)
    requires Untouched(g, g1, a) && OnlyChanged(g1, g2, s)
    ensures Untouched(g, g2, a + s)
  {
    hide Reach;
  }

  // Objects nothing reachable refers to do not count.
  lemma UntouchedLess(g: Gc, g2: Gc, a: set<nat>, b: set<nat>)
    requires Untouched(g, g2, a) && forall j: nat :: j in a && Reachable(g, j) ==> j in b
    ensures Untouched(g, g2, b)
  {
    hide Reach;
  }

  lemma Wrote(g: Gc, h: Word, off: nat, ws: seq<Word>)
    requires Holds(g, h, |WordsAt(g, h)|) && off + |ws| <= |WordsAt(g, h)|
    ensures var g2 := WriteRange(g, IdxOf(h), off, ws);
            OnlyChanged(g, g2, {IdxOf(h)}) && WordsAt(g2, h) == Spliced(WordsAt(g, h), off, ws) && Holds(g2, h, |WordsAt(g, h)|)
  {
  }

  // What a reachable object's word refers to is reachable.
  lemma ReachWord(g: Gc, i: nat, k: nat, n: nat)
    requires Reachable(g, i) && i < |g.table| && k < |g.table[i].words| && Holds(g, g.table[i].words[k], n)
    ensures Reachable(g, IdxOf(g.table[i].words[k]))
  {
    var h := g.table[i].words[k];
    assert HandleAt(g.table, g.table[i].words[k]) == Just(IdxOf(h));
    assert Points(g.table, g.table[i].words, IdxOf(h));
    assert Edge(g.table, i, IdxOf(h));
    ReachEdge(g.table, AllRoots(g), i, IdxOf(h));
  }

  // Copy n words between two objects.
  method CopyWords(c: Collector, src: Word, soff: nat, dst: Word, doff: nat, n: nat)
    requires c.Valid() && IdxOf(src) != IdxOf(dst)
    requires Holds(c.View(), src, |WordsAt(c.View(), src)|) && Holds(c.View(), dst, |WordsAt(c.View(), dst)|)
    requires soff + n <= |WordsAt(c.View(), src)| && doff + n <= |WordsAt(c.View(), dst)|
    modifies c`table
    ensures c.Valid() && OnlyChanged(old(c.View()), c.View(), {IdxOf(dst)}) && Holds(c.View(), dst, |old(WordsAt(c.View(), dst))|)
    ensures WordsAt(c.View(), dst) == Spliced(old(WordsAt(c.View(), dst)), doff, old(WordsAt(c.View(), src))[soff..soff + n])
  {
    hide Inv, HandleAt, DerefOf, Spliced, OnlyChanged;
    ghost var g := c.View();
    var s, d := IdxOf(src), IdxOf(dst);
    ghost var ws := g.table[s].words;
    var k := 0;
    WriteNothing(g, d, doff);
    assert ws[soff..soff] == [];
    while k < n
      invariant 0 <= k <= n && c.Valid() && soff + n <= |ws| && d < |g.table| && doff + n <= |g.table[d].words|
      invariant c.View() == WriteRange(g, d, doff, ws[soff..soff + k])
    {
      WriteNext(g, d, doff, ws[soff..soff + k], ws[soff + k]);
      assert ws[soff..soff + k] + [ws[soff + k]] == ws[soff..soff + k + 1];
      WriteRangeInv(g, d, doff, ws[soff..soff + k + 1]);
      c.table := c.table[d := c.table[d].(words := c.table[d].words[doff + k := c.table[s].words[soff + k]])];
      k := k + 1;
    }
    Wrote(g, dst, doff, ws[soff..soff + n]);
  }

  // Copy words from outside the heap into an object.
  method StoreWords(c: Collector, dst: Word, off: nat, ws: seq<Word>)
    requires c.Valid() && Holds(c.View(), dst, |WordsAt(c.View(), dst)|) && off + |ws| <= |WordsAt(c.View(), dst)|
    modifies c`table
    ensures c.Valid() && OnlyChanged(old(c.View()), c.View(), {IdxOf(dst)}) && Holds(c.View(), dst, |old(WordsAt(c.View(), dst))|)
    ensures WordsAt(c.View(), dst) == Spliced(old(WordsAt(c.View(), dst)), off, ws)
  {
    hide Inv, HandleAt, DerefOf, Spliced, OnlyChanged;
    ghost var g := c.View();
    var d := IdxOf(dst);
    var k := 0;
    WriteNothing(g, d, off);
    assert ws[..0] == [];
    while k < |ws|
      invariant 0 <= k <= |ws| && c.Valid() && d < |g.table| && off + |ws| <= |g.table[d].words|
      invariant c.View() == WriteRange(g, d, off, ws[..k])
    {
      WriteNext(g, d, off, ws[..k], ws[k]);
      assert ws[..k] + [ws[k]] == ws[..k + 1];
      WriteRangeInv(g, d, off, ws[..k + 1]);
      c.table := c.table[d := c.table[d].(words := c.table[d].words[off + k := ws[k]])];
      k := k + 1;
    }
    assert ws[..k] == ws;
    Wrote(g, dst, off, ws);
  }

  lemma WriteNothing(g: Gc, i: nat, off: nat)
    requires i < |g.table| && off <= |g.table[i].words|
    ensures WriteRange(g, i, off, []) == g
  {
    var ws := g.table[i].words;
    assert ws[..off] + [] + ws[off..] == ws;
  }

  lemma WriteNext(g: Gc, i: nat, off: nat, ws: seq<Word>, w: Word)
    requires i < |g.table| && off + |ws| < |g.table[i].words|
    ensures var a := WriteRange(g, i, off, ws).table;
            && i < |a| && off + |ws| < |a[i].words| && |a| == |g.table|
            && a[i := a[i].(words := a[i].words[off + |ws| := w])] == WriteRange(g, i, off, ws + [w]).table
            && forall j: nat :: j < |a| && j != i ==> a[j] == g.table[j]
  {
    var s := g.table[i].words;
    var a := WriteRange(g, i, off, ws).table;
    assert a[i].words[off + |ws| := w] == s[..off] + (ws + [w]) + s[off + |ws + [w]|..];
  }
}
