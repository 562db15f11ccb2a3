// Vectors and maps of bootstrap/runtime/cardinal_rt.c as words on the collected
// heap: growing them allocates, and any allocation may collect. Nothing a
// container still uses is lost, given only that the container is reachable.
module Containers {
  import opened Handles
  import opened Modular
  import opened GcModel
  import opened GcProps
  import opened Collectors
  import opened GcMutate

  method Load(c: Collector, h: Word, k: nat) returns (w: Word)
    requires Holds(c.View(), h, |WordsAt(c.View(), h)|) && k < |WordsAt(c.View(), h)|
    ensures w == WordsAt(c.View(), h)[k]
  {
    w := c.table[IdxOf(h)].words[k];
  }

  method Store(c: Collector, h: Word, k: nat, w: Word)
    requires c.Valid() && Holds(c.View(), h, |WordsAt(c.View(), h)|) && k < |WordsAt(c.View(), h)|
    modifies c`table
    ensures c.Valid() && OnlyChanged(old(c.View()), c.View(), {IdxOf(h)}) && Holds(c.View(), h, |old(WordsAt(c.View(), h))|)
    ensures WordsAt(c.View(), h) == old(WordsAt(c.View(), h))[k := w]
  {
    hide Inv, HandleAt, DerefOf, OnlyChanged;
    ghost var g := c.View();
    WriteOne(g, IdxOf(h), k, w);
    WriteRangeInv(g, IdxOf(h), k, [w]);
    Wrote(g, h, k, [w]);
    c.table := c.table[IdxOf(h) := c.table[IdxOf(h)].(words := c.table[IdxOf(h)].words[k := w])];
  }

  lemma WriteOne(g: Gc, i: nat, k: nat, w: Word)
    requires i < |g.table| && k < |g.table[i].words|
    ensures WriteRange(g, i, k, [w]).table == g.table[i := g.table[i].(words := g.table[i].words[k := w])]
    ensures Spliced(g.table[i].words, k, [w]) == g.table[i].words[k := w]
  {
    var s := g.table[i].words;
    assert s[k := w] == s[..k] + [w] + s[k + 1..];
  }

  // ----- room in the handle table -----

  // The index suffices for k more objects.
  predicate Room(g: Gc, k: nat) { 2 * (g.live + k) <= INDEXES }

  lemma RoomFirst(g: Gc, k: nat)
    requires Room(g, k) && k > 0
    ensures Roomy(g)
  {
  }

  lemma RoomOne(g: Gc)
    requires Roomy(g)
    ensures Room(g, 1)
  {
  }

  lemma RoomLess(g: Gc, k: nat)
    requires Room(g, k + 1)
    ensures Room(g, k)
  {
  }

  lemma SameRootsHere(g: Gc, g2: Gc, s: set<nat>)
    requires OnlyChanged(g, g2, s)
    ensures g2.roots == g.roots && g2.pins == g.pins
  {
  }

  lemma SameCount(g: Gc, g2: Gc, s: set<nat>)
    requires OnlyChanged(g, g2, s)
    ensures g2.live == g.live
  {
  }

  // An allocation uses up one.
  lemma AllocRoom(g: Gc, size: nat, k: nat)
    requires Inv(g) && Roomy(g) && Room(g, k + 1)
    ensures Inv(MaybeCollect(g)) && Room(Alloc(g, size).0, k)
  {
    hide Collect, Inv;
    MaybeCollectInv(g);
  }

  // ----- vectors -----

  // cl_vec_hdr: len, cap, elemsz, buf.
  const LEN := 0
  const CAP := 1
  const ELEM := 2
  const BUF := 3

  function Fld(g: Gc, h: Word, k: nat): Word { if k < |WordsAt(g, h)| then WordsAt(g, h)[k] else 0 }

  // A vector of elements of w words.
  ghost predicate VecOk(g: Gc, h: Word, w: nat) {
    var buf, cap := Fld(g, h, BUF), Fld(g, h, CAP);
    && Holds(g, h, 4) && w >= 1 && Fld(g, h, ELEM) == 8 * w && Fld(g, h, LEN) <= cap
    && (if cap == 0 then buf == 0 else Holds(g, buf, cap * w) && IdxOf(buf) != IdxOf(h))
  }

  lemma InsideBuf(len: nat, cap: nat, w: nat)
    requires len <= cap
    ensures 0 <= len * w <= cap * w
    ensures len < cap ==> (len + 1) * w == len * w + w <= cap * w
  {
    MulMono(len, cap, w);
    if len < cap {
      MulMono(len, len + 1, w);
      MulMono(len + 1, cap, w);
    }
  }

  // The elements, one after the other.
  ghost function Items(g: Gc, h: Word, w: nat): seq<Word>
    requires VecOk(g, h, w)
  {
    InsideBuf(Fld(g, h, LEN), Fld(g, h, CAP), w);
    if Fld(g, h, CAP) == 0 then [] else WordsAt(g, Fld(g, h, BUF))[..Fld(g, h, LEN) * w]
  }

  // The objects a vector is made of.
  ghost function Parts(g: Gc, h: Word): set<nat> { {IdxOf(h), IdxOf(Fld(g, h, BUF))} }

  // The buffer is the old one, or one no reachable object could have been.
  ghost predicate BufKept(g: Gc, g2: Gc, h: Word) {
    Fld(g2, h, BUF) == Fld(g, h, BUF) || !Reachable(g, IdxOf(Fld(g2, h, BUF)))
  }

  // Some way leads from the roots to the header that does not pass through the
  // header's own buffer.
  ghost predicate Anchored(g: Gc, h: Word) { exists p :: Leads(g, h, p) }

  ghost predicate Leads(g: Gc, h: Word, p: seq<nat>) {
    && IsPath(g.table, AllRoots(g), p) && p[|p| - 1] == IdxOf(h)
    && forall k :: 0 <= k < |p| - 1 ==> p[k] != IdxOf(h) && p[k] != IdxOf(Fld(g, h, BUF))
  }

  lemma AnchoredReach(g: Gc, h: Word)
    requires Anchored(g, h)
    ensures Reachable(g, IdxOf(h))
  {
    var p :| Leads(g, h, p);
  }

  // Only the header refers to the object.
  ghost predicate OwnedBy(g: Gc, h: Word, part: nat) {
    (forall r :: r in AllRoots(g) ==> !Points(g.table, r, part)) && (forall i :: Edge(g.table, i, part) ==> i == IdxOf(h))
  }

  // The part of a path up to its first visit to the header meets no such object.
  lemma OwnedApart(g: Gc, h: Word, p: seq<nat>, n: nat, part: nat)
    requires IsPath(g.table, AllRoots(g), p) && n < |p| && p[n] == IdxOf(h) && forall k :: 0 <= k < n ==> p[k] != IdxOf(h)
    requires OwnedBy(g, h, part)
    ensures IsPath(g.table, AllRoots(g), p[..n + 1]) && forall k :: 0 <= k < n ==> p[k] != part
  {
    forall k | 0 <= k < n ensures p[k] != part {
      if k > 0 {
        assert Edge(g.table, p[k - 1], p[k]);
      } else {
        var r :| 0 <= r < |AllRoots(g)| && Points(g.table, AllRoots(g)[r], p[0]);
        assert AllRoots(g)[r] in AllRoots(g);
      }
    }
  }

  // As long as programs cannot get at a vector's buffer but through the vector,
  // a reachable vector is anchored.
  lemma OwnedAnchored(g: Gc, h: Word)
    requires Reachable(g, IdxOf(h)) && OwnedBy(g, h, IdxOf(Fld(g, h, BUF)))
    ensures Anchored(g, h)
  {
    var p :| IsPath(g.table, AllRoots(g), p) && p[|p| - 1] == IdxOf(h);
    var n := FirstVisit(p, IdxOf(h));
    OwnedApart(g, h, p, n, IdxOf(Fld(g, h, BUF)));
    assert Leads(g, h, p[..n + 1]);
  }

  // The way stays open when only the header and its buffers changed.
  lemma AnchoredKept(g: Gc, g2: Gc, h: Word)
    requires Anchored(g, h) && Untouched(g, g2, Parts(g, h)) && BufKept(g, g2, h) && AllRoots(g2) == AllRoots(g)
    requires IdxOf(h) < |g.table| && IdxOf(h) < |g2.table| && g2.table[IdxOf(h)].used && g2.table[IdxOf(h)].gen == g.table[IdxOf(h)].gen
    ensures Anchored(g2, h)
  {
    hide Reach;
    var a, b, all, i := g.table, g2.table, AllRoots(g), IdxOf(h);
    var p :| Leads(g, h, p);
    var n := |p| - 1;
    forall k | 0 <= k < n ensures Same(a, b, p[k]) && p[k] != IdxOf(Fld(g2, h, BUF)) { PathReached(a, all, p, k); }
    forall k | 0 <= k < n - 1 ensures Edge(b, p[k], p[k + 1]) {
      assert Edge(a, p[k], p[k + 1]);
      PathReached(a, all, p, k + 1);
      PointsHere(a, b, a[p[k]].words, p[k + 1]);
    }
    if n == 0 {
      var r :| 0 <= r < |all| && Points(a, all[r], i);
      PointsHere(a, b, all[r], i);
    } else {
      assert Edge(a, p[n - 1], p[n]);
      PointsHere(a, b, a[p[n - 1]].words, i);
      var r :| 0 <= r < |all| && Points(a, all[r], p[0]);
      PointsHere(a, b, all[r], p[0]);
    }
    assert Leads(g2, h, p);
  }

  // After an allocation of n words: the vector as before, and a fresh object.
  lemma AfterAlloc(g: Gc, h: Word, w: nat, size: nat)
    requires Inv(g) && Roomy(g) && VecOk(g, h, w) && Reachable(g, IdxOf(h))
    ensures Inv(MaybeCollect(g)) && Inv(Alloc(g, size).0)
    ensures var (g2, n) := Alloc(g, size);
            && VecOk(g2, h, w) && Items(g2, h, w) == Items(g, h, w) && WordsAt(g2, h) == WordsAt(g, h)
            && Untouched(g, g2, {}) && !Reachable(g, n) && AllRoots(g2) == AllRoots(g) && Reachable(g2, IdxOf(h))
            && g2.roots == g.roots && g2.pins == g.pins && n != IdxOf(h) && (Fld(g, h, CAP) > 0 ==> n != IdxOf(Fld(g, h, BUF)) && WordsAt(g2, Fld(g, h, BUF)) == WordsAt(g, Fld(g, h, BUF)))
            && n < |g2.table| && g2.table[n].used && |g2.table[n].words| == size / 8
  {
    hide Inv, Collect, Reach, Alloc, MaybeCollect;
    AllocFrame(g, size);
    var (g2, n) := Alloc(g, size);
    HoldsSame(g, g2, h, 4);
    var buf := Fld(g, h, BUF);
    if Fld(g, h, CAP) > 0 {
      ReachWord(g, IdxOf(h), BUF, Fld(g, h, CAP) * w);
      HoldsSame(g, g2, buf, Fld(g, h, CAP) * w);
    }
  }

  // The capacity for one more element: a full vector doubles.
  function NextCap(len: nat, cap: nat): nat { if len < cap then cap else if cap != 0 then cap * 2 else 4 }

  // vec_grow_if_needed.
  method GrowIfNeeded(c: Collector, h: Word, ghost w: nat)
    requires c.Valid() && Roomy(c.View()) && VecOk(c.View(), h, w) && Reachable(c.View(), IdxOf(h))
    requires (2 * Fld(c.View(), h, CAP) + 4) * (8 * w) < U64
    modifies c
    ensures c.Valid() && VecOk(c.View(), h, w) && Items(c.View(), h, w) == old(Items(c.View(), h, w))
    ensures Fld(c.View(), h, LEN) == old(Fld(c.View(), h, LEN)) < Fld(c.View(), h, CAP)
    ensures Fld(c.View(), h, CAP) == old(NextCap(Fld(c.View(), h, LEN), Fld(c.View(), h, CAP)))
    ensures Room(old(c.View()), 1) && forall k: nat :: Room(old(c.View()), k + 1) ==> Room(c.View(), k)
    ensures Kept(old(c.View()), c.View(), h) && c.roots == old(c.roots) && c.pins == old(c.pins)
  {
    hide Inv, Collect, Reach, Alloc, MaybeCollect, HandleAt, DerefOf, WriteRange, OnlyChanged, Untouched, Holds, Roomy,
         Spliced;
    ghost var g := c.View();
    HeaderHolds(g, h, w);
    var len := Load(c, h, LEN);
    var cap := Load(c, h, CAP);
    RoomOne(g);
    forall k: nat | Room(g, k + 1) ensures Room(g, k) { RoomLess(g, k); }
    if len < cap {
      NothingTouched(g, h);
      return;
    }
    var elem := Load(c, h, ELEM);
    var ncap := if cap != 0 then cap * 2 else 4;
    SizeFits(cap, ncap, w);
    AfterAlloc(g, h, w, ncap * elem);
    var nbuf := c.Allocate(ncap * elem);
    ghost var g1 := c.View();
    NewBuffer(g1, nbuf, Alloc(g, ncap * elem).1, ncap, w);
    HeaderHolds(g1, h, w);
    var buf := Load(c, h, BUF);
    InsideBuf(len, ncap, w);
    if buf != 0 && len != 0 { CopyWords(c, buf, 0, nbuf, 0, len * (elem / 8)); }
    ghost var g2 := c.View();
    Copied(g1, g2, h, w, nbuf, len, ncap);
    Store(c, h, BUF, nbuf);
    ghost var g3 := c.View();
    Elsewhere(g2, g3, {IdxOf(h)}, nbuf, ncap * w);
    Store(c, h, CAP, ncap);
    ghost var g4 := c.View();
    forall k: nat | Room(g, k + 1) ensures Room(g4, k) {
      AllocRoom(g, ncap * elem, k);
      SameCount(g1, g2, {IdxOf(nbuf)});
      SameCount(g2, g3, {IdxOf(h)});
      SameCount(g3, g4, {IdxOf(h)});
    }
    Elsewhere(g3, g4, {IdxOf(h)}, nbuf, ncap * w);
    GrownVec(g, g4, h, w, nbuf, len, ncap);
    ChangedTrans(g1, g2, g3, {IdxOf(nbuf)}, {IdxOf(h)});
    ChangedTrans(g1, g3, g4, {IdxOf(nbuf)} + {IdxOf(h)}, {IdxOf(h)});
    GrownKept(g, g1, g4, h, nbuf);
    SameRootsHere(g1, g4, {IdxOf(nbuf)} + {IdxOf(h)} + {IdxOf(h)});
  }

  // What growing leaves: the roots, every other object, and the way to the vector.
  ghost predicate Kept(g: Gc, g2: Gc, h: Word) {
    && Untouched(g, g2, {IdxOf(h)}) && Reachable(g2, IdxOf(h)) && BufKept(g, g2, h) && AllRoots(g2) == AllRoots(g)
    && IdxOf(h) < |g.table| && IdxOf(h) < |g2.table| && g2.table[IdxOf(h)].gen == g.table[IdxOf(h)].gen && g2.table[IdxOf(h)].used
  }

  lemma HeaderHolds(g: Gc, h: Word, w: nat)
    requires VecOk(g, h, w)
    ensures Holds(g, h, 4) && |WordsAt(g, h)| == 4
    ensures Fld(g, h, CAP) > 0 ==> var buf := Fld(g, h, BUF); Holds(g, buf, |WordsAt(g, buf)|) && |WordsAt(g, buf)| == Fld(g, h, CAP) * w
    ensures Fld(g, h, LEN) * w <= Fld(g, h, CAP) * w
  {
    InsideBuf(Fld(g, h, LEN), Fld(g, h, CAP), w);
  }

  lemma NothingTouched(g: Gc, h: Word)
    requires Reachable(g, IdxOf(h))
    ensures Kept(g, g, h)
  {
    forall j: nat | Reachable(g, j) ensures Same(g.table, g.table, j) { ReachUsed(g.table, AllRoots(g), j); }
    ReachUsed(g.table, AllRoots(g), IdxOf(h));
  }

  lemma SizeFits(cap: nat, ncap: nat, w: nat)
    requires ncap == (if cap != 0 then cap * 2 else 4) && (2 * cap + 4) * (8 * w) < U64 && w >= 1
    ensures ncap * (8 * w) / 8 == ncap * w && ncap > cap && ncap < U64
  {
    assert ncap * (8 * w) == 8 * (ncap * w);
    MulMono(1, w, (2 * cap + 4) * 8);
    assert (2 * cap + 4) * (8 * w) == w * ((2 * cap + 4) * 8);
  }

  lemma NewBuffer(g: Gc, nbuf: Word, n: nat, ncap: nat, w: nat)
    requires HandleAt(g.table, nbuf) == Just(n) && n < |g.table| && |g.table[n].words| == ncap * w
    ensures IdxOf(nbuf) == n && Holds(g, nbuf, ncap * w) && nbuf != 0 && |WordsAt(g, nbuf)| == ncap * w
  {
    TagNotNull(nbuf);
  }

  lemma TagNotNull(w: Word)
    requires TagOf(w) == TAG
    ensures w != 0
  {
  }

  // The new buffer starts with the elements; the header is as it was.
  lemma Copied(g1: Gc, g2: Gc, h: Word, w: nat, nbuf: Word, len: nat, ncap: nat)
    requires VecOk(g1, h, w) && Fld(g1, h, LEN) == len && len * w <= ncap * w
    requires Holds(g1, nbuf, ncap * w) && IdxOf(nbuf) != IdxOf(h)
    requires if Fld(g1, h, BUF) != 0 && len != 0
             then OnlyChanged(g1, g2, {IdxOf(nbuf)}) && Holds(g2, nbuf, ncap * w) && len * w <= |WordsAt(g1, Fld(g1, h, BUF))|
                  && WordsAt(g2, nbuf) == Spliced(WordsAt(g1, nbuf), 0, WordsAt(g1, Fld(g1, h, BUF))[0..0 + len * w])
             else g2 == g1
    ensures OnlyChanged(g1, g2, {IdxOf(nbuf)}) && Holds(g2, h, 4) && WordsAt(g2, h) == WordsAt(g1, h)
    ensures Holds(g2, nbuf, ncap * w) && WordsAt(g2, nbuf)[..len * w] == Items(g1, h, w)
  {
    hide HandleAt, DerefOf;
    InsideBuf(len, Fld(g1, h, CAP), w);
    if Fld(g1, h, BUF) != 0 && len != 0 {
      Elsewhere(g1, g2, {IdxOf(nbuf)}, h, 4);
      SplicedFront(WordsAt(g1, nbuf), WordsAt(g1, Fld(g1, h, BUF))[0..0 + len * w]);
    } else {
      assert len * w == 0;
    }
  }

  lemma SplicedFront(s: seq<Word>, ws: seq<Word>)
    requires |ws| <= |s|
    ensures Spliced(s, 0, ws)[..|ws|] == ws
  {
  }

  lemma GrownVec(g: Gc, g4: Gc, h: Word, w: nat, nbuf: Word, len: nat, ncap: nat)
    requires VecOk(g, h, w) && Fld(g, h, LEN) == len <= ncap < U64 && ncap > 0 && len * w <= ncap * w
    requires Holds(g4, h, 4) && WordsAt(g4, h) == WordsAt(g, h)[BUF := nbuf][CAP := ncap]
    requires Holds(g4, nbuf, ncap * w) && IdxOf(nbuf) != IdxOf(h) && |WordsAt(g4, nbuf)| == ncap * w
    requires WordsAt(g4, nbuf)[..len * w] == Items(g, h, w)
    ensures VecOk(g4, h, w) && Items(g4, h, w) == Items(g, h, w) && Fld(g4, h, LEN) == len && Fld(g4, h, CAP) == ncap && Fld(g4, h, BUF) == nbuf
  {
    hide HandleAt, DerefOf;
  }

  lemma GrownKept(g: Gc, g1: Gc, g4: Gc, h: Word, nbuf: Word)
    requires Untouched(g, g1, {}) && OnlyChanged(g1, g4, {IdxOf(nbuf)} + {IdxOf(h)} + {IdxOf(h)})
    requires Reachable(g, IdxOf(h)) && !Reachable(g, IdxOf(nbuf)) && AllRoots(g1) == AllRoots(g) && Fld(g4, h, BUF) == nbuf
    ensures Kept(g, g4, h)
  {
    hide Reach;
    var s := {IdxOf(nbuf)} + {IdxOf(h)} + {IdxOf(h)};
    UntouchedThen(g, g1, g4, {}, s);
    UntouchedLess(g, g4, {} + s, {IdxOf(h)});
    ReachUsed(g.table, AllRoots(g), IdxOf(h));
    assert Same(g.table, g1.table, IdxOf(h));
    KeptReach(g, g4, IdxOf(h));
  }

  // If everything reachable but i itself is untouched, i stays reachable.
  lemma KeptReach(g: Gc, g2: Gc, i: nat)
    requires Reachable(g, i) && Untouched(g, g2, {i}) && AllRoots(g2) == AllRoots(g)
    requires i < |g.table| && i < |g2.table| && g2.table[i].used && g2.table[i].gen == g.table[i].gen
    ensures Reachable(g2, i)
  {
    var a, b, all := g.table, g2.table, AllRoots(g);
    var p :| IsPath(a, all, p) && p[|p| - 1] == i;
    var n := FirstVisit(p, i);
    if n == 0 {
      var r :| 0 <= r < |all| && Points(a, all[r], i);
      PointsHere(a, b, all[r], i);
      ReachRoot(b, all, i);
    } else {
      PrefixKept(g, g2, p, n, i);
      assert Edge(a, p[n - 1], p[n]);
      PointsHere(a, b, a[p[n - 1]].words, i);
      ReachEdge(b, all, p[n - 1], i);
    }
  }

  // A path that has not come to i yet is a path afterwards.
  lemma PrefixKept(g: Gc, g2: Gc, p: seq<nat>, n: nat, i: nat)
    requires Untouched(g, g2, {i}) && AllRoots(g2) == AllRoots(g) && IsPath(g.table, AllRoots(g), p)
    requires 0 < n < |p| && forall k :: 0 <= k < n ==> p[k] != i
    ensures IsPath(g2.table, AllRoots(g2), p[..n]) && Same(g.table, g2.table, p[n - 1])
  {
    var a, b, all := g.table, g2.table, AllRoots(g);
    var q := p[..n];
    assert IsPath(a, all, q);
    forall k | 0 <= k < |q| ensures Same(a, b, q[k]) { PathReached(a, all, p, k); }
    PathFrame(a, b, all, all, q);
    assert q[n - 1] == p[n - 1];
  }

  lemma PointsHere(a: seq<Slot>, b: seq<Slot>, words: seq<Word>, j: nat)
    requires Points(a, words, j) && j < |a| && j < |b| && b[j].used && b[j].gen == a[j].gen
    ensures Points(b, words, j)
  {
    var k :| 0 <= k < |words| && HandleAt(a, words[k]) == Just(j);
    assert HandleAt(b, words[k]) == Just(j);
  }

  // cl_vec_push: one more element, whatever the growth collected.
  method Push(c: Collector, h: Word, elem: seq<Word>)
    requires c.Valid() && Roomy(c.View()) && VecOk(c.View(), h, |elem|) && Anchored(c.View(), h)
    requires (2 * Fld(c.View(), h, CAP) + 4) * (8 * |elem|) < U64
    modifies c
    ensures c.Valid() && VecOk(c.View(), h, |elem|) && Items(c.View(), h, |elem|) == old(Items(c.View(), h, |elem|)) + elem
    ensures Fld(c.View(), h, LEN) == old(Fld(c.View(), h, LEN)) + 1
    ensures Fld(c.View(), h, CAP) == old(NextCap(Fld(c.View(), h, LEN), Fld(c.View(), h, CAP)))
    ensures forall k: nat :: Room(old(c.View()), k + 1) ==> Room(c.View(), k)
    ensures Untouched(old(c.View()), c.View(), old(Parts(c.View(), h))) && Anchored(c.View(), h)
    ensures BufKept(old(c.View()), c.View(), h) && c.roots == old(c.roots) && c.pins == old(c.pins)
  {
    hide Inv, Reach, HandleAt, DerefOf, WriteRange, OnlyChanged, Untouched, Holds, Roomy, Spliced, Kept, Reachable,
         AllRoots, BufKept, Anchored, Room, Items;
    ghost var g := c.View();
    AnchoredReach(g, h);
    GrowIfNeeded(c, h, |elem|);
    ghost var g1 := c.View();
    HeaderHolds(g1, h, |elem|);
    var len := Load(c, h, LEN);
    var buf := Load(c, h, BUF);
    InsideBuf(len, Fld(g1, h, CAP), |elem|);
    StoreWords(c, buf, len * |elem|, elem);
    ghost var g2 := c.View();
    Elsewhere(g1, g2, {IdxOf(buf)}, h, 4);
    Store(c, h, LEN, len + 1);
    Elsewhere(g2, c.View(), {IdxOf(h)}, buf, Fld(g1, h, CAP) * |elem|);
    PushedVec(g1, c.View(), h, elem, len, buf);
    ChangedTrans(g1, g2, c.View(), {IdxOf(buf)}, {IdxOf(h)});
    PushedKept(g, g1, c.View(), h, buf);
    RoomKept(g, g1, c.View(), {IdxOf(buf)} + {IdxOf(h)});
    SameRootsHere(g1, c.View(), {IdxOf(buf)} + {IdxOf(h)});
  }

  lemma RoomKept(g: Gc, g1: Gc, g3: Gc, s: set<nat>)
    requires OnlyChanged(g1, g3, s) && forall k: nat :: Room(g, k + 1) ==> Room(g1, k)
    ensures forall k: nat :: Room(g, k + 1) ==> Room(g3, k)
  {
    forall k: nat | Room(g, k + 1) ensures Room(g3, k) { assert Room(g1, k); }
  }

  lemma PushedVec(g1: Gc, g3: Gc, h: Word, elem: seq<Word>, len: nat, buf: Word)
    requires VecOk(g1, h, |elem|) && Fld(g1, h, LEN) == len < Fld(g1, h, CAP) && Fld(g1, h, BUF) == buf
    requires len * |elem| + |elem| <= Fld(g1, h, CAP) * |elem| == |WordsAt(g1, buf)| && len + 1 < U64 && (len + 1) * |elem| == len * |elem| + |elem|
    requires Holds(g3, h, 4) && WordsAt(g3, h) == WordsAt(g1, h)[LEN := len + 1]
    requires Holds(g3, buf, Fld(g1, h, CAP) * |elem|) && WordsAt(g3, buf) == Spliced(WordsAt(g1, buf), len * |elem|, elem)
    ensures VecOk(g3, h, |elem|) && Items(g3, h, |elem|) == Items(g1, h, |elem|) + elem && Fld(g3, h, LEN) == len + 1 && Fld(g3, h, BUF) == buf
    ensures Fld(g3, h, CAP) == Fld(g1, h, CAP)
  {
    hide HandleAt, DerefOf;
    SplicedMiddle(WordsAt(g1, buf), len * |elem|, elem);
  }

  lemma SplicedMiddle(s: seq<Word>, off: nat, ws: seq<Word>)
    requires off + |ws| <= |s|
    ensures Spliced(s, off, ws)[..off + |ws|] == s[..off] + ws
  {
  }

  lemma PushedKept(g: Gc, g1: Gc, g3: Gc, h: Word, buf: Word)
    requires Kept(g, g1, h) && OnlyChanged(g1, g3, {IdxOf(buf)} + {IdxOf(h)}) && Fld(g1, h, BUF) == buf && Fld(g3, h, BUF) == buf
    requires Anchored(g, h)
    ensures Untouched(g, g3, Parts(g, h)) && Anchored(g3, h) && BufKept(g, g3, h) && AllRoots(g3) == AllRoots(g)
  {
    hide Reach;
    var s := {IdxOf(buf)} + {IdxOf(h)};
    UntouchedThen(g, g1, g3, {IdxOf(h)}, s);
    UntouchedLess(g, g3, {IdxOf(h)} + s, Parts(g, h));
    AnchoredKept(g, g3, h);
  }
}
