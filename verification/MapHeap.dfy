// The map operations of bootstrap/runtime/cardinal_rt.c on the collected heap, down
// to the probing of the index. Inserting may rehash or grow the entries, and so
// collect; the map still stands for the dictionary it should.
module MapHeap {
  import opened Handles
  import opened Modular
  import opened GcModel
  import opened GcProps
  import opened Collectors
  import opened GcMutate
  import opened Containers
  import opened MapMemory
  import opened MapDecode
  import D = OrderedDict
  import H = HashMaps

  // Some way leads from the roots to the header past the map's own buffers.
  ghost predicate Led(g: Gc, h: Word) { exists p :: Guides(g, h, p) }

  ghost predicate Guides(g: Gc, h: Word, p: seq<nat>) {
    && IsPath(g.table, AllRoots(g), p) && p[|p| - 1] == IdxOf(h)
    && forall k :: 0 <= k < |p| - 1 ==> p[k] !in MapParts(g, h)
  }

  // Larger buffers are within 64-bit sizes.
  predicate Fits(g: Gc, h: Word, s: nat) { (2 * Fld(g, h, ECAP) + 4) * (8 * s) < U64 && 16 * Fld(g, h, ICAP) + 64 < U64 }

  lemma LedReach(g: Gc, h: Word)
    requires Led(g, h)
    ensures Reachable(g, IdxOf(h))
  {
    var p :| Guides(g, h, p);
  }

  // As long as programs cannot get at a map's buffers but through the map, it is
  // enough that the map is reachable.
  lemma OwnedLed(g: Gc, h: Word)
    requires Reachable(g, IdxOf(h)) && OwnedBy(g, h, IdxOf(Fld(g, h, ENTRIES))) && OwnedBy(g, h, IdxOf(Fld(g, h, INDEX)))
    ensures Led(g, h)
  {
    var p :| IsPath(g.table, AllRoots(g), p) && p[|p| - 1] == IdxOf(h);
    var n := FirstVisit(p, IdxOf(h));
    OwnedApart(g, h, p, n, IdxOf(Fld(g, h, ENTRIES)));
    OwnedApart(g, h, p, n, IdxOf(Fld(g, h, INDEX)));
    assert Guides(g, h, p[..n + 1]);
  }

  // More roots, more paths.
  lemma MoreRoots(t: seq<Slot>, all: seq<seq<Word>>, extra: seq<Word>, p: seq<nat>)
    requires IsPath(t, all, p)
    ensures IsPath(t, all + [extra], p)
  {
    var r :| 0 <= r < |all| && Points(t, all[r], p[0]);
    assert (all + [extra])[r] == all[r];
  }

  // The way to the header survives what spares the rest.
  lemma LedKept(g: Gc, g2: Gc, h: Word, s: nat)
    requires Led(g, h) && Spared(g, g2, h, s)
    ensures Led(g2, h)
  {
    hide Reach, IsPath, Spared, MapParts;
    var p :| Guides(g, h, p);
    forall k | 0 <= k < |p| - 1 ensures Same(g.table, g2.table, p[k]) && p[k] !in MapParts(g2, h) { StepSpared(g, g2, h, s, p, k); }
    WayThere(g, g2, h, s, p);
    assert Guides(g2, h, p);
  }

  lemma StepSpared(g: Gc, g2: Gc, h: Word, s: nat, p: seq<nat>, k: nat)
    requires Guides(g, h, p) && Spared(g, g2, h, s) && k < |p| - 1
    ensures Same(g.table, g2.table, p[k]) && p[k] !in MapParts(g2, h)
  {
    hide Reach, MapParts;
    MoreRoots(g.table, AllRoots(g), Entries(g, h, s), p);
    assert Way(g, Entries(g, h, s), MapParts(g, h), p[..k + 1]);
  }

  lemma WayThere(g: Gc, g2: Gc, h: Word, s: nat, p: seq<nat>)
    requires IsPath(g.table, AllRoots(g), p) && p[|p| - 1] == IdxOf(h) && Spared(g, g2, h, s)
    requires forall k :: 0 <= k < |p| - 1 ==> Same(g.table, g2.table, p[k])
    ensures IsPath(g2.table, AllRoots(g2), p)
  {
    hide Reach, MapParts, Beside;
    var a, b, all := g.table, g2.table, AllRoots(g);
    forall k | 0 <= k < |p| - 1 ensures Edge(b, p[k], p[k + 1]) {
      assert Edge(a, p[k], p[k + 1]);
      PointsHere(a, b, a[p[k]].words, p[k + 1]);
    }
    var r :| 0 <= r < |all| && Points(a, all[r], p[0]);
    PointsHere(a, b, all[r], p[0]);
  }

  lemma BesideLess(g: Gc, extra: seq<Word>, own: set<nat>, less: set<nat>, j: nat)
    requires Beside(g, extra, own, j) && less <= own
    ensures Beside(g, extra, less, j) && j !in own
  {
    var p :| Way(g, extra, own, p) && p[|p| - 1] == j;
    assert Way(g, extra, less, p);
  }

  // ----- looking up -----

  // map_find, and the slot where the search ended.
  method MapFind(c: Collector, h: Word, key: seq<Word>, sh: Shape) returns (r: Maybe<nat>, p: nat)
    requires MapValid(c.View(), h, sh) && |key| == sh.kw
    ensures var es, ix := Recs(c.View(), h, sh), Slots(c.View(), h);
            var k := KeyOf(c.table, sh, key);
            && (r.Just? ==> r.value < |es| && es[r.value].alive && es[r.value].key == k && p < |ix| && ix[p] == r.value + 1)
            && (r.Nothing? ==> forall i :: 0 <= i < |es| && es[i].alive ==> es[i].key != k)
  {
    hide H.Home, H.NextSlot, AsI64, EntryOf, MapValid, Slots, HandleAt, DerefOf, Holds, MapOk, RecsOk, H.IndexOk,
         H.Probe, H.AliveCount, KeyOf, Decoded, EntryOf, Recs, H.DistinctAlive, Ints;
    ghost var g := c.View();
    FindFacts(g, h, sh);
    ghost var es, ix := Recs(g, h, sh), Slots(g, h);
    var icap := Load(c, h, ICAP);
    var len := Load(c, h, MLEN);
    if icap == 0 || len == 0 {
      H.AllDead(es);
      return Nothing, 0;
    }
    var e := Load(c, h, ENTRIES);
    var x := Load(c, h, INDEX);
    var k := KeyOf(c.table, sh, key);
    p := H.Home(sh.hash(k), icap);
    H.ProbeZero(sh.hash(k), icap);
    H.IndexRange(sh.hash, es, ix, |es|);
    var probe := 0;
    while probe < icap
      invariant 0 <= probe <= icap && p == H.Probe(sh.hash(k), probe, icap)
      invariant forall d :: 0 <= d < probe ==> H.Passed(es, ix, H.Probe(sh.hash(k), d, icap), k)
    {
      SlotAt(g, h, p);
      var slot := AsI64(c.table[IdxOf(x)].words[p]);
      if slot == 0 {
        H.NotFound(sh.hash, es, ix, k, probe);
        return Nothing, p;
      }
      if slot > 0 {
        RecAt(g, h, sh, slot - 1);
        var at := (slot - 1) * sh.Size();
        var rec := c.table[IdxOf(e)].words[at..at + sh.Size()];
        if rec[0] == 1 && KeyOf(c.table, sh, rec[1..1 + sh.kw]) == k { return Just(slot - 1), p; }
      }
      H.NextProbe(sh.hash(k), probe, icap);
      p := H.NextSlot(p, icap);
      probe := probe + 1;
    }
    H.NotFound(sh.hash, es, ix, k, probe);
    return Nothing, p;
  }

  lemma FindFacts(g: Gc, h: Word, sh: Shape)
    requires MapValid(g, h, sh)
    ensures Holds(g, h, 8) && |WordsAt(g, h)| == 8 && sh.Ok() && MapOk(g, h, sh.Size())
    ensures |Slots(g, h)| == Fld(g, h, ICAP) && |Recs(g, h, sh)| == Fld(g, h, NENT)
    ensures H.AliveCount(Recs(g, h, sh)) == Fld(g, h, MLEN)
    ensures H.IndexOk(sh.hash, Recs(g, h, sh), Slots(g, h), |Recs(g, h, sh)|)
    ensures Fld(g, h, ICAP) == 0 ==> Recs(g, h, sh) == []
  {
    hide HandleAt, DerefOf, LiveWords, LiveCount, H.IndexOk, H.AliveCount;
    MapHolds(g, h, sh.Size());
    RecsAre(g, h, sh);
    if Fld(g, h, ICAP) > 0 { HoldsSize(g, Fld(g, h, INDEX), Fld(g, h, ICAP)); }
  }

  lemma SlotAt(g: Gc, h: Word, p: nat)
    requires p < |Slots(g, h)|
    ensures IdxOf(Fld(g, h, INDEX)) < |g.table| && p < |g.table[IdxOf(Fld(g, h, INDEX))].words|
    ensures Slots(g, h)[p] == AsI64(g.table[IdxOf(Fld(g, h, INDEX))].words[p])
  {
  }

  lemma RecAt(g: Gc, h: Word, sh: Shape, i: nat)
    requires MapOk(g, h, sh.Size()) && i < |Recs(g, h, sh)|
    ensures var e, at := Fld(g, h, ENTRIES), i * sh.Size();
            && IdxOf(e) < |g.table| && 0 <= at && at + sh.Size() <= |g.table[IdxOf(e)].words| && sh.Size() >= 2
            && Recs(g, h, sh)[i] == EntryOf(g.table, sh, g.table[IdxOf(e)].words[at..at + sh.Size()])
            && var rec := g.table[IdxOf(e)].words[at..at + sh.Size()];
               && Recs(g, h, sh)[i].alive == (rec[0] == 1)
               && (rec[0] == 1 && 1 + sh.kw <= |rec| ==> Recs(g, h, sh)[i].key == KeyOf(g.table, sh, rec[1..1 + sh.kw]))
               && Recs(g, h, sh)[i].val == rec[1 + sh.kw..]
  {
    hide HandleAt, DerefOf, LiveWords, LiveCount, KeyOf;
    RecsAre(g, h, sh);
    MapHolds(g, h, sh.Size());
    DecodedAt(g.table, sh, WordsAt(g, Fld(g, h, ENTRIES)), Fld(g, h, NENT), i);
  }

  // cl_map_len.
  method MapLen(c: Collector, h: Word, sh: Shape) returns (n: nat)
    requires MapValid(c.View(), h, sh)
    ensures n == |Dict(c.View(), h, sh)|
  {
    hide MapValid, Recs, Holds;
    FindFacts(c.View(), h, sh);
    H.ContentsSize(Recs(c.View(), h, sh));
    n := Load(c, h, MLEN);
  }

  // cl_map_has.
  method MapHas(c: Collector, h: Word, key: seq<Word>, sh: Shape) returns (r: bool)
    requires MapValid(c.View(), h, sh) && |key| == sh.kw
    ensures r == D.Has(Dict(c.View(), h, sh), KeyOf(c.table, sh, key))
  {
    hide MapValid, Recs, Slots, KeyOf;
    var i, p := MapFind(c, h, key, sh);
    ghost var es := Recs(c.View(), h, sh);
    LookupFacts(c.View(), h, sh);
    if i.Just? { H.ContentsGet(es, i.value); } else { H.ContentsAbsent(es, KeyOf(c.table, sh, key)); }
    r := i.Just?;
  }

  // cl_map_get: Nothing where the source panics.
  method MapGet(c: Collector, h: Word, key: seq<Word>, sh: Shape) returns (r: Maybe<seq<Word>>)
    requires MapValid(c.View(), h, sh) && |key| == sh.kw
    ensures r == (match D.Get(Dict(c.View(), h, sh), KeyOf(c.table, sh, key)) case Some(v) => Just(v) case None => Nothing)
  {
    hide MapValid, Recs, Slots, KeyOf, EntryOf, Holds;
    var i, p := MapFind(c, h, key, sh);
    ghost var es := Recs(c.View(), h, sh);
    LookupFacts(c.View(), h, sh);
    if i.Just? {
      H.ContentsGet(es, i.value);
      RecAt(c.View(), h, sh, i.value);
      var e := Load(c, h, ENTRIES);
      var at := i.value * sh.Size();
      var rec := c.table[IdxOf(e)].words[at..at + sh.Size()];
      return Just(rec[1 + sh.kw..]);
    }
    H.ContentsAbsent(es, KeyOf(c.table, sh, key));
    return Nothing;
  }

  lemma LookupFacts(g: Gc, h: Word, sh: Shape)
    requires MapValid(g, h, sh)
    ensures H.DistinctAlive(Recs(g, h, sh)) && MapOk(g, h, sh.Size()) && Holds(g, h, 8) && |WordsAt(g, h)| == 8
  {
    FindFacts(g, h, sh);
  }

  // ----- the index -----

  // Keys' objects are no part of the map, so changing the map's own spares them.
  lemma KeysElse(g: Gc, g2: Gc, sh: Shape, live: seq<Word>, parts: set<nat>, own: set<nat>)
    requires OnlyChanged(g, g2, own) && own <= parts
    ensures KeysSame(g.table, g2.table, sh, live, parts, parts)
  {
  }

  // Another index leaves the records as they are.
  lemma IndexChanged(g: Gc, g2: Gc, h: Word, sh: Shape)
    requires RecsOk(g, h, sh) && Fld(g, h, ICAP) > 0 && OnlyChanged(g, g2, {IdxOf(Fld(g, h, INDEX))})
    requires Holds(g2, Fld(g, h, INDEX), Fld(g, h, ICAP))
    ensures RecsOk(g2, h, sh) && Recs(g2, h, sh) == Recs(g, h, sh) && WordsAt(g2, h) == WordsAt(g, h)
    ensures Entries(g2, h, sh.Size()) == Entries(g, h, sh.Size())
  {
    hide HandleAt, DerefOf, LiveWords, LiveCount, Decoded, KeysHeld, KeysSame, H.DistinctAlive;
    MapHolds(g, h, sh.Size());
    RecsAre(g, h, sh);
    var x := IdxOf(Fld(g, h, INDEX));
    Elsewhere(g, g2, {x}, h, 8);
    if Fld(g, h, ECAP) > 0 {
      var e := Fld(g, h, ENTRIES);
      Elsewhere(g, g2, {x}, e, Fld(g, h, ECAP) * sh.Size());
      KeysElse(g, g2, sh, LiveWords(WordsAt(g, e), sh.Size(), Fld(g, h, NENT)), MapParts(g, h), {x});
      DecodedFrame(g.table, g2.table, sh, WordsAt(g, e), Fld(g, h, NENT), MapParts(g, h), MapParts(g, h));
    }
  }

  // The records of the map, or those and one more behind them.
  ghost predicate Indexing(g: Gc, h: Word, sh: Shape, es: seq<Rec>, i: nat) {
    var e, at := Fld(g, h, ENTRIES), i * sh.Size();
    && i < |es| && es[i].alive && 0 <= at && at + sh.Size() <= |WordsAt(g, e)|
    && es[i] == EntryOf(g.table, sh, WordsAt(g, e)[at..at + sh.Size()])
  }

  // The first slot not in use on the way from the key's home.
  method ProbeFree(c: Collector, h: Word, k: seq<nat>, sh: Shape, i: nat, ghost es: seq<Rec>) returns (p: nat,
      ghost d: nat)
    requires RecsOk(c.View(), h, sh) && Fld(c.View(), h, ECAP) > 0 && Fld(c.View(), h, ICAP) > 0
    requires H.IndexOk(sh.hash, es, Slots(c.View(), h), i) && i <= |es| && H.AliveCount(es[..i]) < Fld(c.View(), h, ICAP)
    ensures var ix := Slots(c.View(), h);
            && d < |ix| && p == H.Probe(sh.hash(k), d, |ix|) && p < |ix| && ix[p] <= 0
            && forall b :: 0 <= b < d ==> ix[H.Probe(sh.hash(k), b, |ix|)] > 0
  {
    hide H.Home, H.NextSlot, Slots, HandleAt, DerefOf, Holds, MapOk, RecsOk, H.IndexOk, H.Probe, H.AliveCount, Ints;
    ghost var g := c.View();
    ghost var ix := Slots(g, h);
    PutFacts(g, h, sh);
    var x := Load(c, h, INDEX);
    var icap := Load(c, h, ICAP);
    p := H.Home(sh.hash(k), icap);
    H.ProbeZero(sh.hash(k), icap);
    d := 0;
    ghost var free := H.FreeSlotAhead(sh.hash, es, ix, i, sh.hash(k));
    SlotAt(g, h, p);
    while AsI64(c.table[IdxOf(x)].words[p]) > 0
      invariant 0 <= d <= free < icap && p == H.Probe(sh.hash(k), d, icap)
      invariant p < |c.table[IdxOf(x)].words| && AsI64(c.table[IdxOf(x)].words[p]) == ix[p]
      invariant forall b :: 0 <= b < d ==> ix[H.Probe(sh.hash(k), b, icap)] > 0
      decreases icap - d
    {
      H.NextProbe(sh.hash(k), d, icap);
      p := H.NextSlot(p, icap);
      d := d + 1;
      SlotAt(g, h, p);
    }
  }

  // map_index_put: record i goes into the first slot not in use.
  method PutSlot(c: Collector, h: Word, i: nat, sh: Shape, ghost es: seq<Rec>)
    requires c.Valid() && RecsOk(c.View(), h, sh) && Fld(c.View(), h, ECAP) > 0 && Fld(c.View(), h, ICAP) > 0
    requires Indexing(c.View(), h, sh, es, i) && i + 1 < 0x8000_0000_0000_0000
    requires H.IndexOk(sh.hash, es, Slots(c.View(), h), i) && H.AliveCount(es[..i]) < Fld(c.View(), h, ICAP)
    modifies c`table
    ensures c.Valid() && RecsOk(c.View(), h, sh) && Recs(c.View(), h, sh) == old(Recs(c.View(), h, sh))
    ensures WordsAt(c.View(), h) == old(WordsAt(c.View(), h)) && Entries(c.View(), h, sh.Size()) == old(Entries(c.View(), h, sh.Size()))
    ensures OnlyChanged(old(c.View()), c.View(), {IdxOf(Fld(c.View(), h, INDEX))})
    ensures WordsAt(c.View(), Fld(c.View(), h, ENTRIES)) == old(WordsAt(c.View(), Fld(c.View(), h, ENTRIES)))
    ensures H.IndexOk(sh.hash, es, Slots(c.View(), h), i + 1)
  {
    hide Inv, HandleAt, DerefOf, OnlyChanged, Holds, MapOk, RecsOk, H.IndexOk, H.Probe, H.AliveCount, KeyOf, Recs,
         Entries, Slots, Decoded;
    ghost var g := c.View();
    PutFacts(g, h, sh);
    var e := Load(c, h, ENTRIES);
    var x := Load(c, h, INDEX);
    var at := i * sh.Size();
    var rec := c.table[IdxOf(e)].words[at..at + sh.Size()];
    var p, d := ProbeFree(c, h, KeyOf(c.table, sh, rec[1..1 + sh.kw]), sh, i, es);
    H.PutKeeps(sh.hash, es, Slots(g, h), i, d);
    Store(c, x, p, i + 1);
    PutDone(g, c.View(), h, sh, p, i);
  }

  lemma PutFacts(g: Gc, h: Word, sh: Shape)
    requires RecsOk(g, h, sh) && Fld(g, h, ECAP) > 0 && Fld(g, h, ICAP) > 0
    ensures var e, x := Fld(g, h, ENTRIES), Fld(g, h, INDEX);
            && sh.Ok() && Holds(g, h, 8) && |WordsAt(g, h)| == 8
            && IdxOf(e) < |g.table| && IdxOf(x) < |g.table| && Holds(g, x, Fld(g, h, ICAP)) && |WordsAt(g, x)| == Fld(g, h, ICAP) == |Slots(g, h)|
  {
    hide HandleAt, DerefOf, LiveWords, LiveCount;
    MapHolds(g, h, sh.Size());
    HoldsSize(g, Fld(g, h, INDEX), Fld(g, h, ICAP));
    Inside(g, Fld(g, h, ENTRIES), Fld(g, h, ECAP) * sh.Size());
    Inside(g, Fld(g, h, INDEX), Fld(g, h, ICAP));
  }

  lemma Inside(g: Gc, x: Word, n: nat)
    requires Holds(g, x, n)
    ensures IdxOf(x) < |g.table|
  {
  }

  lemma PutDone(g: Gc, g2: Gc, h: Word, sh: Shape, p: nat, i: nat)
    requires RecsOk(g, h, sh) && Fld(g, h, ECAP) > 0 && Fld(g, h, ICAP) > 0 && p < |WordsAt(g, Fld(g, h, INDEX))| && i + 1 < 0x8000_0000_0000_0000
    requires OnlyChanged(g, g2, {IdxOf(Fld(g, h, INDEX))}) && Holds(g2, Fld(g, h, INDEX), Fld(g, h, ICAP))
    requires WordsAt(g2, Fld(g, h, INDEX)) == WordsAt(g, Fld(g, h, INDEX))[p := i + 1]
    ensures RecsOk(g2, h, sh) && Recs(g2, h, sh) == Recs(g, h, sh) && WordsAt(g2, h) == WordsAt(g, h)
    ensures Entries(g2, h, sh.Size()) == Entries(g, h, sh.Size())
    ensures |Slots(g, h)| == |WordsAt(g, Fld(g, h, INDEX))| && Slots(g2, h) == Slots(g, h)[p := i + 1]
    ensures WordsAt(g2, Fld(g, h, ENTRIES)) == WordsAt(g, Fld(g, h, ENTRIES))
  {
    hide HandleAt, DerefOf, Recs, RecsOk, Entries, Ints;
    IndexChanged(g, g2, h, sh);
    IntsSet(WordsAt(g, Fld(g, h, INDEX)), p, i + 1);
    EntriesApart(g, g2, h, sh);
  }

  lemma EntriesApart(g: Gc, g2: Gc, h: Word, sh: Shape)
    requires RecsOk(g, h, sh) && Fld(g, h, ECAP) > 0 && Fld(g, h, ICAP) > 0 && OnlyChanged(g, g2, {IdxOf(Fld(g, h, INDEX))})
    ensures WordsAt(g2, Fld(g, h, ENTRIES)) == WordsAt(g, Fld(g, h, ENTRIES)) && |Slots(g, h)| == |WordsAt(g, Fld(g, h, INDEX))|
  {
    hide HandleAt, DerefOf, LiveWords, LiveCount, KeysHeld, Decoded;
    MapHolds(g, h, sh.Size());
    Elsewhere(g, g2, {IdxOf(Fld(g, h, INDEX))}, Fld(g, h, ENTRIES), Fld(g, h, ECAP) * sh.Size());
  }

  // The loop at the end of map_rehash: all records, into an empty index.
  method FillIndex(c: Collector, h: Word, sh: Shape)
    requires c.Valid() && RecsOk(c.View(), h, sh) && Fld(c.View(), h, ECAP) > 0 && Fld(c.View(), h, ICAP) > 0
    requires Fld(c.View(), h, NENT) < Fld(c.View(), h, ICAP) && Fld(c.View(), h, NENT) < 0x8000_0000_0000_0000
    requires forall i :: 0 <= i < |Recs(c.View(), h, sh)| ==> Recs(c.View(), h, sh)[i].alive
    requires forall p :: 0 <= p < |Slots(c.View(), h)| ==> Slots(c.View(), h)[p] == 0
    modifies c`table
    ensures c.Valid() && RecsOk(c.View(), h, sh) && Recs(c.View(), h, sh) == old(Recs(c.View(), h, sh))
    ensures WordsAt(c.View(), h) == old(WordsAt(c.View(), h)) && Entries(c.View(), h, sh.Size()) == old(Entries(c.View(), h, sh.Size()))
    ensures OnlyChanged(old(c.View()), c.View(), {IdxOf(Fld(c.View(), h, INDEX))})
    ensures H.IndexOk(sh.hash, Recs(c.View(), h, sh), Slots(c.View(), h), |Recs(c.View(), h, sh)|)
  {
    hide Inv, HandleAt, DerefOf, OnlyChanged, Holds, MapOk, RecsOk, H.IndexOk, H.AliveCount, KeyOf, Recs, Entries,
         Slots, Indexing;
    ghost var g := c.View();
    ghost var es := Recs(g, h, sh);
    H.EmptyIndex(sh.hash, es, Slots(g, h));
    RecsSize(g, h, sh);
    SameChanged(g, {IdxOf(Fld(g, h, INDEX))});
    var n := Load(c, h, NENT);
    var i := 0;
    while i < n
      invariant 0 <= i <= n && c.Valid() && RecsOk(c.View(), h, sh) && Recs(c.View(), h, sh) == es
      invariant WordsAt(c.View(), h) == WordsAt(g, h) && Entries(c.View(), h, sh.Size()) == Entries(g, h, sh.Size())
      invariant OnlyChanged(g, c.View(), {IdxOf(Fld(g, h, INDEX))})
      invariant H.IndexOk(sh.hash, es, Slots(c.View(), h), i)
    {
      ghost var g1 := c.View();
      IndexingRec(g1, h, sh, i);
      H.ContentsSize(es[..i]);
      PutSlot(c, h, i, sh, es);
      ChangedTrans(g, g1, c.View(), {IdxOf(Fld(g, h, INDEX))}, {IdxOf(Fld(g, h, INDEX))});
      assert {IdxOf(Fld(g, h, INDEX))} + {IdxOf(Fld(g, h, INDEX))} == {IdxOf(Fld(g, h, INDEX))};
      i := i + 1;
    }
  }

  lemma RecsSize(g: Gc, h: Word, sh: Shape)
    requires RecsOk(g, h, sh)
    ensures |Recs(g, h, sh)| == Fld(g, h, NENT) && Holds(g, h, 8) && |WordsAt(g, h)| == 8 && H.AliveCount(Recs(g, h, sh)) == Fld(g, h, MLEN)
  {
    hide HandleAt, DerefOf, LiveWords, LiveCount;
    RecsAre(g, h, sh);
    MapHolds(g, h, sh.Size());
  }

  lemma SameChanged(g: Gc, s: set<nat>)
    ensures OnlyChanged(g, g, s)
  {
  }

  lemma IndexingRec(g: Gc, h: Word, sh: Shape, i: nat)
    requires RecsOk(g, h, sh) && i < |Recs(g, h, sh)| && Recs(g, h, sh)[i].alive
    ensures Indexing(g, h, sh, Recs(g, h, sh), i)
  {
    hide HandleAt, DerefOf, LiveWords, LiveCount, KeyOf, EntryOf, Decoded, KeysHeld, H.DistinctAlive;
    RecAt(g, h, sh, i);
  }

  // ----- rehashing -----

  lemma SparedThen(g: Gc, g1: Gc, g2: Gc, h: Word, s: nat)
    requires Spared(g, g1, h, s) && OnlyChanged(g1, g2, MapParts(g1, h)) && MapParts(g2, h) == MapParts(g1, h)
    ensures Spared(g, g2, h, s)
  {
    hide Beside, Entries;
  }

  lemma ChangedMore(g: Gc, g2: Gc, s: set<nat>, t: set<nat>)
    requires OnlyChanged(g, g2, s) && s <= t
    ensures OnlyChanged(g, g2, t)
  {
  }

  // All records live: the live words are the words.
  lemma {:induction false} FullLive(ws: seq<Word>, s: nat, n: nat)
    requires s > 0 && n * s <= |ws| && LiveCount(ws, s, n) == n
    ensures LiveWords(ws, s, n) == ws[..n * s]
    decreases n
  {
    if n > 0 {
      RecordFits(s, n - 1, n);
      LiveSize(ws, s, n - 1);
      FullLive(ws, s, n - 1);
      assert ws[..(n - 1) * s] + Record(ws, s, n - 1) == ws[..n * s];
    }
  }

  lemma EntriesFull(g: Gc, h: Word, s: nat, live: nat, content: seq<Word>)
    requires EntriesOk(g, h, s, live, content)
    ensures var ws := WordsAt(g, Fld(g, h, ENTRIES)); 0 <= live * s <= |ws| && ws[..live * s] == content && LiveCount(ws, s, live) == live
    ensures Fld(g, h, ECAP) > 0 && s > 0
  {
    hide HandleAt, DerefOf, LiveWords, LiveCount;
    var ws := WordsAt(g, Fld(g, h, ENTRIES));
    MulMono(0, live, s);
    LiveSize(ws, s, live);
    DivModUnique(LiveCount(ws, s, live) * s, LiveCount(ws, s, live), 0, s);
    FullLive(ws, s, live);
  }

  // The first two steps of a rehash: fresh entries, then a fresh index.
  ghost predicate Resetting(g: Gc, g1: Gc, g2: Gc, h: Word, s: nat) {
    var live, content := Fld(g, h, MLEN), Entries(g, h, s);
    && Reachable(g, IdxOf(h)) && EntriesOk(g1, h, s, live, content) && OthersKept(g, g1, h) && !Reachable(g, IdxOf(Fld(g1, h, ENTRIES)))
    && EntriesOk(g2, h, s, live, content) && OthersKept(g1, g2, h) && Fld(g2, h, ENTRIES) == Fld(g1, h, ENTRIES)
    && IndexOk(g2, h) && !Reachable(g1, IdxOf(Fld(g2, h, INDEX)))
  }

  lemma ResetSpared(g: Gc, g1: Gc, g2: Gc, h: Word, s: nat)
    requires MapOk(g, h, s) && Resetting(g, g1, g2, h, s)
    ensures Spared(g, g2, h, s) && MapOk(g2, h, s) && Entries(g2, h, s) == Entries(g, h, s)
  {
    hide Reach, HandleAt, DerefOf, LiveWords, LiveCount;
    var live, content := Fld(g, h, MLEN), Entries(g, h, s);
    EntriesHeld(g, h, s);
    ContentHeld(g1, h, s, live, content);
    forall j: nat | Beside(g, content, MapParts(g, h), j) ensures Same(g.table, g2.table, j) && j !in MapParts(g2, h) {
      BesideLess(g, content, MapParts(g, h), {IdxOf(h)}, j);
      BesideKept(g, g1, content, {IdxOf(h)}, j);
      BesideKept(g1, g2, content, {IdxOf(h)}, j);
    }
  }

  lemma ResetRecs(g: Gc, g1: Gc, g2: Gc, h: Word, sh: Shape)
    requires RecsOk(g, h, sh) && Resetting(g, g1, g2, h, sh.Size()) && Spared(g, g2, h, sh.Size()) && MapOk(g2, h, sh.Size())
    ensures RecsOk(g2, h, sh) && Recs(g2, h, sh) == H.Compact(Recs(g, h, sh))
    ensures Fld(g2, h, MLEN) == Fld(g2, h, NENT) == Fld(g, h, MLEN) < Fld(g2, h, ECAP) && Fld(g2, h, ICAP) > 0
    ensures forall i :: 0 <= i < |Recs(g2, h, sh)| ==> Recs(g2, h, sh)[i].alive
  {
    hide Reach, HandleAt, DerefOf, LiveWords, LiveCount, Decoded, KeysHeld, Spared, MapOk, OthersKept, Entries,
         KeysSame, H.DistinctAlive, H.Compact;
    var s, live, content := sh.Size(), Fld(g, h, MLEN), Entries(g, h, sh.Size());
    var ws2 := WordsAt(g2, Fld(g2, h, ENTRIES));
    EntriesFull(g2, h, s, live, content);
    RecsAre(g2, h, sh);
    ContentRecs(g, h, sh);
    SparedKeys(g, g2, h, sh);
    DecodedFrame(g.table, g2.table, sh, content, live, MapParts(g, h), MapParts(g2, h));
    assert content[..live * s] == content;
    DecodedPrefix(g2.table, sh, content, ws2, live, MapParts(g2, h));
    H.CompactDistinct(Recs(g, h, sh));
    H.CompactMembers(Recs(g, h, sh));
  }

  // The live words decode to the live records.
  lemma ContentRecs(g: Gc, h: Word, sh: Shape)
    requires RecsOk(g, h, sh)
    ensures var live, content := Fld(g, h, MLEN), Entries(g, h, sh.Size());
            && |content| == live * sh.Size() && LiveWords(content, sh.Size(), live) == content
            && Decoded(g.table, sh, content, live) == H.Compact(Recs(g, h, sh)) && KeysHeld(g.table, sh, content, live, MapParts(g, h))
  {
    hide HandleAt, DerefOf, LiveWords, LiveCount, Decoded, KeysHeld;
    var s, live, content := sh.Size(), Fld(g, h, MLEN), Entries(g, h, sh.Size());
    MapHolds(g, h, s);
    RecsAre(g, h, sh);
    if Fld(g, h, ECAP) > 0 {
      var ws, n := WordsAt(g, Fld(g, h, ENTRIES)), Fld(g, h, NENT);
      LiveSize(ws, s, n);
      DecodedCompact(g.table, sh, ws, n, MapParts(g, h));
      CompactLive(ws, s, n, content);
    } else {
      NoneLive(g.table, sh, content, MapParts(g, h));
    }
  }

  // map_rehash.
  method Rehash(c: Collector, h: Word, icap: nat, sh: Shape)
    requires c.Valid() && Room(c.View(), 2) && RecsOk(c.View(), h, sh) && Reachable(c.View(), IdxOf(h))
    requires Sized(c.View(), h, sh.Size()) && 8 * icap < U64 && Fld(c.View(), h, MLEN) < icap
    modifies c
    ensures c.Valid() && RecsOk(c.View(), h, sh) && Recs(c.View(), h, sh) == H.Compact(old(Recs(c.View(), h, sh)))
    ensures H.IndexOk(sh.hash, Recs(c.View(), h, sh), Slots(c.View(), h), |Recs(c.View(), h, sh)|)
    ensures Fld(c.View(), h, MLEN) == Fld(c.View(), h, NENT) == old(Fld(c.View(), h, MLEN)) < Fld(c.View(), h, ECAP)
    ensures Fld(c.View(), h, ICAP) == icap && Spared(old(c.View()), c.View(), h, sh.Size())
  {
    hide Inv, Reach, HandleAt, DerefOf, OnlyChanged, Holds, Entries, MapOk, Room, Untouched, Reachable, AllRoots,
         Beside, OthersKept, EntriesOk, IndexOk, Sized, RecsOk, Recs, H.IndexOk, H.Compact, Spared, KeysHeld;
    ghost var g := c.View();
    RecsOkParts(g, h, sh);
    ghost var live, content := Fld(g, h, MLEN), Entries(g, h, sh.Size());
    SizedLive(g, h, sh.Size());
    CompactEntries(c, h, sh.Size());
    ghost var g1 := c.View();
    OthersReach(g, g1, h);
    NewIndex(c, h, icap, sh.Size(), live, content);
    ghost var g2 := c.View();
    ResetSpared(g, g1, g2, h, sh.Size());
    ResetRecs(g, g1, g2, h, sh);
    ZeroSlots(g2, h, icap);
    FillIndex(c, h, sh);
    ghost var g3 := c.View();
    ChangedMore(g2, g3, {IdxOf(Fld(g2, h, INDEX))}, MapParts(g2, h));
    SparedThen(g, g2, g3, h, sh.Size());
  }

  lemma RecsOkParts(g: Gc, h: Word, sh: Shape)
    requires RecsOk(g, h, sh)
    ensures MapOk(g, h, sh.Size()) && sh.Ok() && H.DistinctAlive(Recs(g, h, sh))
  {
  }

  lemma SizedLive(g: Gc, h: Word, s: nat)
    requires MapOk(g, h, s) && Sized(g, h, s)
    ensures Fld(g, h, MLEN) <= Fld(g, h, NENT) < 0x4000_0000_0000_0000
  {
    hide HandleAt, DerefOf, Entries;
    LiveFew(g, h, s);
    MulMono(8, 8 * s, 2 * Fld(g, h, NENT) + 4);
    assert (2 * Fld(g, h, NENT) + 4) * (8 * s) == (8 * s) * (2 * Fld(g, h, NENT) + 4);
  }

  lemma ZeroSlots(g: Gc, h: Word, icap: nat)
    requires Fld(g, h, ICAP) == icap
    requires var ws := WordsAt(g, Fld(g, h, INDEX)); |ws| == icap && forall p :: 0 <= p < icap ==> ws[p] == 0
    ensures forall p :: 0 <= p < |Slots(g, h)| ==> Slots(g, h)[p] == 0
  {
  }

  // ----- a larger entries buffer -----

  lemma SparedNothing(g: Gc, h: Word, s: nat)
    requires MapOk(g, h, s) && Reachable(g, IdxOf(h))
    ensures Spared(g, g, h, s)
  {
    hide Reach, HandleAt, DerefOf, Entries;
    EntriesHeld(g, h, s);
    ReachUsed(g.table, AllRoots(g), IdxOf(h));
    assert Untouched(g, g, MapParts(g, h)) by {
      forall j: nat | Reachable(g, j) ensures Same(g.table, g.table, j) { ReachUsed(g.table, AllRoots(g), j); }
    }
    forall j: nat | Beside(g, Entries(g, h, s), MapParts(g, h), j) ensures Same(g.table, g.table, j) && j !in MapParts(g, h) {
      BesideKept(g, g, Entries(g, h, s), MapParts(g, h), j);
    }
  }

  lemma SparedGrown(g: Gc, g2: Gc, h: Word, s: nat)
    requires MapOk(g, h, s) && Reachable(g, IdxOf(h)) && Untouched(g, g2, {IdxOf(h)}) && AllRoots(g2) == AllRoots(g)
    requires IdxOf(h) < |g.table| && IdxOf(h) < |g2.table| && g2.table[IdxOf(h)].used && g2.table[IdxOf(h)].gen == g.table[IdxOf(h)].gen
    requires Fld(g2, h, INDEX) == Fld(g, h, INDEX) && !Reachable(g, IdxOf(Fld(g2, h, ENTRIES)))
    ensures Spared(g, g2, h, s)
  {
    hide Reach, HandleAt, DerefOf, Entries, MapOk;
    EntriesHeld(g, h, s);
    forall j: nat | Beside(g, Entries(g, h, s), MapParts(g, h), j) ensures Same(g.table, g2.table, j) && j !in MapParts(g2, h) {
      BesideKept(g, g2, Entries(g, h, s), MapParts(g, h), j);
    }
  }

  // Records only depend on the words before their end.
  lemma {:induction false} LivePrefix(a: seq<Word>, b: seq<Word>, s: nat, n: nat)
    requires s > 0 && n * s <= |a| && n * s <= |b| && a[..n * s] == b[..n * s]
    ensures LiveWords(a, s, n) == LiveWords(b, s, n) && LiveCount(a, s, n) == LiveCount(b, s, n)
    decreases n
  {
    if n > 0 {
      RecordFits(s, n - 1, n);
      var m := (n - 1) * s;
      assert a[..m] == a[..n * s][..m] && b[..m] == b[..n * s][..m];
      LivePrefix(a, b, s, n - 1);
      assert a[m] == a[..n * s][m] && b[m] == b[..n * s][m];
      assert a[m..n * s] == a[..n * s][m..] && b[m..n * s] == b[..n * s][m..];
    }
  }

  lemma GrowSizes(g: Gc, h: Word, s: nat, nec: nat)
    requires MapOk(g, h, s) && Fits(g, h, s) && nec == (if Fld(g, h, ECAP) != 0 then Fld(g, h, ECAP) * 2 else 4)
    ensures nec * (8 * s) == nec * s * 8 && Fld(g, h, ECAP) < nec < U64 && nec * (8 * s) < U64
    ensures 0 <= Fld(g, h, NENT) * s <= nec * s && Fld(g, h, NENT) <= Fld(g, h, ECAP) && s >= 2
  {
    hide HandleAt, DerefOf, Entries;
    var ecap := Fld(g, h, ECAP);
    MulMono(nec, 2 * ecap + 4, 8 * s);
    MulMono(1, 8 * s, 2 * ecap + 4);
    assert (2 * ecap + 4) * (8 * s) == (8 * s) * (2 * ecap + 4);
    MulMono(Fld(g, h, NENT), nec, s);
    MulMono(0, Fld(g, h, NENT), s);
  }

  // The header, the entries and the index survive an allocation.
  lemma AllHold(g: Gc, h: Word, s: nat, size: nat)
    requires Inv(g) && Roomy(g) && MapOk(g, h, s) && Reachable(g, IdxOf(h))
    ensures Inv(MaybeCollect(g)) && Inv(Alloc(g, size).0)
    ensures var (g2, m) := Alloc(g, size);
            var e, x := Fld(g, h, ENTRIES), Fld(g, h, INDEX);
            && Holds(g2, h, 8) && WordsAt(g2, h) == WordsAt(g, h) && IdxOf(h) != m && AllRoots(g2) == AllRoots(g) && Untouched(g, g2, {})
            && (Fld(g, h, ECAP) > 0 ==> Holds(g2, e, Fld(g, h, ECAP) * s) && WordsAt(g2, e) == WordsAt(g, e) && IdxOf(e) != m)
            && (Fld(g, h, ICAP) > 0 ==> Holds(g2, x, Fld(g, h, ICAP)) && WordsAt(g2, x) == WordsAt(g, x) && IdxOf(x) != m)
  {
    hide Inv, Collect, Reach, Alloc, MaybeCollect, HandleAt, DerefOf, Holds, LiveWords, LiveCount, Entries;
    BothHold(g, h, s, size);
    if Fld(g, h, ICAP) > 0 {
      HeldIn(g, h);
      ReachWord(g, IdxOf(h), INDEX, Fld(g, h, ICAP));
      AllocHolds(g, size, Fld(g, h, INDEX), Fld(g, h, ICAP));
    }
  }

  // The new buffer starts with the old entries.
  ghost predicate Widened(g: Gc, g2: Gc, h: Word, s: nat, ne: Word, nec: nat) {
    var e, x, n := Fld(g, h, ENTRIES), Fld(g, h, INDEX), Fld(g, h, NENT);
    && Holds(g2, h, 8) && WordsAt(g2, h) == WordsAt(g, h) && IdxOf(ne) != IdxOf(h)
    && Holds(g2, ne, nec * s) && 0 <= n * s <= nec * s
    && (Fld(g, h, ECAP) > 0 ==> n * s <= |WordsAt(g, e)| && n * s <= |WordsAt(g2, ne)| && WordsAt(g2, ne)[..n * s] == WordsAt(g, e)[..n * s])
    && (Fld(g, h, ICAP) > 0 ==> Holds(g2, x, Fld(g, h, ICAP)) && WordsAt(g2, x) == WordsAt(g, x) && IdxOf(x) != IdxOf(ne) && IdxOf(x) != IdxOf(h))
  }

  lemma CopiedEntries(g: Gc, g1: Gc, g2: Gc, h: Word, s: nat, ne: Word, nec: nat, m: nat)
    requires MapOk(g, h, s) && 0 <= m == Fld(g, h, NENT) * s <= nec * s && IdxOf(ne) != IdxOf(h)
    requires Holds(g1, h, 8) && WordsAt(g1, h) == WordsAt(g, h) && Holds(g1, ne, nec * s)
    requires var e := Fld(g, h, ENTRIES); Fld(g, h, ECAP) > 0 ==> WordsAt(g1, e) == WordsAt(g, e)
    requires var x := Fld(g, h, INDEX); Fld(g, h, ICAP) > 0 ==> Holds(g1, x, Fld(g, h, ICAP)) && WordsAt(g1, x) == WordsAt(g, x) && IdxOf(x) != IdxOf(ne)
    requires if Fld(g, h, ENTRIES) != 0 && Fld(g, h, NENT) != 0
             then OnlyChanged(g1, g2, {IdxOf(ne)}) && Holds(g2, ne, nec * s) && m <= |WordsAt(g1, Fld(g, h, ENTRIES))| && m <= |WordsAt(g1, ne)|
                  && WordsAt(g2, ne) == Spliced(WordsAt(g1, ne), 0, WordsAt(g1, Fld(g, h, ENTRIES))[0..0 + m])
             else g2 == g1
    ensures Widened(g, g2, h, s, ne, nec) && OnlyChanged(g1, g2, {IdxOf(ne)})
  {
    hide HandleAt, DerefOf, Entries;
    MapHolds(g, h, s);
    HoldsSize(g1, ne, nec * s);
    if Fld(g, h, ENTRIES) != 0 && Fld(g, h, NENT) != 0 {
      Elsewhere(g1, g2, {IdxOf(ne)}, h, 8);
      if Fld(g, h, ICAP) > 0 { Elsewhere(g1, g2, {IdxOf(ne)}, Fld(g, h, INDEX), Fld(g, h, ICAP)); }
      SplicedFront(WordsAt(g1, ne), WordsAt(g1, Fld(g, h, ENTRIES))[0..0 + m]);
      HoldsSize(g2, ne, nec * s);
    } else {
      assert Fld(g, h, ECAP) > 0 ==> Fld(g, h, NENT) == 0;
    }
  }

  // The header names the new buffer.
  lemma WidenedMap(g: Gc, g2: Gc, g3: Gc, h: Word, s: nat, ne: Word, nec: nat)
    requires MapOk(g, h, s) && Widened(g, g2, h, s, ne, nec) && OnlyChanged(g2, g3, {IdxOf(h)}) && Fld(g, h, ECAP) < nec < U64
    requires Holds(g3, h, 8) && WordsAt(g3, h) == WordsAt(g2, h)[ENTRIES := ne][ECAP := nec]
    ensures MapOk(g3, h, s) && Entries(g3, h, s) == Entries(g, h, s)
    ensures Fld(g3, h, NENT) == Fld(g, h, NENT) < Fld(g3, h, ECAP) && Fld(g3, h, MLEN) == Fld(g, h, MLEN)
    ensures Fld(g, h, ICAP) > 0 ==> WordsAt(g3, Fld(g, h, INDEX)) == WordsAt(g, Fld(g, h, INDEX))
    ensures var ws, ws3, m := WordsAt(g, Fld(g, h, ENTRIES)), WordsAt(g3, ne), Fld(g, h, NENT) * s;
            Fld(g, h, ECAP) > 0 ==> 0 <= m <= |ws| && m <= |ws3| && ws3[..m] == ws[..m]
    ensures Fld(g3, h, ICAP) == Fld(g, h, ICAP) && Fld(g3, h, INDEX) == Fld(g, h, INDEX) && Fld(g3, h, ENTRIES) == ne
  {
    hide HandleAt, DerefOf, LiveWords, LiveCount;
    MapHolds(g, h, s);
    Elsewhere(g2, g3, {IdxOf(h)}, ne, nec * s);
    HoldsSize(g3, ne, nec * s);
    HoldsSize(g2, ne, nec * s);
    if Fld(g, h, ICAP) > 0 { Elsewhere(g2, g3, {IdxOf(h)}, Fld(g, h, INDEX), Fld(g, h, ICAP)); }
    if Fld(g, h, ECAP) > 0 {
      LivePrefix(WordsAt(g, Fld(g, h, ENTRIES)), WordsAt(g3, ne), s, Fld(g, h, NENT));
    } else {
      NothingLive(WordsAt(g3, ne), s);
    }
  }

  // The records and the slots read as before.
  lemma WidenedRecs(g: Gc, g3: Gc, h: Word, sh: Shape)
    requires RecsOk(g, h, sh) && Spared(g, g3, h, sh.Size()) && MapOk(g3, h, sh.Size())
    requires Fld(g3, h, NENT) == Fld(g, h, NENT) < Fld(g3, h, ECAP)
    requires var ws, ws3, m := WordsAt(g, Fld(g, h, ENTRIES)), WordsAt(g3, Fld(g3, h, ENTRIES)), Fld(g, h,
        NENT) * sh.Size();
             Fld(g, h, ECAP) > 0 ==> 0 <= m <= |ws| && m <= |ws3| && ws3[..m] == ws[..m]
    ensures RecsOk(g3, h, sh) && Recs(g3, h, sh) == Recs(g, h, sh)
  {
    hide HandleAt, DerefOf, LiveWords, LiveCount, Decoded, KeysHeld, Spared, KeysSame, H.DistinctAlive, MapOk;
    RecsAre(g, h, sh);
    RecsAre(g3, h, sh);
    var ws, ws3, n := WordsAt(g, Fld(g, h, ENTRIES)), WordsAt(g3, Fld(g3, h, ENTRIES)), Fld(g, h, NENT);
    MapHolds(g, h, sh.Size());
    if Fld(g, h, ECAP) > 0 {
      SparedKeys(g, g3, h, sh);
      DecodedFrame(g.table, g3.table, sh, ws, n, MapParts(g, h), MapParts(g3, h));
      DecodedPrefix(g3.table, sh, ws, ws3, n, MapParts(g3, h));
    } else {
      NoneDecoded(g3.table, sh, ws3, MapParts(g3, h));
    }
  }

  // The second allocation cl_map_set may make. The products are in 64 bits, and
  // GrowSizes shows that they do not wrap.
  method GrowEntries(c: Collector, h: Word, sh: Shape)
    requires c.Valid() && Roomy(c.View()) && RecsOk(c.View(), h, sh) && Reachable(c.View(), IdxOf(h)) && Fits(c.View(), h, sh.Size())
    requires Fld(c.View(), h, NENT) == Fld(c.View(), h, ECAP) && Fld(c.View(), h, ICAP) > 0
    modifies c
    ensures c.Valid() && RecsOk(c.View(), h, sh) && Recs(c.View(), h, sh) == old(Recs(c.View(), h, sh))
    ensures Slots(c.View(), h) == old(Slots(c.View(), h)) && Spared(old(c.View()), c.View(), h, sh.Size())
    ensures Fld(c.View(), h, NENT) == old(Fld(c.View(), h, NENT)) < Fld(c.View(), h, ECAP)
    ensures Fld(c.View(), h, MLEN) == old(Fld(c.View(), h, MLEN)) && Fld(c.View(), h, ICAP) == old(Fld(c.View(), h, ICAP))
    ensures Fld(c.View(), h, ECAP) == old(if Fld(c.View(), h, ECAP) != 0 then Fld(c.View(), h, ECAP) * 2 else 4)
  {
    hide Inv, Collect, Reach, Alloc, MaybeCollect, HandleAt, DerefOf, OnlyChanged, Holds, Roomy, Live, LiveWords,
         LiveCount, Entries, MapOk, Room, Untouched, Reachable, AllRoots, Spliced, Widened, Spared, Fits, RecsOk, Recs,
         Ints;
    ghost var g := c.View();
    ghost var s := sh.Size();
    RecsOkParts(g, h, sh);
    MapHolds(g, h, s);
    var ecap: nat := Load(c, h, ECAP);
    var shape := Load(c, h, SHAPE);
    var nec := if ecap != 0 then ecap * 2 else 4;
    GrowSizes(g, h, s, nec);
    AllHold(g, h, s, nec * (shape % INDEXES));
    var ne := c.Allocate(nec * (shape % INDEXES));
    ghost var g1 := c.View();
    FreshHolds(g, nec * (8 * s), g1, ne, nec * s);
    var entries := Load(c, h, ENTRIES);
    var nent := Load(c, h, NENT);
    if entries != 0 && nent != 0 {
      EntriesThere(g, g1, h, s);
      CopyWords(c, entries, 0, ne, 0, nent * (shape % INDEXES / 8));
    }
    ghost var g2 := c.View();
    CopiedEntries(g, g1, g2, h, s, ne, nec, nent * s);
    WidenedHeader(g, g2, h, s, ne, nec);
    SetEntries(c, h, ne, nec);
    WidenedMap(g, g2, c.View(), h, s, ne, nec);
    GrownOthers(g, g1, g2, c.View(), h, s, ne);
    WidenedRecs(g, c.View(), h, sh);
  }

  lemma EntriesThere(g: Gc, g1: Gc, h: Word, s: nat)
    requires MapOk(g, h, s) && Fld(g, h, ENTRIES) != 0
    requires var e := Fld(g, h, ENTRIES); Fld(g, h, ECAP) > 0 ==> Holds(g1, e, Fld(g, h, ECAP) * s) && WordsAt(g1, e) == WordsAt(g, e)
    ensures Fld(g, h, ECAP) > 0
    ensures var e := Fld(g, h, ENTRIES); Holds(g1, e, |WordsAt(g1, e)|) && Fld(g, h, NENT) * s <= |WordsAt(g1, e)|
  {
    hide HandleAt, DerefOf, LiveWords, LiveCount;
    MapHolds(g, h, s);
    HoldsSize(g1, Fld(g, h, ENTRIES), Fld(g, h, ECAP) * s);
  }

  lemma WidenedHeader(g: Gc, g2: Gc, h: Word, s: nat, ne: Word, nec: nat)
    requires Widened(g, g2, h, s, ne, nec)
    ensures Holds(g2, h, 8) && |WordsAt(g2, h)| == 8
  {
    hide HandleAt, DerefOf;
    HoldsSize(g2, h, 8);
  }

  method SetEntries(c: Collector, h: Word, ne: Word, nec: Word)
    requires c.Valid() && Holds(c.View(), h, 8) && |WordsAt(c.View(), h)| == 8
    modifies c`table
    ensures c.Valid() && OnlyChanged(old(c.View()), c.View(), {IdxOf(h)}) && Holds(c.View(), h, 8)
    ensures WordsAt(c.View(), h) == old(WordsAt(c.View(), h))[ENTRIES := ne][ECAP := nec]
  {
    hide Inv, HandleAt, DerefOf, OnlyChanged, Holds;
    ghost var g := c.View();
    Store(c, h, ENTRIES, ne);
    ghost var g1 := c.View();
    Store(c, h, ECAP, nec);
    ChangedTrans(g, g1, c.View(), {IdxOf(h)}, {IdxOf(h)});
    assert {IdxOf(h)} + {IdxOf(h)} == {IdxOf(h)};
  }

  lemma GrownOthers(g: Gc, g1: Gc, g2: Gc, g3: Gc, h: Word, s: nat, ne: Word)
    requires MapOk(g, h, s) && Untouched(g, g1, {}) && AllRoots(g1) == AllRoots(g) && !Reachable(g, IdxOf(ne)) && Reachable(g, IdxOf(h))
    requires OnlyChanged(g1, g2, {IdxOf(ne)}) && OnlyChanged(g2, g3, {IdxOf(h)})
    requires Fld(g3, h, INDEX) == Fld(g, h, INDEX) && Fld(g3, h, ENTRIES) == ne
    ensures Spared(g, g3, h, s)
  {
    hide Reach, HandleAt, DerefOf, MapOk, Entries, Spared;
    ChangedTrans(g1, g2, g3, {IdxOf(ne)}, {IdxOf(h)});
    OthersSafe(g, g1, g3, h, IdxOf(ne), {IdxOf(ne)} + {IdxOf(h)});
    SparedGrown(g, g3, h, s);
  }

  // ----- making room -----

  // Ready to take one more entry, and the same dictionary as in g.
  ghost predicate Roomier(g: Gc, g2: Gc, h: Word, sh: Shape) {
    && RecsOk(g2, h, sh) && Dict(g2, h, sh) == Dict(g, h, sh)
    && H.IndexOk(sh.hash, Recs(g2, h, sh), Slots(g2, h), |Recs(g2, h, sh)|)
    && Fld(g2, h, NENT) < Fld(g2, h, ECAP) && Fld(g2, h, NENT) < 0x4000_0000_0000_0000
    && 10 * (Fld(g2, h, MLEN) + 1) < 7 * Fld(g2, h, ICAP) && H.PowerOrNone(Fld(g2, h, ICAP))
    && Spared(g, g2, h, sh.Size())
  }

  // The two tests of cl_map_set before it appends. `len + 1` times 10 and the slot
  // count times 7 are in 64 bits, and RoomFacts shows that they do not wrap.
  method MakeRoom(c: Collector, h: Word, sh: Shape)
    requires c.Valid() && Room(c.View(), 2) && MapValid(c.View(), h, sh) && Reachable(c.View(), IdxOf(h)) && Fits(c.View(), h, sh.Size())
    modifies c
    ensures c.Valid() && Roomier(old(c.View()), c.View(), h, sh)
  {
    hide Inv, Reach, HandleAt, DerefOf, Holds, Entries, MapOk, Room, Reachable, AllRoots, Beside, Spared, Sized, Fits,
         RecsOk, Recs, Slots, H.IndexOk, H.Compact, H.Contents, H.AliveCount, H.PowerOrNone;
    ghost var g := c.View();
    FindFacts(g, h, sh);
    RoomFirst(g, 2);
    SparedNothing(g, h, sh.Size());
    RoomFacts(g, h, sh);
    var len: nat := Load(c, h, MLEN);
    var icap: nat := Load(c, h, ICAP);
    if icap == 0 || (len + 1) * 10 >= icap * 7 {
      H.CompactSame(Recs(g, h, sh));
      NextPower(icap);
      Rehash(c, h, if icap != 0 then icap * 2 else 8, sh);
    } else {
      var nent := Load(c, h, NENT);
      var ecap := Load(c, h, ECAP);
      if nent >= ecap { GrowEntries(c, h, sh); }
    }
  }

  lemma NextPower(icap: nat)
    requires H.PowerOrNone(icap)
    ensures H.PowerOrNone(if icap != 0 then icap * 2 else 8)
  {
    H.PowerEight();
    if icap > 0 { H.PowerTwice(icap); }
  }

  // No product of the tests wraps, and either outcome has room in the index.
  lemma RoomFacts(g: Gc, h: Word, sh: Shape)
    requires MapValid(g, h, sh) && Fits(g, h, sh.Size())
    ensures var len, icap := Fld(g, h, MLEN), Fld(g, h, ICAP);
            var nic := if icap != 0 then icap * 2 else 8;
            && (len + 1) * 10 < U64 && icap * 7 < U64 && 8 * nic < U64 && len < nic && 10 * (len + 1) < 7 * nic
    ensures RecsOk(g, h, sh) && Sized(g, h, sh.Size()) && H.PowerOrNone(Fld(g, h, ICAP))
    ensures Fld(g, h, MLEN) <= Fld(g, h, NENT) <= Fld(g, h, ECAP) && Fld(g, h, NENT) < 0x4000_0000_0000_0000
  {
    hide HandleAt, DerefOf, Entries, H.IndexOk, H.DistinctAlive, KeysHeld, H.PowerOrNone, Recs;
    MulMono(2 * Fld(g, h, NENT) + 4, 2 * Fld(g, h, ECAP) + 4, 8 * sh.Size());
    SizedLive(g, h, sh.Size());
    if Fld(g, h, ICAP) == 0 { assert Fld(g, h, MLEN) == 0; }
  }

  // ----- the new entry -----

  lemma RecordStored(g: Gc, g1: Gc, h: Word, sh: Shape, rec: seq<Word>)
    requires RecsOk(g, h, sh) && Fld(g, h, NENT) < Fld(g, h, ECAP) && Fld(g, h, ICAP) > 0 && |rec| == sh.Size() && rec[0] == 1
    requires var e, at := Fld(g, h, ENTRIES), Fld(g, h, NENT) * sh.Size();
             && OnlyChanged(g, g1, {IdxOf(e)}) && Holds(g1, e, Fld(g, h, ECAP) * sh.Size())
             && 0 <= at && at + sh.Size() <= |WordsAt(g, e)| && WordsAt(g1, e) == Spliced(WordsAt(g, e), at, rec)
    requires KeyHeld(g.table, sh, rec[1..1 + sh.kw], MapParts(g, h))
    ensures RecsOk(g1, h, sh) && Recs(g1, h, sh) == Recs(g, h, sh) && WordsAt(g1, h) == WordsAt(g, h) && Slots(g1, h) == Slots(g, h)
    ensures Entries(g1, h, sh.Size()) == Entries(g, h, sh.Size())
    ensures var at := Fld(g, h, NENT) * sh.Size();
            at + sh.Size() <= |WordsAt(g1, Fld(g, h, ENTRIES))| && WordsAt(g1, Fld(g, h, ENTRIES))[at..at + sh.Size()] == rec
    ensures Indexing(g1, h, sh, Recs(g, h, sh) + [EntryOf(g.table, sh, rec)], Fld(g, h, NENT))
    ensures KeyHeld(g1.table, sh, rec[1..1 + sh.kw], MapParts(g1, h)) && EntryOf(g1.table, sh, rec) == EntryOf(g.table, sh, rec)
  {
    hide HandleAt, DerefOf, LiveWords, LiveCount, Decoded, KeysHeld, KeysSame, H.DistinctAlive, KeyOf;
    var s, n, e := sh.Size(), Fld(g, h, NENT), Fld(g, h, ENTRIES);
    var ws, ws1 := WordsAt(g, e), WordsAt(g1, e);
    MapHolds(g, h, s);
    RecsAre(g, h, sh);
    Elsewhere(g, g1, {IdxOf(e)}, h, 8);
    Elsewhere(g, g1, {IdxOf(e)}, Fld(g, h, INDEX), Fld(g, h, ICAP));
    KeysElse(g, g1, sh, LiveWords(ws, s, n), MapParts(g, h), {IdxOf(e)});
    DecodedFrame(g.table, g1.table, sh, ws, n, MapParts(g, h), MapParts(g, h));
    SplicedParts(ws, n * s, rec);
    DecodedPrefix(g1.table, sh, ws, ws1, n, MapParts(g, h));
    LivePrefix(ws, ws1, s, n);
    KeyKept(g, g1, sh, rec[1..1 + sh.kw], MapParts(g, h), {IdxOf(e)});
  }

  lemma KeyKept(g: Gc, g1: Gc, sh: Shape, key: seq<Word>, parts: set<nat>, own: set<nat>)
    requires OnlyChanged(g, g1, own) && own <= parts && KeyHeld(g.table, sh, key, parts)
    ensures KeyHeld(g1.table, sh, key, parts) && KeyOf(g1.table, sh, key) == KeyOf(g.table, sh, key)
  {
  }

  lemma SplicedParts(ws: seq<Word>, m: nat, rec: seq<Word>)
    requires m + |rec| <= |ws|
    ensures var ws1 := Spliced(ws, m, rec); ws1[..m] == ws[..m] && ws1[m..m + |rec|] == rec
  {
  }

  lemma RecordCounted(g: Gc, g3: Gc, h: Word, sh: Shape, rec: seq<Word>)
    requires RecsOk(g, h, sh) && Fld(g, h, NENT) < Fld(g, h, ECAP) && Fld(g, h, ICAP) > 0 && |rec| == sh.Size() && rec[0] == 1
    requires OnlyChanged(g, g3, {IdxOf(h)}) && Holds(g3, h, 8) && Fld(g, h, MLEN) + 1 < U64
    requires WordsAt(g3, h) == WordsAt(g, h)[NENT := Fld(g, h, NENT) + 1][MLEN := Fld(g, h, MLEN) + 1]
    requires var ws, at := WordsAt(g, Fld(g, h, ENTRIES)), Fld(g, h, NENT) * sh.Size();
             0 <= at && at + sh.Size() <= |ws| && ws[at..at + sh.Size()] == rec
    requires KeyHeld(g.table, sh, rec[1..1 + sh.kw], MapParts(g, h))
    requires H.DistinctAlive(Recs(g, h, sh) + [EntryOf(g.table, sh, rec)])
    ensures RecsOk(g3, h, sh) && Recs(g3, h, sh) == Recs(g, h, sh) + [EntryOf(g.table, sh, rec)]
    ensures Slots(g3, h) == Slots(g, h) && MapParts(g3, h) == MapParts(g, h)
  {
    hide HandleAt, DerefOf, LiveWords, LiveCount, Decoded, KeysHeld, KeysSame, H.DistinctAlive, KeyHeld, EntryOf;
    var s, n, e := sh.Size(), Fld(g, h, NENT), Fld(g, h, ENTRIES);
    var ws := WordsAt(g, e);
    MapHolds(g, h, s);
    RecsAre(g, h, sh);
    RecordFits(s, n, n + 1);
    RecordFits(s, n, Fld(g, h, ECAP));
    Elsewhere(g, g3, {IdxOf(h)}, e, Fld(g, h, ECAP) * s);
    Elsewhere(g, g3, {IdxOf(h)}, Fld(g, h, INDEX), Fld(g, h, ICAP));
    DecodedStep(g.table, sh, ws, n + 1, MapParts(g, h));
    CopyStep(ws, s, n, n + 1);
    LiveSize(ws, s, n + 1);
    DivModUnique(LiveCount(ws, s, n + 1) * s, LiveCount(ws, s, n + 1), 0, s);
    KeysElse(g, g3, sh, LiveWords(ws, s, n + 1), MapParts(g, h), {IdxOf(h)});
    assert ws[n * s] == rec[0];
    DecodedFrame(g.table, g3.table, sh, ws, n + 1, MapParts(g, h), MapParts(g, h));
  }

  method CountEntry(c: Collector, h: Word, n: Word, len: Word)
    requires c.Valid() && Holds(c.View(), h, 8) && |WordsAt(c.View(), h)| == 8
    modifies c`table
    ensures c.Valid() && OnlyChanged(old(c.View()), c.View(), {IdxOf(h)}) && Holds(c.View(), h, 8)
    ensures WordsAt(c.View(), h) == old(WordsAt(c.View(), h))[NENT := n][MLEN := len]
  {
    hide Inv, HandleAt, DerefOf, OnlyChanged, Holds;
    ghost var g := c.View();
    Store(c, h, NENT, n);
    ghost var g1 := c.View();
    Store(c, h, MLEN, len);
    ChangedTrans(g, g1, c.View(), {IdxOf(h)}, {IdxOf(h)});
    assert {IdxOf(h)} + {IdxOf(h)} == {IdxOf(h)};
  }

  // Append a new entry, index it, count it.
  method AppendEntry(c: Collector, h: Word, key: seq<Word>, val: seq<Word>, sh: Shape)
    requires c.Valid() && Roomier(c.View(), c.View(), h, sh) && |key| == sh.kw && |val| == sh.vw
    requires KeyHeld(c.table, sh, key, MapParts(c.View(), h)) && !D.Has(Dict(c.View(), h, sh), KeyOf(c.table, sh, key))
    modifies c`table
    ensures c.Valid() && MapValid(c.View(), h, sh)
    ensures Dict(c.View(), h, sh) == old(Dict(c.View(), h, sh)) + [(old(KeyOf(c.table, sh, key)), val)]
    ensures OnlyChanged(old(c.View()), c.View(), old(MapParts(c.View(), h))) && MapParts(c.View(), h) == old(MapParts(c.View(), h))
  {
    hide Inv, HandleAt, DerefOf, OnlyChanged, Holds, Entries, MapOk, Spliced, RecsOk, Recs, Slots, KeyHeld, KeyOf,
         EntryOf, H.IndexOk, H.DistinctAlive, H.AliveCount, H.Contents, Indexing, Spared, H.PowerOrNone, D.Has;
    ghost var g := c.View();
    var s := sh.Size();
    AppendFacts(g, h, sh);
    var rec := [1] + key + val;
    assert |rec| == s && rec[0] == 1 && rec[1..1 + sh.kw] == key && rec[1 + sh.kw..] == val;
    ghost var es := Recs(g, h, sh) + [EntryOf(g.table, sh, rec)];
    NewRecord(g, h, sh, rec, key, val);
    PlaceRecord(c, h, rec, sh, es);
  }

  // The record behind the others, its number in the index, and both counters.
  method PlaceRecord(c: Collector, h: Word, rec: seq<Word>, sh: Shape, ghost es: seq<Rec>)
    requires c.Valid() && Roomier(c.View(), c.View(), h, sh) && |rec| == sh.Size() && rec[0] == 1
    requires KeyHeld(c.table, sh, rec[1..1 + sh.kw], MapParts(c.View(), h))
    requires es == Recs(c.View(), h, sh) + [EntryOf(c.table, sh, rec)] && H.DistinctAlive(es)
    requires H.IndexOk(sh.hash, es, Slots(c.View(), h), |es| - 1) && es[..|es| - 1] == Recs(c.View(), h, sh)
    modifies c`table
    ensures c.Valid() && RecsOk(c.View(), h, sh) && Recs(c.View(), h, sh) == es && H.IndexOk(sh.hash, es, Slots(c.View(), h), |es|)
    ensures Fld(c.View(), h, ICAP) == old(Fld(c.View(), h, ICAP)) && Fld(c.View(), h, MLEN) == old(Fld(c.View(), h, MLEN)) + 1
    ensures OnlyChanged(old(c.View()), c.View(), old(MapParts(c.View(), h))) && MapParts(c.View(), h) == old(MapParts(c.View(), h))
  {
    hide Inv, HandleAt, DerefOf, OnlyChanged, Holds, Entries, MapOk, Spliced, RecsOk, Recs, Slots, KeyHeld, KeyOf,
         EntryOf, H.IndexOk, H.DistinctAlive, H.AliveCount, H.Contents, Indexing, Spared, H.PowerOrNone, D.Has;
    ghost var g := c.View();
    AppendFacts(g, h, sh);
    var e := Load(c, h, ENTRIES);
    var n := Load(c, h, NENT);
    var len := Load(c, h, MLEN);
    StoreWords(c, e, n * sh.Size(), rec);
    ghost var g1 := c.View();
    RecordStored(g, g1, h, sh, rec);
    PutSlot(c, h, n, sh, es);
    ghost var g2 := c.View();
    IndexedKey(g, g1, g2, h, sh, rec);
    CountEntry(c, h, n + 1, len + 1);
    RecordCounted(g2, c.View(), h, sh, rec);
    AllChanged(g, g1, g2, c.View(), h);
  }

  lemma AppendFacts(g: Gc, h: Word, sh: Shape)
    requires Roomier(g, g, h, sh)
    ensures var e, at := Fld(g, h, ENTRIES), Fld(g, h, NENT) * sh.Size();
            && sh.Ok() && Holds(g, h, 8) && |WordsAt(g, h)| == 8 && Holds(g, e, |WordsAt(g, e)|) && |WordsAt(g, e)| == Fld(g, h, ECAP) * sh.Size()
            && Fld(g, h, ICAP) > 0 && 0 <= at && at + sh.Size() <= |WordsAt(g, e)|
    ensures |Recs(g, h, sh)| == Fld(g, h, NENT) && H.AliveCount(Recs(g, h, sh)) == Fld(g, h, MLEN) <= Fld(g, h, NENT)
    ensures MapOk(g, h, sh.Size())
  {
    hide HandleAt, DerefOf, LiveWords, LiveCount, KeysHeld, Decoded, H.DistinctAlive, H.IndexOk;
    MapHolds(g, h, sh.Size());
    RecsAre(g, h, sh);
    H.ContentsSize(Recs(g, h, sh));
    RecordFits(sh.Size(), Fld(g, h, NENT), Fld(g, h, ECAP));
  }

  // The new record among the others.
  lemma NewRecord(g: Gc, h: Word, sh: Shape, rec: seq<Word>, key: seq<Word>, val: seq<Word>)
    requires RecsOk(g, h, sh) && |rec| == sh.Size() && rec[0] == 1 && rec[1..1 + sh.kw] == key && rec[1 + sh.kw..] == val
    requires !D.Has(Dict(g, h, sh), KeyOf(g.table, sh, key)) && H.IndexOk(sh.hash, Recs(g, h, sh), Slots(g, h), |Recs(g, h, sh)|)
    ensures var es0 := Recs(g, h, sh);
            var es := es0 + [EntryOf(g.table, sh, rec)];
            && H.DistinctAlive(es) && H.IndexOk(sh.hash, es, Slots(g, h), |es0|) && es[..|es0|] == es0
            && H.Contents(es) == Dict(g, h, sh) + [(KeyOf(g.table, sh, key), val)] && H.AliveCount(es) == H.AliveCount(es0) + 1
  {
    hide HandleAt, DerefOf, LiveWords, LiveCount, KeysHeld, Decoded, H.IndexOk, MapOk, KeyOf;
    var es0 := Recs(g, h, sh);
    var e := EntryOf(g.table, sh, rec);
    H.AppendKeeps(sh.hash, es0, Slots(g, h), e);
    H.NoneAlive(es0, Dict(g, h, sh), e.key);
    assert (es0 + [e])[..|es0|] == es0;
  }

  lemma IndexedKey(g: Gc, g1: Gc, g2: Gc, h: Word, sh: Shape, rec: seq<Word>)
    requires RecsOk(g1, h, sh) && OnlyChanged(g1, g2, {IdxOf(Fld(g1, h, INDEX))}) && |rec| == sh.Size()
    requires RecsOk(g2, h, sh) && WordsAt(g2, h) == WordsAt(g1, h) && KeyHeld(g1.table, sh, rec[1..1 + sh.kw], MapParts(g1, h))
    ensures KeyHeld(g2.table, sh, rec[1..1 + sh.kw], MapParts(g2, h)) && EntryOf(g2.table, sh, rec) == EntryOf(g1.table, sh, rec)
    ensures Holds(g2, h, 8) && |WordsAt(g2, h)| == 8
  {
    hide HandleAt, DerefOf, KeyHeld, KeyOf, RecsOk, Recs, Holds, OnlyChanged;
    RecsSize(g2, h, sh);
    KeyKept(g1, g2, sh, rec[1..1 + sh.kw], MapParts(g1, h), {IdxOf(Fld(g1, h, INDEX))});
  }

  lemma AllChanged(g: Gc, g1: Gc, g2: Gc, g3: Gc, h: Word)
    requires OnlyChanged(g, g1, {IdxOf(Fld(g, h, ENTRIES))}) && OnlyChanged(g1, g2, {IdxOf(Fld(g, h, INDEX))}) && OnlyChanged(g2, g3, {IdxOf(h)})
    ensures OnlyChanged(g, g3, MapParts(g, h))
  {
  }

  // ----- changing a record -----

  // The words v at offset off of record i, and the count of live records with it.
  lemma Rewritten(g: Gc, g3: Gc, h: Word, sh: Shape, i: nat, off: nat, v: seq<Word>, rec: seq<Word>, len: nat)
    requires RecsOk(g, h, sh) && i < Fld(g, h, NENT) && off + |v| <= sh.Size()
    requires OnlyChanged(g, g3, MapParts(g, h)) && Holds(g3, h, 8) && len < U64 && WordsAt(g3, h) == WordsAt(g, h)[MLEN := len]
    requires Holds(g3, Fld(g, h, ENTRIES), Fld(g, h, ECAP) * sh.Size())
    requires Fld(g, h, ICAP) > 0 ==> Holds(g3, Fld(g, h, INDEX), Fld(g, h, ICAP))
    requires var ws, at := WordsAt(g, Fld(g, h, ENTRIES)), i * sh.Size();
             && 0 <= at && at + sh.Size() <= |ws| && WordsAt(g3, Fld(g, h, ENTRIES)) == Spliced(ws, at + off, v)
             && rec == Spliced(ws[at..at + sh.Size()], off, v)
    requires rec[0] == 1 ==> KeyHeld(g.table, sh, rec[1..1 + sh.kw], MapParts(g, h))
    requires i < |Recs(g, h, sh)|
    requires len + (if Recs(g, h, sh)[i].alive then 1 else 0) == Fld(g, h, MLEN) + (if rec[0] == 1 then 1 else 0)
    requires H.DistinctAlive(Recs(g, h, sh)[i := EntryOf(g.table, sh, rec)])
    ensures RecsOk(g3, h, sh) && Recs(g3, h, sh) == Recs(g, h, sh)[i := EntryOf(g.table, sh, rec)]
    ensures MapParts(g3, h) == MapParts(g, h)
  {
    hide HandleAt, DerefOf, LiveWords, LiveCount, Decoded, KeysHeld, KeysSame, H.DistinctAlive, KeyHeld, KeyOf, Spliced,
         H.AliveCount;
    var s, n, e := sh.Size(), Fld(g, h, NENT), Fld(g, h, ENTRIES);
    var ws, ws3 := WordsAt(g, e), WordsAt(g3, e);
    MapHolds(g, h, s);
    RecsAre(g, h, sh);
    DecodedUpdate(g.table, sh, ws, n, i, off, v, MapParts(g, h));
    KeysElse(g, g3, sh, LiveWords(ws3, s, n), MapParts(g, h), MapParts(g, h));
    DecodedFrame(g.table, g3.table, sh, ws3, n, MapParts(g, h), MapParts(g, h));
    H.CountUpdate(Recs(g, h, sh), i, EntryOf(g.table, sh, rec));
    AliveIsLive(g3.table, sh, ws3, n);
    LiveSize(ws3, s, n);
    DivModUnique(LiveCount(ws3, s, n) * s, LiveCount(ws3, s, n), 0, s);
  }

  lemma RecordFacts(g: Gc, h: Word, sh: Shape, i: nat)
    requires RecsOk(g, h, sh) && i < |Recs(g, h, sh)|
    ensures var e, x, at := Fld(g, h, ENTRIES), Fld(g, h, INDEX), i * sh.Size();
            && sh.Ok() && Holds(g, h, 8) && |WordsAt(g, h)| == 8 && i < Fld(g, h, NENT)
            && Holds(g, e, Fld(g, h, ECAP) * sh.Size()) && Holds(g, e, |WordsAt(g, e)|) && IdxOf(e) != IdxOf(h)
            && 0 <= at && at + sh.Size() <= |WordsAt(g, e)| && |WordsAt(g, e)| == Fld(g, h, ECAP) * sh.Size()
            && (Fld(g, h, ICAP) > 0 ==>
                  Holds(g, x, Fld(g, h, ICAP)) && |WordsAt(g, x)| == Fld(g, h, ICAP) && IdxOf(x) != IdxOf(e) && IdxOf(x) != IdxOf(h))
    ensures var rec := WordsAt(g, Fld(g, h, ENTRIES))[i * sh.Size()..i * sh.Size() + sh.Size()];
            Recs(g, h, sh)[i] == EntryOf(g.table, sh, rec) && (rec[0] == 1 ==> KeyHeld(g.table, sh, rec[1..1 + sh.kw], MapParts(g, h)))
  {
    hide HandleAt, DerefOf, LiveWords, LiveCount, Decoded, KeysHeld, KeyHeld, KeyOf, H.DistinctAlive;
    RecsAre(g, h, sh);
    MapHolds(g, h, sh.Size());
    DecodedAt(g.table, sh, WordsAt(g, Fld(g, h, ENTRIES)), Fld(g, h, NENT), i);
    if Fld(g, h, ICAP) > 0 { HoldsSize(g, Fld(g, h, INDEX), Fld(g, h, ICAP)); }
  }

  // The value of an existing key.
  method Overwrite(c: Collector, h: Word, i: nat, val: seq<Word>, sh: Shape)
    requires c.Valid() && MapValid(c.View(), h, sh) && i < |Recs(c.View(), h, sh)| && Recs(c.View(), h, sh)[i].alive && |val| == sh.vw
    modifies c`table
    ensures c.Valid() && MapValid(c.View(), h, sh)
    ensures Dict(c.View(), h, sh) == D.Put(old(Dict(c.View(), h, sh)), old(Recs(c.View(), h, sh))[i].key, val)
    ensures OnlyChanged(old(c.View()), c.View(), old(MapParts(c.View(), h))) && MapParts(c.View(), h) == old(MapParts(c.View(), h))
  {
    hide Inv, HandleAt, DerefOf, OnlyChanged, Holds, Entries, MapOk, Spliced, RecsOk, Recs, KeyHeld, KeyOf, H.IndexOk,
         H.DistinctAlive, H.Contents, H.PowerOrNone, D.Put, Ints, H.AliveCount;
    ghost var g := c.View();
    RecordFacts(g, h, sh, i);
    RecsSize(g, h, sh);
    LookupFacts(g, h, sh);
    var e := Load(c, h, ENTRIES);
    ghost var rec := WordsAt(g, e)[i * sh.Size()..i * sh.Size() + sh.Size()];
    NewValue(g.table, sh, rec, val);
    H.ContentsUpdate(Recs(g, h, sh), i, val);
    H.UpdateKeeps(sh.hash, Recs(g, h, sh), Slots(g, h), i, val);
    StoreWords(c, e, i * sh.Size() + (1 + sh.kw), val);
    ghost var g3 := c.View();
    ChangedMore(g, g3, {IdxOf(e)}, MapParts(g, h));
    Elsewhere(g, g3, {IdxOf(e)}, h, 8);
    if Fld(g, h, ICAP) > 0 { Elsewhere(g, g3, {IdxOf(e)}, Fld(g, h, INDEX), Fld(g, h, ICAP)); }
    assert WordsAt(g, h)[MLEN := Fld(g, h, MLEN)] == WordsAt(g, h);
    Rewritten(g, g3, h, sh, i, 1 + sh.kw, val, Spliced(rec, 1 + sh.kw, val), Fld(g, h, MLEN));
  }

  lemma NewValue(t: seq<Slot>, sh: Shape, rec: seq<Word>, val: seq<Word>)
    requires |rec| == sh.Size() && |val| == sh.vw && rec[0] == 1
    ensures var rec2 := Spliced(rec, 1 + sh.kw, val);
            rec2[0] == rec[0] && rec2[1..1 + sh.kw] == rec[1..1 + sh.kw] && EntryOf(t, sh, rec2) == EntryOf(t, sh, rec).(val := val)
  {
    hide KeyOf;
    var rec2 := Spliced(rec, 1 + sh.kw, val);
    assert rec2[1..1 + sh.kw] == rec[1..1 + sh.kw];
    assert rec2[1 + sh.kw..] == val;
  }

  // ----- cl_map_set -----

  // A string key is an object that the roots or the map's records lead to past the
  // map's own: what the caller owes by keeping it rooted.
  ghost predicate KeyRooted(g: Gc, h: Word, sh: Shape, key: seq<Word>) {
    sh.str && key != [] ==>
      HandleAt(g.table, key[0]).Just? && Beside(g, Entries(g, h, sh.Size()), MapParts(g, h), HandleAt(g.table, key[0]).value)
  }

  lemma KeySpared(g: Gc, g1: Gc, h: Word, sh: Shape, key: seq<Word>)
    requires KeyRooted(g, h, sh, key) && Spared(g, g1, h, sh.Size())
    ensures KeyOf(g1.table, sh, key) == KeyOf(g.table, sh, key) && KeyHeld(g1.table, sh, key, MapParts(g1, h))
  {
    hide Reach, Entries;
  }

  // Whatever is collected on the way, the map becomes the dictionary with the key
  // put, and nothing else the program can still get at has changed.
  method MapSet(c: Collector, h: Word, key: seq<Word>, val: seq<Word>, sh: Shape)
    requires c.Valid() && Room(c.View(), 2) && MapValid(c.View(), h, sh) && Led(c.View(), h) && Fits(c.View(), h, sh.Size())
    requires |key| == sh.kw && |val| == sh.vw && KeyRooted(c.View(), h, sh, key)
    modifies c
    ensures c.Valid() && MapValid(c.View(), h, sh) && Led(c.View(), h)
    ensures Dict(c.View(), h, sh) == D.Put(old(Dict(c.View(), h, sh)), old(KeyOf(c.table, sh, key)), val)
    ensures Spared(old(c.View()), c.View(), h, sh.Size())
  {
    hide Inv, Reach, HandleAt, DerefOf, Holds, Entries, MapOk, Room, Reachable, AllRoots, Beside, Spared, Fits, Led,
         RecsOk, Recs, Slots, KeyOf, KeyHeld, KeyRooted, H.IndexOk, H.PowerOrNone, D.Put, D.Has, H.Contents, MapValid,
         OnlyChanged, H.DistinctAlive;
    ghost var g := c.View();
    LedReach(g, h);
    LookupFacts(g, h, sh);
    SparedNothing(g, h, sh.Size());
    var at, p := MapFind(c, h, key, sh);
    if at.Just? {
      Overwrite(c, h, at.value, val, sh);
      SparedThen(g, g, c.View(), h, sh.Size());
    } else {
      H.ContentsAbsent(Recs(g, h, sh), KeyOf(g.table, sh, key));
      D.PutOrder(Dict(g, h, sh), KeyOf(g.table, sh, key), val);
      MakeRoom(c, h, sh);
      ghost var g1 := c.View();
      KeySpared(g, g1, h, sh, key);
      RoomierHere(g, g1, h, sh);
      AppendEntry(c, h, key, val, sh);
      SparedThen(g, g1, c.View(), h, sh.Size());
    }
    LedKept(g, c.View(), h, sh.Size());
  }

  lemma RoomierHere(g: Gc, g1: Gc, h: Word, sh: Shape)
    requires Roomier(g, g1, h, sh) && Reachable(g, IdxOf(h)) && Led(g, h)
    ensures Roomier(g1, g1, h, sh) && Dict(g1, h, sh) == Dict(g, h, sh) && Spared(g, g1, h, sh.Size())
  {
    hide Reach, Beside, Recs, Slots, Entries, MapOk, H.IndexOk, KeysHeld, H.DistinctAlive;
    LedKept(g, g1, h, sh.Size());
    LedReach(g1, h);
    SparedNothing(g1, h, sh.Size());
  }

  // ----- cl_map_del -----

  // What a dead record's key is does not matter.
  lemma {:induction false} DeadKey(es: seq<Rec>, i: nat, a: Rec, b: Rec)
    requires i < |es| && !a.alive && !b.alive
    ensures H.Contents(es[i := a]) == H.Contents(es[i := b])
    decreases |es|
  {
    var n := |es| - 1;
    assert es[i := a][..n] == (if i < n then es[..n][i := a] else es[..n]);
    assert es[i := b][..n] == (if i < n then es[..n][i := b] else es[..n]);
    if i < n { DeadKey(es[..n], i, a, b); }
  }

  lemma DeadIndex(hash: seq<nat> -> nat, es: seq<Rec>, i: nat, a: Rec, b: Rec, index: seq<int>)
    requires i < |es| && !a.alive && !b.alive && H.IndexOk(hash, es[i := a], index, |es|)
    ensures H.IndexOk(hash, es[i := b], index, |es|)
    ensures H.DistinctAlive(es) ==> H.DistinctAlive(es[i := b])
  {
    hide H.Probe;
    var x, y := es[i := a], es[i := b];
    forall j | 0 <= j < |es| && y[j].alive ensures H.Found(index, hash(y[j].key), j) { assert x[j] == y[j]; }
  }

  method MapDel(c: Collector, h: Word, key: seq<Word>, sh: Shape)
    requires c.Valid() && MapValid(c.View(), h, sh) && |key| == sh.kw
    modifies c`table
    ensures c.Valid() && MapValid(c.View(), h, sh)
    ensures Dict(c.View(), h, sh) == D.Remove(old(Dict(c.View(), h, sh)), old(KeyOf(c.table, sh, key)))
    ensures OnlyChanged(old(c.View()), c.View(), old(MapParts(c.View(), h))) && MapParts(c.View(), h) == old(MapParts(c.View(), h))
  {
    hide Inv, HandleAt, DerefOf, OnlyChanged, Holds, Entries, MapOk, RecsOk, Recs, Slots, KeyOf, KeyHeld, H.IndexOk,
         H.PowerOrNone, D.Remove, H.Contents, MapValid, H.DistinctAlive;
    ghost var g := c.View();
    ghost var es := Recs(g, h, sh);
    LookupFacts(g, h, sh);
    SameChanged(g, MapParts(g, h));
    var at, p := MapFind(c, h, key, sh);
    if at.Nothing? {
      H.ContentsAbsent(es, KeyOf(g.table, sh, key));
      H.RemoveAbsent(Dict(g, h, sh), KeyOf(g.table, sh, key));
      return;
    }
    H.ContentsUpdate(es, at.value, es[at.value].val);
    Kill(c, h, at.value, p, sh);
  }

  // Tombstones in the entries and in the index.
  method Kill(c: Collector, h: Word, i: nat, p: nat, sh: Shape)
    requires c.Valid() && MapValid(c.View(), h, sh) && i < |Recs(c.View(), h, sh)| && Recs(c.View(), h, sh)[i].alive
    requires p < |Slots(c.View(), h)| && Slots(c.View(), h)[p] == i + 1
    modifies c`table
    ensures c.Valid() && MapValid(c.View(), h, sh)
    ensures Dict(c.View(), h, sh) == H.Contents(old(Recs(c.View(), h, sh))[i := old(Recs(c.View(), h, sh))[i].(alive := false)])
    ensures OnlyChanged(old(c.View()), c.View(), old(MapParts(c.View(), h))) && MapParts(c.View(), h) == old(MapParts(c.View(), h))
  {
    hide Inv, HandleAt, DerefOf, OnlyChanged, Holds, Entries, MapOk, Spliced, RecsOk, Recs, KeyHeld, KeyOf, H.IndexOk,
         H.DistinctAlive, H.Contents, H.PowerOrNone, Ints, H.AliveCount, MapValid;
    ghost var g := c.View();
    KillFacts(g, h, sh, i, p);
    var e := Load(c, h, ENTRIES);
    var x := Load(c, h, INDEX);
    ghost var rec := WordsAt(g, e)[i * sh.Size()..i * sh.Size() + sh.Size()];
    Tombstones(c, h, e, i * sh.Size() + 0, x, p);
    Killed(g, c.View(), h, sh, i, p, rec);
  }

  method Tombstones(c: Collector, h: Word, e: Word, at: nat, x: Word, p: nat)
    requires c.Valid() && Holds(c.View(), h, 8) && |WordsAt(c.View(), h)| == 8 && Fld(c.View(), h, MLEN) > 0
    requires Holds(c.View(), e, |WordsAt(c.View(), e)|) && at < |WordsAt(c.View(), e)|
    requires Holds(c.View(), x, |WordsAt(c.View(), x)|) && p < |WordsAt(c.View(), x)|
    requires IdxOf(e) != IdxOf(h) && IdxOf(x) != IdxOf(h) && IdxOf(x) != IdxOf(e)
    modifies c`table
    ensures c.Valid() && OnlyChanged(old(c.View()), c.View(), {IdxOf(h), IdxOf(e), IdxOf(x)})
    ensures Holds(c.View(), h, 8) && WordsAt(c.View(), h) == old(WordsAt(c.View(), h))[MLEN := old(Fld(c.View(), h, MLEN)) - 1]
    ensures Holds(c.View(), e, |old(WordsAt(c.View(), e))|) && WordsAt(c.View(), e) == Spliced(old(WordsAt(c.View(), e)), at, [0])
    ensures Holds(c.View(), x, |old(WordsAt(c.View(), x))|) && WordsAt(c.View(), x) == old(WordsAt(c.View(), x))[p := U64 - 1]
  {
    hide Inv, HandleAt, DerefOf, OnlyChanged, Holds, Spliced;
    ghost var g := c.View();
    StoreWords(c, e, at, [0]);
    ghost var g1 := c.View();
    Elsewhere(g, g1, {IdxOf(e)}, h, 8);
    Elsewhere(g, g1, {IdxOf(e)}, x, |WordsAt(g, x)|);
    Store(c, x, p, U64 - 1);
    ghost var g2 := c.View();
    Elsewhere(g1, g2, {IdxOf(x)}, h, 8);
    Elsewhere(g1, g2, {IdxOf(x)}, e, |WordsAt(g, e)|);
    var len := Load(c, h, MLEN);
    Store(c, h, MLEN, len - 1);
    Elsewhere(g2, c.View(), {IdxOf(h)}, e, |WordsAt(g, e)|);
    Elsewhere(g2, c.View(), {IdxOf(h)}, x, |WordsAt(g, x)|);
    ChangedTrans(g, g1, g2, {IdxOf(e)}, {IdxOf(x)});
    ChangedTrans(g, g2, c.View(), {IdxOf(e)} + {IdxOf(x)}, {IdxOf(h)});
    assert {IdxOf(e)} + {IdxOf(x)} + {IdxOf(h)} == {IdxOf(h), IdxOf(e), IdxOf(x)};
  }

  lemma KillFacts(g: Gc, h: Word, sh: Shape, i: nat, p: nat)
    requires MapValid(g, h, sh) && i < |Recs(g, h, sh)| && Recs(g, h, sh)[i].alive && p < |Slots(g, h)|
    ensures var e, x, at := Fld(g, h, ENTRIES), Fld(g, h, INDEX), i * sh.Size();
            && Holds(g, h, 8) && |WordsAt(g, h)| == 8 && Fld(g, h, ICAP) > 0 && Fld(g, h, MLEN) > 0
            && Holds(g, e, Fld(g, h, ECAP) * sh.Size()) && Holds(g, e, |WordsAt(g, e)|) && IdxOf(e) != IdxOf(h)
            && 0 <= at && at + sh.Size() <= |WordsAt(g, e)| && |WordsAt(g, e)| == Fld(g, h, ECAP) * sh.Size()
            && Holds(g, x, Fld(g, h, ICAP)) && |WordsAt(g, x)| == Fld(g, h, ICAP) && IdxOf(x) != IdxOf(e) && IdxOf(x) != IdxOf(h)
            && p < |WordsAt(g, x)|
  {
    hide HandleAt, DerefOf, MapOk, H.DistinctAlive, H.IndexOk, Recs, H.PowerOrNone;
    RecordFacts(g, h, sh, i);
    RecsSize(g, h, sh);
    H.AllDead(Recs(g, h, sh));
  }

  lemma Killed(g: Gc, g3: Gc, h: Word, sh: Shape, i: nat, p: nat, rec: seq<Word>)
    requires MapValid(g, h, sh) && i < |Recs(g, h, sh)| && Recs(g, h, sh)[i].alive && p < |Slots(g, h)| && Slots(g, h)[p] == i + 1
    requires OnlyChanged(g, g3, MapParts(g, h)) && Holds(g3, h, 8) && Fld(g, h, MLEN) > 0
    requires WordsAt(g3, h) == WordsAt(g, h)[MLEN := Fld(g, h, MLEN) - 1]
    requires Holds(g3, Fld(g, h, ENTRIES), Fld(g, h, ECAP) * sh.Size()) && Holds(g3, Fld(g, h, INDEX), Fld(g, h, ICAP))
    requires var ws, at := WordsAt(g, Fld(g, h, ENTRIES)), i * sh.Size();
             && 0 <= at && at + sh.Size() <= |ws| && WordsAt(g3, Fld(g, h, ENTRIES)) == Spliced(ws, at + 0, [0]) && rec == ws[at..at + sh.Size()]
    requires Fld(g, h, ICAP) > 0 && p < |WordsAt(g, Fld(g, h, INDEX))|
    requires WordsAt(g3, Fld(g, h, INDEX)) == WordsAt(g, Fld(g, h, INDEX))[p := U64 - 1]
    ensures MapValid(g3, h, sh) && MapParts(g3, h) == MapParts(g, h)
    ensures Dict(g3, h, sh) == H.Contents(Recs(g, h, sh)[i := Recs(g, h, sh)[i].(alive := false)])
  {
    hide HandleAt, DerefOf, MapOk, H.DistinctAlive, H.IndexOk, Recs, H.PowerOrNone, Ints, RecsOk, KeyHeld, KeyOf,
         H.Contents, Holds, OnlyChanged;
    var es := Recs(g, h, sh);
    var rec2 := Spliced(rec, 0, [0]);
    var dead, e2 := es[i].(alive := false), EntryOf(g.table, sh, rec2);
    RecordFacts(g, h, sh, i);
    LookupFacts(g, h, sh);
    H.DelKeeps(sh.hash, es, Slots(g, h), i, p);
    DeadIndex(sh.hash, es, i, dead, e2, Slots(g, h)[p := -1]);
    DeadKey(es, i, dead, e2);
    IntsSet(WordsAt(g, Fld(g, h, INDEX)), p, U64 - 1);
    Rewritten(g, g3, h, sh, i, 0, [0], rec2, Fld(g, h, MLEN) - 1);
  }

  // ----- cl_map_new, cl_map_keys -----

  method MapNew(c: Collector, sh: Shape) returns (h: Word)
    requires c.Valid() && Room(c.View(), 1) && sh.Ok() && 8 * sh.Size() < INDEXES
    modifies c
    ensures c.Valid() && MapValid(c.View(), h, sh) && Dict(c.View(), h, sh) == []
    ensures Untouched(old(c.View()), c.View(), {}) && AllRoots(c.View()) == old(AllRoots(c.View())) && !Reachable(old(c.View()), IdxOf(h))
  {
    hide Inv, Collect, Reach, Alloc, MaybeCollect, HandleAt, DerefOf, Holds, Room, Untouched, Reachable, AllRoots,
         OnlyChanged, MapValid, Recs;
    ghost var g := c.View();
    RoomFirst(g, 1);
    AllocFrame(g, 64);
    h := c.Allocate(64);
    ghost var g1 := c.View();
    FreshHolds(g, 64, g1, h, 8);
    Zeroed(g, 64, g1, h);
    Store(c, h, SHAPE, 8 * sh.Size() + (if sh.str then INDEXES else 0));
    NewMap(g, g1, c.View(), h, sh);
  }

  lemma NewMap(g: Gc, g1: Gc, g2: Gc, h: Word, sh: Shape)
    requires Untouched(g, g1, {}) && AllRoots(g1) == AllRoots(g) && !Reachable(g, IdxOf(h)) && sh.Ok() && 8 * sh.Size() < INDEXES
    requires WordsAt(g1, h) == seq(8, _ => 0 as Word) && OnlyChanged(g1, g2, {IdxOf(h)}) && Holds(g2, h, 8)
    requires WordsAt(g2, h) == WordsAt(g1, h)[SHAPE := 8 * sh.Size() + (if sh.str then INDEXES else 0)]
    ensures MapValid(g2, h, sh) && Dict(g2, h, sh) == []
    ensures Untouched(g, g2, {}) && AllRoots(g2) == AllRoots(g)
  {
    hide Reach, HandleAt, DerefOf, Holds;
    UntouchedThen(g, g1, g2, {}, {IdxOf(h)});
    UntouchedLess(g, g2, {} + {IdxOf(h)}, {});
  }

  // The keys a list of key words stands for.
  function ListedKeys(t: seq<Slot>, sh: Shape, items: seq<Word>, n: nat): seq<seq<nat>>
    requires n * sh.kw <= |items|
  {
    if n == 0 then []
    else
      RecordFits(sh.kw, n - 1, n);
      ListedKeys(t, sh, items, n - 1) + [KeyOf(t, sh, items[(n - 1) * sh.kw..(n - 1) * sh.kw + sh.kw])]
  }

  lemma {:induction false} ListedMore(t: seq<Slot>, sh: Shape, items: seq<Word>, n: nat, key: seq<Word>)
    requires |items| == n * sh.kw && |key| == sh.kw
    ensures |items + key| == (n + 1) * sh.kw && ListedKeys(t, sh, items + key, n + 1) == ListedKeys(t, sh, items, n) + [KeyOf(t, sh, key)]
  {
    RecordFits(sh.kw, n, n + 1);
    ListedPrefix(t, sh, items, key, n);
    assert (items + key)[n * sh.kw..n * sh.kw + sh.kw] == key;
  }

  lemma {:induction false} ListedPrefix(t: seq<Slot>, sh: Shape, items: seq<Word>, more: seq<Word>, n: nat)
    requires n * sh.kw <= |items|
    ensures ListedKeys(t, sh, items + more, n) == ListedKeys(t, sh, items, n)
    decreases n
  {
    hide KeyOf;
    if n > 0 {
      RecordFits(sh.kw, n - 1, n);
      ListedPrefix(t, sh, items, more, n - 1);
      var m := (n - 1) * sh.kw;
      assert (items + more)[m..m + sh.kw] == items[m..m + sh.kw];
    }
  }

  // The listed words are the dictionary's keys, in its order.
  lemma {:induction false} KeysListed(t: seq<Slot>, sh: Shape, ws: seq<Word>, n: nat)
    requires sh.Ok() && n * sh.Size() <= |ws|
    ensures var c := LiveCount(ws, sh.Size(), n);
            && |KeyWords(ws, sh.Size(), sh.kw, n)| == c * sh.kw
            && ListedKeys(t, sh, KeyWords(ws, sh.Size(), sh.kw, n), c) == D.Keys(H.Contents(Decoded(t, sh, ws, n)))
    decreases n
  {
    hide KeyOf, LiveCount, KeyWords, Decoded, EntryOf, H.Contents, D.Keys, ListedKeys, LiveWords;
    NoneListed(t, sh, ws);
    if n > 0 {
      var s, m := sh.Size(), (n - 1) * sh.Size();
      RecordFits(s, n - 1, n);
      KeysListed(t, sh, ws, n - 1);
      DecodedStep(t, sh, ws, n, {});
      CopyStep(ws, s, n - 1, n);
      var rec := ws[m..m + s];
      ContentsStep(t, sh, Decoded(t, sh, ws, n - 1), rec);
      KeyWordsStep(ws, sh, n);
      if ws[m] == 1 {
        ListedMore(t, sh, KeyWords(ws, s, sh.kw, n - 1), LiveCount(ws, s, n - 1), rec[1..1 + sh.kw]);
      } else {
        assert KeyWords(ws, s, sh.kw, n) == KeyWords(ws, s, sh.kw, n - 1);
      }
    }
  }

  lemma NoneListed(t: seq<Slot>, sh: Shape, ws: seq<Word>)
    requires sh.Ok()
    ensures LiveCount(ws, sh.Size(), 0) == 0 && KeyWords(ws, sh.Size(), sh.kw, 0) == [] && ListedKeys(t, sh, [], 0) == []
    ensures D.Keys(H.Contents(Decoded(t, sh, ws, 0))) == []
  {
  }

  lemma SliceInside(ws: seq<Word>, m: nat, s: nat, a: nat, b: nat)
    requires m + s <= |ws| && a <= b <= s
    ensures ws[m..m + s][a..b] == ws[m + a..m + b]
  {
    var x, y := ws[m..m + s][a..b], ws[m + a..m + b];
    forall k | 0 <= k < |x| ensures x[k] == y[k] { assert x[k] == ws[m..m + s][a + k] == ws[m + (a + k)]; }
  }

  lemma KeyWordsStep(ws: seq<Word>, sh: Shape, n: nat)
    requires sh.Ok() && n > 0 && n * sh.Size() <= |ws|
    ensures var s, m := sh.Size(), (n - 1) * sh.Size();
            && 0 <= m && m + s <= |ws| && (n - 1) * s <= |ws|
            && KeyWords(ws, s, sh.kw, n) == KeyWords(ws, s, sh.kw, n - 1) + (if ws[m] == 1 then ws[m..m + s][1..1 + sh.kw] else [])
  {
    RecordFits(sh.Size(), n - 1, n);
    var m := (n - 1) * sh.Size();
    SliceInside(ws, m, sh.Size(), 1, 1 + sh.kw);
  }

  lemma ContentsStep(t: seq<Slot>, sh: Shape, front: seq<Rec>, rec: seq<Word>)
    requires |rec| == sh.Size()
    ensures D.Keys(H.Contents(front + [EntryOf(t, sh, rec)]))
         == D.Keys(H.Contents(front)) + (if rec[0] == 1 then [KeyOf(t, sh, rec[1..1 + sh.kw])] else [])
  {
    hide KeyOf;
    var e := EntryOf(t, sh, rec);
    assert (front + [e])[..|front|] == front;
    KeysAppend(H.Contents(front), if e.alive then [(e.key, e.val)] else []);
  }

  lemma KeysAppend<K, V>(d: D.Dict<K, V>, e: D.Dict<K, V>)
    ensures D.Keys(d + e) == D.Keys(d) + D.Keys(e)
  {
  }

  // cl_map_keys: the dictionary's keys in insertion order, in a new vector, though
  // any push may have collected.
  method MapKeyList(c: Collector, h: Word, sh: Shape) returns (out: Word)
    requires c.Valid() && MapValid(c.View(), h, sh) && Reachable(c.View(), IdxOf(h))
    requires Room(c.View(), Fld(c.View(), h, NENT) + 1) && (4 * Fld(c.View(), h, NENT) + 16) * (8 * sh.kw) < U64
    modifies c
    ensures c.Valid() && VecOk(c.View(), out, sh.kw) && Untouched(old(c.View()), c.View(), {})
    ensures c.roots == old(c.roots) && c.pins == old(c.pins)
    ensures var n := Fld(c.View(), out, LEN);
            && n * sh.kw <= |Items(c.View(), out, sh.kw)|
            && ListedKeys(c.table, sh, Items(c.View(), out, sh.kw), n) == D.Keys(old(Dict(c.View(), h, sh)))
  {
    hide Inv, Reach, HandleAt, DerefOf, Holds, Entries, MapOk, Room, Reachable, Untouched, MapValid, VecOk, Items, Recs,
         KeysHeld;
    ghost var g := c.View();
    LookupFacts(g, h, sh);
    FindFacts(g, h, sh);
    out := MapKeys(c, h, sh.Size(), sh.kw);
    ListedSame(g, c.View(), h, sh);
  }

  lemma ListedSame(g: Gc, g2: Gc, h: Word, sh: Shape)
    requires MapValid(g, h, sh) && Reachable(g, IdxOf(h)) && Untouched(g, g2, {})
    ensures var ws, n := WordsAt(g, Fld(g, h, ENTRIES)), Fld(g, h, NENT);
            && n * sh.Size() <= |ws| && |KeyWords(ws, sh.Size(), sh.kw, n)| == Fld(g, h, MLEN) * sh.kw
            && ListedKeys(g2.table, sh, KeyWords(ws, sh.Size(), sh.kw, n), Fld(g, h, MLEN)) == D.Keys(Dict(g, h, sh))
  {
    hide Reach, HandleAt, DerefOf, Reachable, LiveWords, LiveCount, Decoded, KeysHeld, KeyWords, ListedKeys,
         H.DistinctAlive, H.IndexOk, D.Keys, H.Contents;
    var ws, n := WordsAt(g, Fld(g, h, ENTRIES)), Fld(g, h, NENT);
    MapHolds(g, h, sh.Size());
    RecsAre(g, h, sh);
    EntriesHeld(g, h, sh.Size());
    if Fld(g, h, ECAP) > 0 {
      HeldSame(g, g2, sh, Entries(g, h, sh.Size()), MapParts(g, h));
      DecodedFrame(g.table, g2.table, sh, ws, n, MapParts(g, h), {});
    } else {
      NoneDecoded(g2.table, sh, ws, {});
    }
    KeysListed(g2.table, sh, ws, n);
    assert Recs(g, h, sh) == Decoded(g2.table, sh, ws, n);
    AliveIsLive(g2.table, sh, ws, n);
  }

  lemma HeldSame(g: Gc, g2: Gc, sh: Shape, live: seq<Word>, parts: set<nat>)
    requires HeldWords(g, live) && Untouched(g, g2, {})
    ensures KeysSame(g.table, g2.table, sh, live, parts, {})
  {
    hide Reach;
  }
}
