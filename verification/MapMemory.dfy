// The maps of bootstrap/runtime/cardinal_rt.c as words on the collected heap: the
// two allocations of a rehash, one after the other, and the listing of the keys,
// a loop of pushes. Everything still in use is kept.
module MapMemory {
  import opened Handles
  import opened Modular
  import opened GcModel
  import opened GcProps
  import opened Collectors
  import opened GcMutate
  import opened Containers

  // cl_map_hdr: len, nent, ecap, icap, keysz|valsz, stride|kind, entries, index.
  const MLEN := 0
  const NENT := 1
  const ECAP := 2
  const ICAP := 3
  const SHAPE := 5
  const ENTRIES := 6
  const INDEX := 7

  // ----- entry records: state, key words, value words -----

  function Record(ws: seq<Word>, s: nat, i: nat): seq<Word>
    requires (i + 1) * s <= |ws| && 0 <= i * s <= (i + 1) * s
  {
    ws[i * s..(i + 1) * s]
  }

  lemma RecordFits(s: nat, i: nat, n: nat)
    requires i < n
    ensures 0 <= i * s && (i + 1) * s == i * s + s && (i + 1) * s <= n * s
  {
    MulMono(i, i + 1, s);
    MulMono(i + 1, n, s);
  }

  predicate Live(ws: seq<Word>, s: nat, i: nat)
    requires i * s < |ws|
  {
    ws[i * s] == 1
  }

  // The live records among the first n, in order.
  function LiveWords(ws: seq<Word>, s: nat, n: nat): seq<Word>
    requires s > 0 && n * s <= |ws|
  {
    if n == 0 then []
    else
      RecordFits(s, n - 1, n);
      LiveWords(ws, s, n - 1) + (if Live(ws, s, n - 1) then Record(ws, s, n - 1) else [])
  }

  function LiveCount(ws: seq<Word>, s: nat, n: nat): nat
    requires s > 0 && n * s <= |ws|
  {
    if n == 0 then 0
    else
      RecordFits(s, n - 1, n);
      LiveCount(ws, s, n - 1) + (if Live(ws, s, n - 1) then 1 else 0)
  }

  lemma {:induction false} LiveSize(ws: seq<Word>, s: nat, n: nat)
    requires s > 0 && n * s <= |ws|
    ensures |LiveWords(ws, s, n)| == LiveCount(ws, s, n) * s && LiveCount(ws, s, n) <= n
    decreases n
  {
    if n > 0 {
      RecordFits(s, n - 1, n);
      LiveSize(ws, s, n - 1);
      RecordFits(s, LiveCount(ws, s, n - 1), LiveCount(ws, s, n - 1) + 1);
    }
  }

  // A map whose records take s words.
  ghost predicate MapOk(g: Gc, h: Word, s: nat) {
    var entries, index, nent, ecap, icap := Fld(g, h, ENTRIES), Fld(g, h, INDEX), Fld(g, h, NENT), Fld(g, h,
        ECAP), Fld(g, h, ICAP);
    && Holds(g, h, 8) && s >= 2 && Fld(g, h, SHAPE) % INDEXES == 8 * s && nent <= ecap
    && (if ecap == 0 then entries == 0 else Holds(g, entries, ecap * s) && IdxOf(entries) != IdxOf(h))
    && (if icap == 0 then index == 0 else Holds(g, index, icap) && IdxOf(index) != IdxOf(h) && (ecap > 0 ==> IdxOf(index) != IdxOf(entries)))
    && Fld(g, h, MLEN) == |Entries(g, h, s)| / s
  }

  // What the map holds: its live records, in insertion order.
  ghost function Entries(g: Gc, h: Word, s: nat): seq<Word> {
    var ws, nent := WordsAt(g, Fld(g, h, ENTRIES)), Fld(g, h, NENT);
    if s > 0 && Fld(g, h, ECAP) > 0 && nent * s <= |ws| then LiveWords(ws, s, nent) else []
  }

  // Each live record starts with state 1, so the compacted buffer is all live.
  lemma {:induction false} RecordsLive(ws: seq<Word>, s: nat, n: nat, i: nat)
    requires s > 0 && n * s <= |ws| && i < LiveCount(ws, s, n)
    ensures i * s < |LiveWords(ws, s, n)| && LiveWords(ws, s, n)[i * s] == 1
    decreases n
  {
    RecordFits(s, n - 1, n);
    LiveSize(ws, s, n - 1);
    LiveSize(ws, s, n);
    var c := LiveCount(ws, s, n - 1);
    if i < c {
      RecordsLive(ws, s, n - 1, i);
    }
    RecordFits(s, i, LiveCount(ws, s, n));
  }

  lemma {:induction false} AllLive(ws: seq<Word>, s: nat, n: nat)
    requires s > 0 && n * s <= |ws| && forall i :: 0 <= i < n ==> Starts(ws, s, i)
    ensures LiveWords(ws, s, n) == ws[..n * s] && LiveCount(ws, s, n) == n
    decreases n
  {
    if n > 0 {
      RecordFits(s, n - 1, n);
      AllLive(ws, s, n - 1);
      assert Starts(ws, s, n - 1);
      assert ws[..(n - 1) * s] + Record(ws, s, n - 1) == ws[..n * s];
    }
  }

  ghost predicate Starts(ws: seq<Word>, s: nat, i: nat) { i * s < |ws| && ws[i * s] == 1 }

  // The compacted copy holds the same live records.
  lemma CompactLive(ws0: seq<Word>, s: nat, n: nat, ws: seq<Word>)
    requires s > 0 && n * s <= |ws0| && LiveCount(ws0, s, n) * s <= |ws|
    requires ws[..LiveCount(ws0, s, n) * s] == LiveWords(ws0, s, n)
    ensures LiveWords(ws, s, LiveCount(ws0, s, n)) == LiveWords(ws0, s, n)
    ensures |LiveWords(ws0, s, n)| / s == LiveCount(ws0, s, n)
  {
    var c := LiveCount(ws0, s, n);
    LiveSize(ws0, s, n);
    forall i | 0 <= i < c ensures Starts(ws, s, i) {
      RecordsLive(ws0, s, n, i);
      RecordFits(s, i, c);
      assert ws[i * s] == ws[..c * s][i * s];
    }
    AllLive(ws, s, c);
    DivModUnique(c * s, c, 0, s);
  }

  // ----- allocations beside the map -----

  // A reachable object survives an allocation, which is not it.
  lemma AllocHolds(g: Gc, size: nat, h: Word, n: nat)
    requires Inv(g) && Roomy(g) && Holds(g, h, n) && Reachable(g, IdxOf(h))
    ensures Inv(MaybeCollect(g)) && Inv(Alloc(g, size).0)
    ensures var (g2, m) := Alloc(g, size);
            Holds(g2, h, n) && WordsAt(g2, h) == WordsAt(g, h) && IdxOf(h) != m && Reachable(g2, IdxOf(h)) && AllRoots(g2) == AllRoots(g)
  {
    hide Inv, Collect, Reach, Alloc, MaybeCollect;
    AllocFrame(g, size);
    HoldsSame(g, Alloc(g, size).0, h, n);
  }

  lemma FreshHolds(g: Gc, size: nat, g2: Gc, h: Word, n: nat)
    requires Inv(g) && Roomy(g)
    ensures Inv(MaybeCollect(g)) && Inv(Alloc(g, size).0)
    ensures g2 == Alloc(g, size).0 && HandleAt(g2.table, h) == Just(Alloc(g, size).1) && size == n * 8 ==>
              IdxOf(h) == Alloc(g, size).1 && Holds(g2, h, n) && |WordsAt(g2, h)| == n && !Reachable(g, IdxOf(h))
  {
    hide Inv, Collect, Reach;
    AllocFrame(g, size);
    if g2 == Alloc(g, size).0 && HandleAt(g2.table, h) == Just(Alloc(g, size).1) && size == n * 8 { TagNotNull(h); }
  }

  // Objects some way leads to, from the roots or from the words `extra`, without
  // passing through the map's own.
  ghost predicate Beside(g: Gc, extra: seq<Word>, own: set<nat>, j: nat) {
    exists p :: Way(g, extra, own, p) && p[|p| - 1] == j
  }

  ghost predicate Way(g: Gc, extra: seq<Word>, own: set<nat>, p: seq<nat>) {
    IsPath(g.table, AllRoots(g) + [extra], p) && forall k :: 0 <= k < |p| ==> p[k] !in own
  }

  // Every object the words refer to is reachable.
  ghost predicate HeldWords(g: Gc, ws: seq<Word>) {
    forall w :: w in ws && HandleAt(g.table, w).Just? ==> Reachable(g, HandleAt(g.table, w).value)
  }

  lemma {:induction false} WayReached(g: Gc, extra: seq<Word>, p: seq<nat>)
    requires IsPath(g.table, AllRoots(g) + [extra], p) && HeldWords(g, extra)
    ensures Reachable(g, p[|p| - 1])
    decreases |p|
  {
    hide Reach;
    var n := |p| - 1;
    if n == 0 {
      var all := AllRoots(g) + [extra];
      var r :| 0 <= r < |all| && Points(g.table, all[r], p[0]);
      if r < |AllRoots(g)| {
        assert all[r] == AllRoots(g)[r];
        ReachRoot(g.table, AllRoots(g), p[0]);
      }
    } else {
      WayReached(g, extra, p[..n]);
      ReachEdge(g.table, AllRoots(g), p[n - 1], p[n]);
    }
  }

  // The way is still there, and everything on it as before.
  lemma WayKept(g: Gc, g2: Gc, extra: seq<Word>, own: set<nat>, p: seq<nat>)
    requires Way(g, extra, own, p) && HeldWords(g, extra) && Untouched(g, g2, own) && AllRoots(g2) == AllRoots(g)
    ensures Way(g2, extra, own, p) && Same(g.table, g2.table, p[|p| - 1]) && Reachable(g, p[|p| - 1])
  {
    hide Reach;
    forall k | 0 <= k < |p| ensures Same(g.table, g2.table, p[k]) && Reachable(g, p[k]) {
      assert IsPath(g.table, AllRoots(g) + [extra], p[..k + 1]);
      WayReached(g, extra, p[..k + 1]);
    }
    WaySame(g.table, g2.table, AllRoots(g) + [extra], p);
  }

  lemma BesideKept(g: Gc, g2: Gc, extra: seq<Word>, own: set<nat>, j: nat)
    requires Beside(g, extra, own, j) && HeldWords(g, extra) && Untouched(g, g2, own) && AllRoots(g2) == AllRoots(g)
    ensures Beside(g2, extra, own, j) && Same(g.table, g2.table, j) && Reachable(g, j) && j !in own
  {
    hide Reach;
    var p :| Way(g, extra, own, p) && p[|p| - 1] == j;
    WayKept(g, g2, extra, own, p);
  }

  // The live records are among the words of the entries.
  lemma {:induction false} LiveInside(ws: seq<Word>, s: nat, n: nat)
    requires s > 0 && n * s <= |ws|
    ensures forall w :: w in LiveWords(ws, s, n) ==> w in ws
    decreases n
  {
    if n > 0 {
      RecordFits(s, n - 1, n);
      LiveInside(ws, s, n - 1);
    }
  }

  // What the words of a reachable object's object refer to.
  lemma HeldInside(g: Gc, h: Word, k: nat, n: nat, ws: seq<Word>)
    requires Reachable(g, IdxOf(h)) && IdxOf(h) < |g.table| && k < |WordsAt(g, h)|
    requires Holds(g, Fld(g, h, k), n) && forall w :: w in ws ==> w in WordsAt(g, Fld(g, h, k))
    ensures HeldWords(g, ws)
  {
    hide Reach;
    var e := Fld(g, h, k);
    ReachWord(g, IdxOf(h), k, n);
    forall w | w in ws && HandleAt(g.table, w).Just? ensures Reachable(g, HandleAt(g.table, w).value) {
      assert Points(g.table, g.table[IdxOf(e)].words, HandleAt(g.table, w).value);
      assert Edge(g.table, IdxOf(e), HandleAt(g.table, w).value);
      ReachEdge(g.table, AllRoots(g), IdxOf(e), HandleAt(g.table, w).value);
    }
  }

  lemma EntriesHeld(g: Gc, h: Word, s: nat)
    requires MapOk(g, h, s) && Reachable(g, IdxOf(h))
    ensures HeldWords(g, Entries(g, h, s))
  {
    hide Reach, HandleAt, DerefOf, LiveWords;
    MapHolds(g, h, s);
    if Fld(g, h, ECAP) > 0 {
      HeldIn(g, h);
      LiveInside(WordsAt(g, Fld(g, h, ENTRIES)), s, Fld(g, h, NENT));
      HeldInside(g, h, ENTRIES, Fld(g, h, ECAP) * s, Entries(g, h, s));
    }
  }

  lemma ContentHeld(g: Gc, h: Word, s: nat, live: nat, content: seq<Word>)
    requires EntriesOk(g, h, s, live, content) && Reachable(g, IdxOf(h))
    ensures HeldWords(g, content)
  {
    hide Reach, HandleAt, DerefOf, LiveWords;
    HeldIn(g, h);
    LiveInside(WordsAt(g, Fld(g, h, ENTRIES)), s, live);
    HeldInside(g, h, ENTRIES, Fld(g, h, ECAP) * s, content);
  }

  // ----- rehash -----

  // The copying loop: live records of src to the front of dst.
  method CopyLive(c: Collector, src: Word, nent: nat, dst: Word, s: nat)
    requires c.Valid() && IdxOf(src) != IdxOf(dst) && s > 0
    requires Holds(c.View(), src, |WordsAt(c.View(), src)|) && Holds(c.View(), dst, |WordsAt(c.View(), dst)|)
    requires nent * s <= |WordsAt(c.View(), src)| && LiveCount(WordsAt(c.View(), src), s, nent) * s <= |WordsAt(c.View(), dst)|
    modifies c`table
    ensures c.Valid() && OnlyChanged(old(c.View()), c.View(), {IdxOf(dst)}) && Holds(c.View(), dst, |old(WordsAt(c.View(), dst))|)
    ensures WordsAt(c.View(), dst)[..LiveCount(old(WordsAt(c.View(), src)), s, nent) * s] == LiveWords(old(WordsAt(c.View(), src)), s, nent)
  {
    hide Inv, HandleAt, DerefOf, OnlyChanged, Holds, Live, LiveWords, LiveCount;
    ghost var g := c.View();
    ghost var ws := WordsAt(g, src);
    ghost var n := |WordsAt(g, dst)|;
    var w, i := 0, 0;
    CopyStart(g, ws, s);
    while i < nent
      invariant 0 <= i <= nent && c.Valid() && OnlyChanged(g, c.View(), {IdxOf(dst)}) && Holds(c.View(), dst, n)
      invariant 0 <= i * s <= |ws| && w == LiveCount(ws, s, i) && 0 <= w * s <= n == |WordsAt(c.View(), dst)|
      invariant WordsAt(c.View(), dst)[..w * s] == LiveWords(ws, s, i)
    {
      CopyStep(ws, s, i, nent);
      Elsewhere(g, c.View(), {IdxOf(dst)}, src, |ws|);
      ghost var g1 := c.View();
      var st := Load(c, src, i * s);
      if st == 1 {
        CopyWords(c, src, i * s, dst, w * s, s);
        SplicedMiddle(WordsAt(g1, dst), w * s, ws[i * s..i * s + s]);
        ChangedTrans(g, g1, c.View(), {IdxOf(dst)}, {IdxOf(dst)});
        assert {IdxOf(dst)} + {IdxOf(dst)} == {IdxOf(dst)};
        w := w + 1;
      }
      i := i + 1;
    }
  }

  lemma CopyStart(g: Gc, ws: seq<Word>, s: nat)
    requires s > 0
    ensures LiveCount(ws, s, 0) == 0 && LiveWords(ws, s, 0) == [] && OnlyChanged(g, g, {}) && forall x :: OnlyChanged(g, g, x)
  {
  }

  lemma CopyStep(ws: seq<Word>, s: nat, i: nat, nent: nat)
    requires s > 0 && i < nent && nent * s <= |ws|
    ensures 0 <= i * s && (i + 1) * s == i * s + s <= |ws|
    ensures LiveCount(ws, s, i + 1) == LiveCount(ws, s, i) + (if ws[i * s] == 1 then 1 else 0)
    ensures LiveWords(ws, s, i + 1) == LiveWords(ws, s, i) + (if ws[i * s] == 1 then ws[i * s..i * s + s] else [])
    ensures var c := LiveCount(ws, s, i); (c + 1) * s == c * s + s && (ws[i * s] == 1 ==> c * s + s <= LiveCount(ws, s, nent) * s)
  {
    RecordFits(s, i, nent);
    RecordFits(s, LiveCount(ws, s, i), LiveCount(ws, s, i) + 1);
    LiveMore(ws, s, i + 1, nent);
    MulMono(LiveCount(ws, s, i + 1), LiveCount(ws, s, nent), s);
  }

  lemma {:induction false} LiveMore(ws: seq<Word>, s: nat, m: nat, n: nat)
    requires s > 0 && m <= n && n * s <= |ws|
    ensures 0 <= m * s <= |ws| && LiveCount(ws, s, m) <= LiveCount(ws, s, n)
    decreases n
  {
    MulMono(m, n, s);
    if m < n {
      RecordFits(s, n - 1, n);
      LiveMore(ws, s, m, n - 1);
    }
  }

  // The header and the buffers it names, with their sizes.
  lemma MapHolds(g: Gc, h: Word, s: nat)
    requires MapOk(g, h, s)
    ensures Holds(g, h, 8) && |WordsAt(g, h)| == 8 && Fld(g, h, SHAPE) % INDEXES == 8 * s && s >= 2
    ensures var e := Fld(g, h, ENTRIES);
            Fld(g, h, ECAP) > 0 ==> Holds(g, e, Fld(g, h, ECAP) * s) && |WordsAt(g, e)| == Fld(g, h, ECAP) * s && IdxOf(e) != IdxOf(h) && e != 0
    ensures Fld(g, h, ECAP) == 0 ==> Fld(g, h, ENTRIES) == 0
    ensures Fld(g, h, NENT) * s <= Fld(g, h, ECAP) * s
    ensures Fld(g, h, ECAP) > 0 ==>
              var ws, n := WordsAt(g, Fld(g, h, ENTRIES)), Fld(g, h, NENT);
              Entries(g, h, s) == LiveWords(ws, s, n) && Fld(g, h, MLEN) == LiveCount(ws, s, n)
    ensures Fld(g, h, ECAP) == 0 ==> Entries(g, h, s) == [] && Fld(g, h, MLEN) == 0
  {
    hide HandleAt, DerefOf;
    var n := Fld(g, h, NENT);
    MulMono(n, Fld(g, h, ECAP), s);
    if Fld(g, h, ECAP) > 0 {
      var ws := WordsAt(g, Fld(g, h, ENTRIES));
      LiveSize(ws, s, n);
      DivModUnique(LiveCount(ws, s, n) * s, LiveCount(ws, s, n), 0, s);
    }
  }

  // The header and its entries, with `live` of them, all live; the index aside.
  ghost predicate EntriesOk(g: Gc, h: Word, s: nat, live: nat, content: seq<Word>) {
    var e, ecap := Fld(g, h, ENTRIES), Fld(g, h, ECAP);
    && Holds(g, h, 8) && s >= 2 && Fld(g, h, SHAPE) % INDEXES == 8 * s
    && Fld(g, h, MLEN) == Fld(g, h, NENT) == live < ecap
    && Holds(g, e, ecap * s) && IdxOf(e) != IdxOf(h) && live * s <= ecap * s
    && LiveWords(WordsAt(g, e), s, live) == content && |content| / s == live
  }

  // What happens to everything else.
  ghost predicate OthersKept(g: Gc, g2: Gc, h: Word) {
    && Untouched(g, g2, {IdxOf(h)}) && AllRoots(g2) == AllRoots(g) && Reachable(g2, IdxOf(h))
    && IdxOf(h) < |g.table| && IdxOf(h) < |g2.table| && g2.table[IdxOf(h)].gen == g.table[IdxOf(h)].gen && g2.table[IdxOf(h)].used
  }

  // After an allocation, changes to the fresh object and the header alone.
  lemma OthersSafe(g: Gc, g1: Gc, g2: Gc, h: Word, m: nat, s: set<nat>)
    requires Untouched(g, g1, {}) && OnlyChanged(g1, g2, s) && s <= {m, IdxOf(h)} && !Reachable(g, m)
    requires Reachable(g, IdxOf(h)) && AllRoots(g1) == AllRoots(g)
    ensures OthersKept(g, g2, h)
  {
    hide Reach;
    UntouchedThen(g, g1, g2, {}, s);
    UntouchedLess(g, g2, {} + s, {IdxOf(h)});
    ReachUsed(g.table, AllRoots(g), IdxOf(h));
    assert Same(g.table, g1.table, IdxOf(h));
    KeptReach(g, g2, IdxOf(h));
  }

  lemma EntrySize(live: nat, nent: nat, necap: nat, s: nat)
    requires necap == (if live < 4 then 4 else live * 2) && live <= nent && s >= 1 && (2 * nent + 4) * (8 * s) < U64
    ensures necap * (8 * s) == necap * s * 8 && live < necap < U64 && necap * (8 * s) < U64 && live * s <= necap * s
  {
    MulMono(necap, 2 * nent + 4, 8 * s);
    MulMono(live, necap, s);
    MulMono(1, s, 8 * (2 * nent + 4));
    assert (2 * nent + 4) * (8 * s) == s * (8 * (2 * nent + 4));
  }

  // Buffers for twice the entries are within 64-bit sizes.
  predicate Sized(g: Gc, h: Word, s: nat) { (2 * Fld(g, h, NENT) + 4) * (8 * s) < U64 }

  lemma MapSizes(g: Gc, h: Word, s: nat, live: nat, necap: nat)
    requires MapOk(g, h, s) && Sized(g, h, s) && live == Fld(g, h, MLEN) && necap == (if live < 4 then 4 else live * 2)
    ensures necap * (8 * s) == necap * s * 8 && live < necap < U64 && necap * (8 * s) < U64 && live * s <= necap * s
  {
    hide HandleAt, DerefOf, Entries;
    LiveFew(g, h, s);
    MapHolds(g, h, s);
    EntrySize(live, Fld(g, h, NENT), necap, s);
  }

  lemma LiveFew(g: Gc, h: Word, s: nat)
    requires MapOk(g, h, s)
    ensures Fld(g, h, MLEN) <= Fld(g, h, NENT)
    ensures |Entries(g, h, s)| / s == Fld(g, h, MLEN) && |Entries(g, h, s)| == Fld(g, h, MLEN) * s
  {
    hide HandleAt, DerefOf;
    MapHolds(g, h, s);
    if Fld(g, h, ECAP) > 0 { LiveSize(WordsAt(g, Fld(g, h, ENTRIES)), s, Fld(g, h, NENT)); }
  }

  // The fresh buffer, filled; the header still names the old one.
  ghost predicate Fresh(g: Gc, g1: Gc, g2: Gc, h: Word, s: nat, ne: Word, live: nat, necap: nat, size: nat, used: nat) {
    && Untouched(g, g1, {}) && AllRoots(g1) == AllRoots(g) && !Reachable(g, IdxOf(ne)) && OnlyChanged(g1, g2, {IdxOf(ne)}) && Room(g1, 1)
    && Holds(g2, h, 8) && WordsAt(g2, h) == WordsAt(g, h) && |WordsAt(g2, h)| == 8 && IdxOf(ne) != IdxOf(h)
    && size == necap * s && used == live * s <= size && live < necap < U64
    && Holds(g2, ne, size) && |WordsAt(g2, ne)| == size && WordsStart(g2, ne, used, Entries(g, h, s))
  }

  ghost predicate WordsStart(g: Gc, h: Word, n: nat, ws: seq<Word>) { n <= |WordsAt(g, h)| && WordsAt(g, h)[..n] == ws }

  method FreshEntries(c: Collector, h: Word, live: nat, necap: nat, stride: nat, ghost s: nat) returns (nentries: Word,
      ghost g1: Gc)
    requires c.Valid() && Room(c.View(), 2) && MapOk(c.View(), h, s) && Reachable(c.View(), IdxOf(h))
    requires Sized(c.View(), h, s)
    requires stride == 8 * s && live == Fld(c.View(), h, MLEN) && necap == (if live < 4 then 4 else live * 2)
    modifies c
    ensures 0 <= necap * s && 0 <= live * s
    ensures c.Valid() && Fresh(old(c.View()), g1, c.View(), h, s, nentries, live, necap, necap * s, live * s)
  {
    hide Inv, Collect, Reach, Alloc, MaybeCollect, HandleAt, DerefOf, OnlyChanged, Holds, Roomy, Live, LiveWords,
         LiveCount, Entries, MapOk, Room, Untouched, Reachable, AllRoots, Spliced, Sized;
    ghost var g := c.View();
    MapHolds(g, h, s);
    MapSizes(g, h, s, live, necap);
    nentries := FreshBuffer(c, h, necap, stride, s, necap * s);
    g1 := c.View();
    var entries := Load(c, h, ENTRIES);
    var nent := Load(c, h, NENT);
    if entries != 0 && nent != 0 {
      CopyReady(g, g1, h, s);
      CopyLive(c, entries, nent, nentries, stride / 8);
      HoldsSize(c.View(), nentries, necap * s);
    }
    CopiedLive(g, g1, c.View(), h, s, nentries, live, necap, entries, nent);
  }

  lemma HoldsSize(g: Gc, h: Word, n: nat)
    requires Holds(g, h, n)
    ensures |WordsAt(g, h)| == n
  {
  }

  // The first allocation: header and entries survive it.
  method FreshBuffer(c: Collector, h: Word, necap: nat, stride: nat, ghost s: nat, ghost size: nat) returns (ne: Word)
    requires c.Valid() && Room(c.View(), 2) && MapOk(c.View(), h, s) && Reachable(c.View(), IdxOf(h))
    requires stride == 8 * s && necap * (8 * s) == size * 8
    modifies c
    ensures c.Valid() && Room(c.View(), 1)
    ensures Untouched(old(c.View()), c.View(), {}) && AllRoots(c.View()) == old(AllRoots(c.View())) && !Reachable(old(c.View()), IdxOf(ne))
    ensures Holds(c.View(), ne, size) && |WordsAt(c.View(), ne)| == size && IdxOf(ne) != IdxOf(h)
    ensures Holds(c.View(), h, 8) && WordsAt(c.View(), h) == old(WordsAt(c.View(), h)) && |WordsAt(c.View(), h)| == 8
    ensures var e := old(Fld(c.View(), h, ENTRIES));
            old(Fld(c.View(), h, ECAP)) > 0 ==>
              Holds(c.View(), e, |WordsAt(c.View(), e)|) && WordsAt(c.View(), e) == old(WordsAt(c.View(), Fld(c.View(), h, ENTRIES))) && IdxOf(e) != IdxOf(ne)
  {
    hide Inv, Collect, Reach, Alloc, MaybeCollect, HandleAt, DerefOf, OnlyChanged, Holds, Roomy, LiveWords, LiveCount,
         Entries, MapOk, Room, Untouched, Reachable, AllRoots;
    ghost var g := c.View();
    MapHolds(g, h, s);
    RoomFirst(g, 2);
    BothHold(g, h, s, necap * stride);
    AllocRoom(g, necap * stride, 1);
    ne := c.Allocate(necap * stride);
    FreshHolds(g, necap * stride, c.View(), ne, size);
  }

  lemma CopyReady(g: Gc, g1: Gc, h: Word, s: nat)
    requires MapOk(g, h, s) && Fld(g, h, ENTRIES) != 0
    requires Fld(g, h, ECAP) > 0 ==> WordsAt(g1, Fld(g, h, ENTRIES)) == WordsAt(g, Fld(g, h, ENTRIES))
    ensures Fld(g, h, ECAP) > 0
    ensures var ws, n := WordsAt(g1, Fld(g, h, ENTRIES)), Fld(g, h, NENT); n * s <= |ws| && s > 0 && LiveCount(ws, s, n) == Fld(g, h, MLEN)
  {
    hide HandleAt, DerefOf, LiveWords, LiveCount;
    MapHolds(g, h, s);
  }

  method CompactEntries(c: Collector, h: Word, ghost s: nat)
    requires c.Valid() && Room(c.View(), 2) && MapOk(c.View(), h, s) && Reachable(c.View(), IdxOf(h))
    requires Sized(c.View(), h, s)
    modifies c
    ensures c.Valid() && Room(c.View(), 1)
    ensures EntriesOk(c.View(), h, s, old(Fld(c.View(), h, MLEN)), old(Entries(c.View(), h, s))) && OthersKept(old(c.View()), c.View(), h)
    ensures !Reachable(old(c.View()), IdxOf(Fld(c.View(), h, ENTRIES)))
  {
    hide Inv, Collect, Reach, Alloc, MaybeCollect, HandleAt, DerefOf, OnlyChanged, Holds, Roomy, Live, LiveWords,
         LiveCount, Entries, MapOk, Room, Untouched, Reachable, AllRoots, Spliced, OthersKept, EntriesOk, Fresh, Sized;
    ghost var g := c.View();
    MapHolds(g, h, s);
    var live := Load(c, h, MLEN);
    var shape := Load(c, h, SHAPE);
    var n: nat := live;
    var necap: nat := if n < 4 then 4 else n * 2;
    MapSizes(g, h, s, live, necap);
    var nentries;
    ghost var g1;
    nentries, g1 := FreshEntries(c, h, live, necap, shape % INDEXES, s);
    ghost var g2 := c.View();
    FreshHeld(g, g1, g2, h, s, nentries, live, necap, necap * s, live * s);
    InstallEntries(c, h, nentries, live, necap);
    EntriesInstalled(g, g1, g2, c.View(), h, s, nentries, live, necap, necap * s, live * s);
  }

  lemma FreshHeld(g: Gc, g1: Gc, g2: Gc, h: Word, s: nat, ne: Word, live: nat, necap: nat, size: nat, used: nat)
    requires Fresh(g, g1, g2, h, s, ne, live, necap, size, used)
    ensures Holds(g2, h, 8) && |WordsAt(g2, h)| == 8
  {
    hide HandleAt, DerefOf, Inv, Reach;
  }

  method InstallEntries(c: Collector, h: Word, ne: Word, live: Word, necap: Word)
    requires c.Valid() && Holds(c.View(), h, 8) && |WordsAt(c.View(), h)| == 8
    modifies c`table
    ensures c.Valid() && OnlyChanged(old(c.View()), c.View(), {IdxOf(h)}) && Holds(c.View(), h, 8)
    ensures WordsAt(c.View(), h) == old(WordsAt(c.View(), h))[ENTRIES := ne][NENT := live][ECAP := necap]
  {
    hide Inv, HandleAt, DerefOf, OnlyChanged, Holds;
    ghost var g := c.View();
    Store(c, h, ENTRIES, ne);
    ghost var g1 := c.View();
    Store(c, h, NENT, live);
    ghost var g2 := c.View();
    ChangedTrans(g, g1, g2, {IdxOf(h)}, {IdxOf(h)});
    Store(c, h, ECAP, necap);
    ChangedTrans(g, g2, c.View(), {IdxOf(h)} + {IdxOf(h)}, {IdxOf(h)});
    assert {IdxOf(h)} + {IdxOf(h)} + {IdxOf(h)} == {IdxOf(h)};
  }

  lemma EntriesInstalled(g: Gc, g1: Gc, g2: Gc, g3: Gc, h: Word, s: nat, ne: Word, live: nat, necap: nat, size: nat,
                         used: nat)
    requires Fresh(g, g1, g2, h, s, ne, live, necap, size, used) && MapOk(g, h, s) && live == Fld(g, h, MLEN) && Reachable(g, IdxOf(h))
    requires OnlyChanged(g2, g3, {IdxOf(h)}) && Holds(g3, h, 8)
    requires WordsAt(g3, h) == WordsAt(g2, h)[ENTRIES := ne][NENT := live][ECAP := necap]
    ensures EntriesOk(g3, h, s, live, Entries(g, h, s)) && OthersKept(g, g3, h) && Room(g3, 1)
    ensures !Reachable(g, IdxOf(Fld(g3, h, ENTRIES)))
  {
    hide Inv, Reach, HandleAt, DerefOf, OnlyChanged, LiveWords, LiveCount, Entries, MapOk, Room, Untouched, Reachable,
         AllRoots, OthersKept, EntriesOk, Holds;
    Elsewhere(g2, g3, {IdxOf(h)}, ne, necap * s);
    EntriesSet(g, g3, h, s, ne, live, necap);
    ChangedTrans(g1, g2, g3, {IdxOf(ne)}, {IdxOf(h)});
    OthersSafe(g, g1, g3, h, IdxOf(ne), {IdxOf(ne)} + {IdxOf(h)});
    RoomChanged(g1, g3, {IdxOf(ne)} + {IdxOf(h)}, 1);
  }

  lemma RoomChanged(g: Gc, g2: Gc, s: set<nat>, k: nat)
    requires OnlyChanged(g, g2, s) && Room(g, k)
    ensures Room(g2, k)
  {
  }

  // The header and the entries survive an allocation.
  lemma BothHold(g: Gc, h: Word, s: nat, size: nat)
    requires Inv(g) && Roomy(g) && MapOk(g, h, s) && Reachable(g, IdxOf(h))
    ensures Inv(MaybeCollect(g)) && Inv(Alloc(g, size).0)
    ensures var (g2, m) := Alloc(g, size);
            var e := Fld(g, h, ENTRIES);
            && Holds(g2, h, 8) && WordsAt(g2, h) == WordsAt(g, h) && IdxOf(h) != m && AllRoots(g2) == AllRoots(g) && Untouched(g, g2, {})
            && (Fld(g, h, ECAP) > 0 ==> Holds(g2, e, Fld(g, h, ECAP) * s) && WordsAt(g2, e) == WordsAt(g, e) && IdxOf(e) != m)
  {
    hide Inv, Collect, Reach, Alloc, MaybeCollect, HandleAt, DerefOf, Holds, LiveWords, LiveCount, Entries;
    MapHolds(g, h, s);
    AllocFrame(g, size);
    AllocHolds(g, size, h, 8);
    if Fld(g, h, ECAP) > 0 {
      HeldIn(g, h);
      ReachWord(g, IdxOf(h), ENTRIES, Fld(g, h, ECAP) * s);
      AllocHolds(g, size, Fld(g, h, ENTRIES), Fld(g, h, ECAP) * s);
    }
  }

  lemma HeldIn(g: Gc, h: Word)
    requires Holds(g, h, 8)
    ensures IdxOf(h) < |g.table| && |g.table[IdxOf(h)].words| == 8
  {
  }

  lemma CopiedLive(g: Gc, g1: Gc, g2: Gc, h: Word, s: nat, ne: Word, live: nat, necap: nat, entries: Word, nent: nat)
    requires MapOk(g, h, s) && WordsAt(g1, h) == WordsAt(g, h) && Holds(g1, h, 8) && Holds(g1, ne, necap * s) && |WordsAt(g1, ne)| == necap * s
    requires IdxOf(ne) != IdxOf(h) && live == Fld(g, h, MLEN) && live * s <= necap * s && entries == Fld(g, h, ENTRIES) && nent == Fld(g, h, NENT)
    requires Fld(g, h, ECAP) > 0 ==> WordsAt(g1, entries) == WordsAt(g, entries)
    requires if entries != 0 && nent != 0
             then nent * s <= |WordsAt(g1, entries)| && OnlyChanged(g1, g2, {IdxOf(ne)}) && Holds(g2, ne, necap * s)
                  && LiveCount(WordsAt(g1, entries), s, nent) * s <= |WordsAt(g2, ne)|
                  && WordsAt(g2, ne)[..LiveCount(WordsAt(g1, entries), s, nent) * s] == LiveWords(WordsAt(g1, entries), s, nent)
             else g2 == g1
    ensures OnlyChanged(g1, g2, {IdxOf(ne)}) && Holds(g2, h, 8) && WordsAt(g2, h) == WordsAt(g, h) && Holds(g2, ne, necap * s)
    ensures |WordsAt(g2, ne)| == necap * s && WordsAt(g2, ne)[..live * s] == Entries(g, h, s)
  {
    hide HandleAt, DerefOf, LiveWords, LiveCount, Entries, MapOk;
    MapHolds(g, h, s);
    if entries != 0 && nent != 0 {
      Elsewhere(g1, g2, {IdxOf(ne)}, h, 8);
    } else {
      NoEntries(g, h, s);
    }
  }

  lemma NoEntries(g: Gc, h: Word, s: nat)
    requires MapOk(g, h, s) && (Fld(g, h, ENTRIES) == 0 || Fld(g, h, NENT) == 0)
    ensures Entries(g, h, s) == [] && Fld(g, h, MLEN) == 0
  {
    hide HandleAt, DerefOf;
    MapHolds(g, h, s);
  }

  lemma EntriesSet(g: Gc, g2: Gc, h: Word, s: nat, ne: Word, live: nat, necap: nat)
    requires MapOk(g, h, s) && live == Fld(g, h, MLEN) && live < necap < U64 && live * s <= necap * s
    requires Holds(g2, h, 8) && WordsAt(g2, h) == WordsAt(g, h)[ENTRIES := ne][NENT := live][ECAP := necap]
    requires Holds(g2, ne, necap * s) && |WordsAt(g2, ne)| == necap * s && IdxOf(ne) != IdxOf(h)
    requires WordsAt(g2, ne)[..live * s] == Entries(g, h, s)
    ensures EntriesOk(g2, h, s, live, Entries(g, h, s))
  {
    hide HandleAt, DerefOf, Entries, LiveWords, LiveCount;
    LiveFew(g, h, s);
    MapHolds(g, h, s);
    if Fld(g, h, ECAP) > 0 {
      CompactLive(WordsAt(g, Fld(g, h, ENTRIES)), s, Fld(g, h, NENT), WordsAt(g2, ne));
    } else {
      NothingLive(WordsAt(g2, ne), s);
    }
  }

  lemma NothingLive(ws: seq<Word>, s: nat)
    requires s > 0
    ensures LiveWords(ws, s, 0) == [] && |LiveWords(ws, s, 0)| / s == 0
  {
  }

  method NewIndex(c: Collector, h: Word, icap: nat, ghost s: nat, ghost live: nat, ghost content: seq<Word>)
    requires c.Valid() && Room(c.View(), 1) && EntriesOk(c.View(), h, s, live, content) && Reachable(c.View(), IdxOf(h))
    requires 0 < icap && 8 * icap < U64
    modifies c
    ensures c.Valid() && EntriesOk(c.View(), h, s, live, content) && OthersKept(old(c.View()), c.View(), h)
    ensures Fld(c.View(), h, ENTRIES) == old(Fld(c.View(), h, ENTRIES))
    ensures var ws := WordsAt(c.View(), Fld(c.View(), h, INDEX)); |ws| == icap && forall p :: 0 <= p < icap ==> ws[p] == 0
    ensures Fld(c.View(), h, ICAP) == icap && IndexOk(c.View(), h) && !Reachable(old(c.View()), IdxOf(Fld(c.View(), h, INDEX)))
  {
    hide Inv, Collect, Reach, Alloc, MaybeCollect, HandleAt, DerefOf, OnlyChanged, Holds, Roomy, Live, LiveWords,
         LiveCount, Entries, MapOk, Room, Untouched, Reachable, AllRoots, Spliced, OthersKept, EntriesOk, IndexOk;
    ghost var g := c.View();
    RoomFirst(g, 1);
    EntriesHold(g, h, s, live, content, icap * 8);
    var nindex := c.Allocate(icap * 8);
    ghost var g1 := c.View();
    FreshHolds(g, icap * 8, g1, nindex, icap);
    Zeroed(g, icap * 8, g1, nindex);
    Store(c, h, INDEX, nindex);
    Elsewhere(g1, c.View(), {IdxOf(h)}, nindex, icap);
    EntriesElse(g1, c.View(), h, s, live, content, {IdxOf(h)});
    ghost var g2 := c.View();
    Store(c, h, ICAP, icap);
    Elsewhere(g2, c.View(), {IdxOf(h)}, nindex, icap);
    EntriesElse(g2, c.View(), h, s, live, content, {IdxOf(h)});
    ChangedTrans(g1, g2, c.View(), {IdxOf(h)}, {IdxOf(h)});
    OthersSafe(g, g1, c.View(), h, IdxOf(nindex), {IdxOf(h)} + {IdxOf(h)});
    IndexSet(c.View(), h, nindex, icap);
  }

  ghost predicate IndexOk(g: Gc, h: Word) {
    var x := Fld(g, h, INDEX);
    Fld(g, h, ICAP) > 0 && Holds(g, x, Fld(g, h, ICAP)) && IdxOf(x) != IdxOf(h) && IdxOf(x) != IdxOf(Fld(g, h, ENTRIES))
  }

  lemma IndexSet(g: Gc, h: Word, x: Word, icap: nat)
    requires Fld(g, h, INDEX) == x && Fld(g, h, ICAP) == icap > 0 && Holds(g, x, icap)
    requires IdxOf(x) != IdxOf(h) && IdxOf(x) != IdxOf(Fld(g, h, ENTRIES))
    ensures IndexOk(g, h)
  {
  }

  // What must outlive the index's allocation does.
  lemma EntriesHold(g: Gc, h: Word, s: nat, live: nat, content: seq<Word>, size: nat)
    requires Inv(g) && Roomy(g) && EntriesOk(g, h, s, live, content) && Reachable(g, IdxOf(h))
    ensures Inv(MaybeCollect(g)) && Inv(Alloc(g, size).0)
    ensures var (g2, m) := Alloc(g, size);
            && EntriesOk(g2, h, s, live, content) && WordsAt(g2, h) == WordsAt(g, h) && Holds(g2, h, 8) && |WordsAt(g2, h)| == 8
            && IdxOf(h) != m && IdxOf(Fld(g, h, ENTRIES)) != m && AllRoots(g2) == AllRoots(g) && Untouched(g, g2, {})
            && IdxOf(Fld(g, h, ENTRIES)) != IdxOf(h)
  {
    hide Inv, Collect, Reach, Alloc, MaybeCollect, HandleAt, DerefOf, LiveWords, LiveCount;
    AllocFrame(g, size);
    AllocHolds(g, size, h, 8);
    HeldIn(g, h);
    ReachWord(g, IdxOf(h), ENTRIES, Fld(g, h, ECAP) * s);
    AllocHolds(g, size, Fld(g, h, ENTRIES), Fld(g, h, ECAP) * s);
  }

  // Header words other than the first six, and other objects, do not matter.
  lemma EntriesElse(g: Gc, g2: Gc, h: Word, s: nat, live: nat, content: seq<Word>, set1: set<nat>)
    requires EntriesOk(g, h, s, live, content) && OnlyChanged(g, g2, set1) && IdxOf(Fld(g, h, ENTRIES)) !in set1
    requires Holds(g2, h, 8)
    requires forall k: nat :: k < 7 && k != ICAP ==> Fld(g2, h, k) == Fld(g, h, k)
    ensures EntriesOk(g2, h, s, live, content)
  {
    hide HandleAt, DerefOf, LiveWords;
    Elsewhere(g, g2, set1, Fld(g, h, ENTRIES), Fld(g, h, ECAP) * s);
  }

  lemma OthersReach(g: Gc, g1: Gc, h: Word)
    requires OthersKept(g, g1, h)
    ensures Reachable(g1, IdxOf(h))
  {
  }

  // ----- cl_map_keys -----

  // The keys of the live records among the first n, one after the other.
  function KeyWords(ws: seq<Word>, s: nat, kw: nat, n: nat): seq<Word>
    requires 0 < kw < s && n * s <= |ws|
  {
    if n == 0 then []
    else
      RecordFits(s, n - 1, n);
      KeyWords(ws, s, kw, n - 1) + (if Live(ws, s, n - 1) then ws[(n - 1) * s + 1..(n - 1) * s + 1 + kw] else [])
  }

  // The list under construction: rooted, and no part of what was there before.
  ghost predicate Listing(g0: Gc, g: Gc, out: Word, kw: nat) {
    && VecOk(g, out, kw) && Anchored(g, out) && Untouched(g0, g, {})
    && g.roots == g0.roots + [[out]] && g.pins == g0.pins
    && forall p :: p in Parts(g, out) ==> !Reachable(g0, p)
  }

  // cl_vec_new, and its root.
  method NewList(c: Collector, kw: nat) returns (out: Word)
    requires c.Valid() && Room(c.View(), 1) && kw >= 1 && 8 * kw < U64
    modifies c
    ensures c.Valid() && Listing(old(c.View()), c.View(), out, kw) && Items(c.View(), out, kw) == []
    ensures Fld(c.View(), out, LEN) == 0 && Fld(c.View(), out, CAP) == 0
    ensures forall k: nat :: Room(old(c.View()), k + 1) ==> Room(c.View(), k)
  {
    hide Inv, Collect, Reach, Alloc, MaybeCollect, HandleAt, DerefOf, OnlyChanged, Holds, Roomy, Room, Untouched,
         Listing, Reachable, AllRoots;
    ghost var g := c.View();
    RoomFirst(g, 1);
    AllocFrame(g, 32);
    forall k: nat | Room(g, k + 1) ensures Room(Alloc(g, 32).0, k) { AllocRoom(g, 32, k); }
    out := c.Allocate(32);
    ghost var g1 := c.View();
    FreshHolds(g, 32, g1, out, 4);
    Zeroed(g, 32, g1, out);
    Store(c, out, ELEM, 8 * kw);
    ghost var g2 := c.View();
    c.PushRoot([out]);
    RootedInv(g2, [out]);
    NewListing(g, g1, g2, c.View(), out, kw);
    RoomKept(g, g1, g2, {IdxOf(out)});
    RoomRooted(g, g2, c.View());
  }

  lemma Zeroed(g: Gc, size: nat, g1: Gc, h: Word)
    requires Inv(g) && Roomy(g)
    ensures Inv(MaybeCollect(g)) && Inv(Alloc(g, size).0)
    ensures g1 == Alloc(g, size).0 && IdxOf(h) == Alloc(g, size).1 ==> WordsAt(g1, h) == seq(size / 8, _ => 0 as Word)
  {
    hide Inv, Collect, Reach;
    AllocFrame(g, size);
  }

  lemma RootedInv(g: Gc, ws: seq<Word>)
    requires Inv(g)
    ensures Inv(g.(roots := g.roots + [ws]))
  {
  }

  lemma RoomRooted(g: Gc, g2: Gc, g3: Gc)
    requires g3.live == g2.live && forall k: nat :: Room(g, k + 1) ==> Room(g2, k)
    ensures forall k: nat :: Room(g, k + 1) ==> Room(g3, k)
  {
    forall k: nat | Room(g, k + 1) ensures Room(g3, k) { assert Room(g2, k); }
  }

  lemma NewListing(g: Gc, g1: Gc, g2: Gc, g3: Gc, out: Word, kw: nat)
    requires Untouched(g, g1, {}) && g1.roots == g.roots && g1.pins == g.pins && !Reachable(g, IdxOf(out)) && Inv(g)
    requires Holds(g1, out, 4) && WordsAt(g1, out) == seq(4, _ => 0 as Word) && kw >= 1 && 8 * kw < U64
    requires OnlyChanged(g1, g2, {IdxOf(out)}) && Holds(g2, out, 4) && WordsAt(g2, out) == WordsAt(g1, out)[ELEM := 8 * kw]
    requires g3 == g2.(roots := g2.roots + [[out]])
    ensures Listing(g, g3, out, kw) && Items(g3, out, kw) == [] && Fld(g3, out, LEN) == 0 && Fld(g3, out, CAP) == 0
  {
    hide Reach;
    UntouchedThen(g, g1, g2, {}, {IdxOf(out)});
    UntouchedLess(g, g2, {} + {IdxOf(out)}, {});
    RootLeads(g3, out, |g2.roots|);
    NullIndex(g);
    assert Parts(g3, out) == {IdxOf(out), 0};
    assert Untouched(g, g3, {});
  }

  lemma NullIndex(g: Gc)
    requires Inv(g)
    ensures !Reachable(g, 0) && IdxOf(0) == 0
  {
    if Reachable(g, 0) { ReachUsed(g.table, AllRoots(g), 0); }
  }

  lemma RootLeads(g: Gc, out: Word, r: nat)
    requires r < |g.roots| && g.roots[r] == [out] && Holds(g, out, 4)
    ensures Anchored(g, out)
  {
    assert AllRoots(g)[r] == [out];
    assert HandleAt(g.table, [out][0]) == Just(IdxOf(out));
    assert Points(g.table, AllRoots(g)[r], IdxOf(out));
    assert Rooted(g.table, AllRoots(g), IdxOf(out));
    assert Leads(g, out, [IdxOf(out)]);
  }

  // One push leaves everything the map's caller can reach alone.
  lemma ListedMore(g0: Gc, g: Gc, g2: Gc, out: Word, kw: nat)
    requires Listing(g0, g, out, kw) && VecOk(g2, out, kw) && Untouched(g, g2, Parts(g, out)) && Anchored(g2, out)
    requires BufKept(g, g2, out) && g2.roots == g.roots && g2.pins == g.pins
    ensures Listing(g0, g2, out, kw)
  {
    hide Reach;
    forall j: nat | Reachable(g0, j) ensures Reachable(g, j) && Same(g0.table, g2.table, j) {
      StillReached(g0, g, out, kw, j);
    }
    forall p | p in Parts(g2, out) ensures !Reachable(g0, p) {
      if p != IdxOf(out) && Reachable(g0, p) { StillReached(g0, g, out, kw, p); }
    }
  }

  lemma StillReached(g0: Gc, g: Gc, out: Word, kw: nat, j: nat)
    requires Listing(g0, g, out, kw) && Reachable(g0, j)
    ensures Reachable(g, j) && Same(g0.table, g.table, j) && j !in Parts(g, out)
  {
    assert Untouched(g0, g, {});
    forall r | r in AllRoots(g0) ensures r in AllRoots(g) { }
    ReachFrame(g0.table, g.table, AllRoots(g0), AllRoots(g), j);
  }

  // The map as it was, seen from a later state.
  lemma MapStill(g0: Gc, g: Gc, out: Word, kw: nat, h: Word, s: nat)
    requires Listing(g0, g, out, kw) && MapOk(g0, h, s) && Reachable(g0, IdxOf(h))
    ensures Holds(g, h, 8) && WordsAt(g, h) == WordsAt(g0, h) && |WordsAt(g, h)| == 8
    ensures Fld(g0, h, ECAP) > 0 ==>
              var e := Fld(g0, h, ENTRIES);
              WordsAt(g, e) == WordsAt(g0, e) && Holds(g, e, |WordsAt(g, e)|) && Fld(g0, h, NENT) * s <= |WordsAt(g, e)|
  {
    hide Reach, HandleAt, DerefOf, LiveWords, LiveCount;
    MapHolds(g0, h, s);
    HoldsSame(g0, g, h, 8);
    if Fld(g0, h, ECAP) > 0 {
      HeldIn(g0, h);
      ReachWord(g0, IdxOf(h), ENTRIES, Fld(g0, h, ECAP) * s);
      HoldsSame(g0, g, Fld(g0, h, ENTRIES), Fld(g0, h, ECAP) * s);
    }
  }

  lemma KeysFit(g: Gc, h: Word, s: nat, kw: nat)
    requires MapOk(g, h, s) && 0 < kw < s && (4 * Fld(g, h, NENT) + 16) * (8 * kw) < U64
    ensures var ws, n := WordsAt(g, Fld(g, h, ENTRIES)), Fld(g, h, NENT); n * s <= |ws| && KeyWords(ws, s, kw, 0) == [] && 8 * kw < U64
    ensures var ws, n := WordsAt(g, Fld(g, h, ENTRIES)), Fld(g, h, NENT); LiveCount(ws, s, 0) == 0 && Fld(g, h, MLEN) == LiveCount(ws, s, n)
  {
    hide HandleAt, DerefOf;
    MapHolds(g, h, s);
    MulMono(1, 4 * Fld(g, h, NENT) + 16, 8 * kw);
  }

  lemma KeyNext(g: Gc, h: Word, s: nat, kw: nat, i: nat)
    requires MapOk(g, h, s) && 0 < kw < s && i < Fld(g, h, NENT)
    ensures Fld(g, h, ECAP) > 0
    ensures var ws := WordsAt(g, Fld(g, h, ENTRIES));
            && 0 <= i * s && (i + 1) * s == i * s + s <= |ws|
            && LiveCount(ws, s, i + 1) == LiveCount(ws, s, i) + (if ws[i * s] == 1 then 1 else 0)
            && KeyWords(ws, s, kw, i + 1) == KeyWords(ws, s, kw, i) + (if ws[i * s] == 1 then ws[i * s + 1..i * s + 1 + kw] else [])
  {
    hide HandleAt, DerefOf;
    MapHolds(g, h, s);
    RecordFits(s, i, Fld(g, h, NENT));
  }

  lemma RoomAtLeast(g: Gc, k: nat)
    requires Room(g, k) && k >= 1
    ensures Room(g, 1)
  {
  }

  lemma RoomSpent(g: Gc, k: nat)
    requires Room(g, k) && k >= 1
    ensures Roomy(g) && Room(g, k - 1)
  {
    RoomFirst(g, k);
    RoomLess(g, k - 1);
  }

  lemma PushFits(cap: nat, n: nat, kw: nat)
    requires cap <= 2 * n + 4 && (4 * n + 16) * (8 * kw) < U64
    ensures (2 * cap + 4) * (8 * kw) < U64
  {
    MulMono(2 * cap + 4, 4 * n + 16, 8 * kw);
  }

  lemma ListingParts(g0: Gc, g: Gc, out: Word, kw: nat)
    requires Listing(g0, g, out, kw)
    ensures VecOk(g, out, kw) && Anchored(g, out) && Untouched(g0, g, {})
    ensures g.roots == g0.roots + [[out]] && g.pins == g0.pins
  {
  }

  lemma PoppedInv(g0: Gc, g: Gc, g2: Gc, out: Word, kw: nat)
    requires Listing(g0, g, out, kw) && Inv(g) && g2 == g.(roots := g.roots[..|g.roots| - 1])
    ensures Inv(g2) && VecOk(g2, out, kw) && Items(g2, out, kw) == Items(g, out, kw) && Fld(g2, out, LEN) == Fld(g, out, LEN) && g2.roots == g0.roots && Untouched(g0, g2, {})
  {
  }

  // The keys of the map's live entries, in insertion order, in a new vector.
  method MapKeys(c: Collector, h: Word, s: nat, kw: nat) returns (out: Word)
    requires c.Valid() && MapOk(c.View(), h, s) && Reachable(c.View(), IdxOf(h)) && 0 < kw < s
    requires Room(c.View(), Fld(c.View(), h, NENT) + 1) && (4 * Fld(c.View(), h, NENT) + 16) * (8 * kw) < U64
    modifies c
    ensures c.Valid() && VecOk(c.View(), out, kw) && c.roots == old(c.roots) && c.pins == old(c.pins)
    ensures var ws, n := old(WordsAt(c.View(), Fld(c.View(), h, ENTRIES))), old(Fld(c.View(), h, NENT));
            n * s <= |ws| && Items(c.View(), out, kw) == KeyWords(ws, s, kw, n)
    ensures Fld(c.View(), out, LEN) == old(Fld(c.View(), h, MLEN))
    ensures Untouched(old(c.View()), c.View(), {})
  {
    hide Inv, Collect, Reach, HandleAt, DerefOf, OnlyChanged, Holds, Roomy, Room, Untouched, Listing, Reachable,
         AllRoots, MapOk, VecOk, Items, KeyWords, Live, LiveCount, Anchored, BufKept;
    ghost var g0 := c.View();
    ghost var ws := WordsAt(g0, Fld(g0, h, ENTRIES));
    KeysFit(g0, h, s, kw);
    RoomAtLeast(g0, Fld(g0, h, NENT) + 1);
    out := NewList(c, kw);
    ListingParts(g0, c.View(), out, kw);
    MapStill(g0, c.View(), out, kw, h, s);
    var n := Load(c, h, NENT);
    var i := 0;
    while i < n
      invariant 0 <= i <= n && c.Valid() && Listing(g0, c.View(), out, kw) && VecOk(c.View(), out, kw) && 0 <= i * s <= |ws|
      invariant Items(c.View(), out, kw) == KeyWords(ws, s, kw, i)
      invariant 0 <= i * s <= |ws| && Fld(c.View(), out, LEN) == LiveCount(ws, s, i) <= i && Fld(c.View(), out, CAP) <= 2 * i + 4
      invariant Room(c.View(), n - i)
    {
      MapStill(g0, c.View(), out, kw, h, s);
      KeyNext(g0, h, s, kw, i);
      var e := Load(c, h, ENTRIES);
      var st := Load(c, e, i * s);
      RoomSpent(c.View(), n - i);
      if st == 1 {
        ghost var g := c.View();
        PushFits(Fld(g, out, CAP), n, kw);
        ListingParts(g0, g, out, kw);
        Push(c, out, c.table[IdxOf(e)].words[i * s + 1..i * s + 1 + kw]);
        ListedMore(g0, g, c.View(), out, kw);
      }
      i := i + 1;
    }
    ghost var g := c.View();
    ListingParts(g0, g, out, kw);
    c.PopRoots(1);
    PoppedInv(g0, g, c.View(), out, kw);
  }
}
