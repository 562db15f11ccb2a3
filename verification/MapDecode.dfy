// What the words of a map's entries and index stand for: the records and slots
// of the hash map, and through them an insertion-ordered dictionary.
module MapDecode {
  import opened Handles
  import opened Modular
  import opened GcModel
  import opened GcProps
  import opened Collectors
  import opened GcMutate
  import opened Containers
  import opened MapMemory
  import D = OrderedDict
  import H = HashMaps

  // A map's key and value sizes in words, whether its keys are strings, and the
  // hash of a key's content.
  datatype Shape = Shape(str: bool, kw: nat, vw: nat, hash: seq<nat> -> nat) {
    function Size(): nat { 1 + kw + vw }

    predicate Ok() { kw >= 1 && (str ==> kw == 1) }
  }

  type Rec = H.Entry<seq<nat>, seq<Word>>

  // ----- keys -----

  function Pow256(n: nat): (r: nat)
    ensures r > 0
  {
    if n == 0 then 1 else 256 * Pow256(n - 1)
  }

  // The bytes of a string object: its length, then the bytes, eight to a word.
  function TextOf(ws: seq<Word>): seq<nat> {
    if ws == [] then []
    else
      var n := if ws[0] <= 8 * (|ws| - 1) then ws[0] else 8 * (|ws| - 1);
      seq(n, i requires 0 <= i < n => ws[1 + i / 8] / Pow256(i % 8) % 256)
  }

  predicate AreBytes(bs: seq<nat>) { forall i :: 0 <= i < |bs| ==> bs[i] < 256 }

  // Bytes packed into one number, the first lowest.
  function PackWord(bs: seq<nat>): (w: nat)
  {
    if bs == [] then 0 else bs[0] + 256 * PackWord(bs[1..])
  }

  lemma {:induction false} PackedSmall(bs: seq<nat>)
    requires AreBytes(bs)
    ensures PackWord(bs) < Pow256(|bs|)
    decreases |bs|
  {
    if bs != [] { PackedSmall(bs[1..]); }
  }

  lemma EightBytes(bs: seq<nat>)
    requires AreBytes(bs) && |bs| <= 8
    ensures PackWord(bs) < U64
  {
    PackedSmall(bs);
    PowsOf256(|bs|);
  }

  lemma PowsOf256(n: nat)
    requires n <= 8
    ensures Pow256(n) <= U64
  {
    assert Pow256(4) == 0x1_0000_0000;
    assert Pow256(8) == 256 * (256 * (256 * (256 * Pow256(4))));
  }

  // Eight bytes to a word, as a string object holds them.
  function Packed(bs: seq<nat>): (ws: seq<Word>)
    requires AreBytes(bs)
    ensures |ws| == (|bs| + 7) / 8
  {
    if bs == [] then []
    else
      var k := if |bs| < 8 then |bs| else 8;
      EightBytes(bs[..k]);
      [PackWord(bs[..k])] + Packed(bs[k..])
  }

  // Byte k of a packed word.
  lemma {:induction false} Unpacked(bs: seq<nat>, k: nat)
    requires AreBytes(bs) && k < |bs|
    ensures PackWord(bs) / Pow256(k) % 256 == bs[k]
    decreases k
  {
    var rest := PackWord(bs[1..]);
    if k == 0 {
      DivModUnique(PackWord(bs), rest, bs[0], 256);
    } else {
      Unpacked(bs[1..], k - 1);
      DropByte(bs[0], rest, Pow256(k - 1));
    }
  }

  lemma DropByte(b: nat, x: nat, p: nat)
    requires b < 256 && p > 0
    ensures (b + 256 * x) / (256 * p) == x / p
  {
    var q, r := x / p, x % p;
    assert x == q * p + r;
    assert b + 256 * x == q * (256 * p) + (256 * r + b);
    DivModUnique(b + 256 * x, q, 256 * r + b, 256 * p);
  }

  lemma {:induction false} PackedByte(bs: seq<nat>, i: nat)
    requires AreBytes(bs) && i < |bs|
    ensures Packed(bs)[i / 8] / Pow256(i % 8) % 256 == bs[i]
    decreases |bs|
  {
    var k := if |bs| < 8 then |bs| else 8;
    EightBytes(bs[..k]);
    if i < 8 {
      Unpacked(bs[..k], i);
    } else {
      PackedByte(bs[8..], i - 8);
      assert Packed(bs)[i / 8] == Packed(bs[8..])[(i - 8) / 8];
    }
  }

  // The text of a string object is the bytes it was made of.
  lemma TextBack(bs: seq<nat>)
    requires AreBytes(bs) && |bs| < U64
    ensures TextOf([|bs|] + Packed(bs)) == bs
  {
    hide TextOf, Packed;
    var ws: seq<Word> := [|bs|] + Packed(bs);
    TextShape(|bs|, Packed(bs));
    forall i | 0 <= i < |bs| ensures TextOf(ws)[i] == bs[i] { PackedByte(bs, i); }
  }

  lemma TextShape(n: Word, ws: seq<Word>)
    requires n <= 8 * |ws|
    ensures |TextOf([n] + ws)| == n
    ensures forall i :: 0 <= i < n ==> i / 8 < |ws| && TextOf([n] + ws)[i] == ws[i / 8] / Pow256(i % 8) % 256
  {
    hide Pow256;
    forall i | 0 <= i < n ensures i / 8 < |ws| && ([n] + ws)[1 + i / 8] == ws[i / 8] { }
  }

  // So two string keys count as the same exactly if they are the same text.
  lemma KeysByText(t: seq<Slot>, sh: Shape, w1: Word, bs1: seq<nat>, w2: Word, bs2: seq<nat>)
    requires sh.str && AreBytes(bs1) && AreBytes(bs2) && |bs1| < U64 && |bs2| < U64
    requires HandleAt(t, w1).Just? && t[IdxOf(w1)].words == [|bs1|] + Packed(bs1)
    requires HandleAt(t, w2).Just? && t[IdxOf(w2)].words == [|bs2|] + Packed(bs2)
    ensures KeyOf(t, sh, [w1]) == bs1 && KeyOf(t, sh, [w2]) == bs2
  {
    TextBack(bs1);
    TextBack(bs2);
  }

  // What map_hash_key and map_key_eq look at: a scalar key itself, the bytes of a
  // string key.
  function KeyOf(t: seq<Slot>, sh: Shape, key: seq<Word>): seq<nat> {
    if !sh.str || key == [] then key
    else
      match HandleAt(t, key[0])
      case Just(i) => TextOf(t[i].words)
      case Nothing => []
  }

  // A string key is a live object, and none of the map's own.
  predicate KeyHeld(t: seq<Slot>, sh: Shape, key: seq<Word>, parts: set<nat>) {
    sh.str && key != [] ==> HandleAt(t, key[0]).Just? && HandleAt(t, key[0]).value !in parts
  }

  lemma KeySame(t: seq<Slot>, t2: seq<Slot>, sh: Shape, key: seq<Word>, parts: set<nat>, parts2: set<nat>)
    requires KeyHeld(t, sh, key, parts)
    requires sh.str && key != [] ==> var j := HandleAt(t, key[0]).value; Same(t, t2, j) && j !in parts2
    ensures KeyOf(t2, sh, key) == KeyOf(t, sh, key) && KeyHeld(t2, sh, key, parts2)
  {
  }

  // ----- entries -----

  // state, key, value.
  function EntryOf(t: seq<Slot>, sh: Shape, rec: seq<Word>): Rec
    requires |rec| == sh.Size()
  {
    var alive := rec[0] == 1;
    H.Entry(alive, if alive then KeyOf(t, sh, rec[1..1 + sh.kw]) else [], rec[1 + sh.kw..])
  }

  function Decoded(t: seq<Slot>, sh: Shape, ws: seq<Word>, n: nat): (r: seq<Rec>)
    requires n * sh.Size() <= |ws|
    ensures |r| == n
  {
    if n == 0 then []
    else
      RecordFits(sh.Size(), n - 1, n);
      Decoded(t, sh, ws, n - 1) + [EntryOf(t, sh, Record(ws, sh.Size(), n - 1))]
  }

  ghost predicate KeysHeld(t: seq<Slot>, sh: Shape, ws: seq<Word>, n: nat, parts: set<nat>)
    requires n * sh.Size() <= |ws|
  {
    n > 0 ==>
      (RecordFits(sh.Size(), n - 1, n);
       && KeysHeld(t, sh, ws, n - 1, parts)
       && (Live(ws, sh.Size(), n - 1) ==> KeyHeld(t, sh, Record(ws, sh.Size(), n - 1)[1..1 + sh.kw], parts)))
  }

  // One record more.
  lemma DecodedStep(t: seq<Slot>, sh: Shape, ws: seq<Word>, n: nat, parts: set<nat>)
    requires n > 0 && n * sh.Size() <= |ws|
    ensures var s, m := sh.Size(), (n - 1) * sh.Size();
            && 0 <= m && n * s == m + s && m <= |ws| && (n - 1) * sh.Size() <= |ws|
            && Decoded(t, sh, ws, n) == Decoded(t, sh, ws, n - 1) + [EntryOf(t, sh, ws[m..m + s])]
            && KeysHeld(t, sh, ws, n, parts) ==
                 (KeysHeld(t, sh, ws, n - 1, parts) && (ws[m] == 1 ==> KeyHeld(t, sh, ws[m..m + s][1..1 + sh.kw], parts)))
  {
    hide KeyHeld, EntryOf;
    RecordFits(sh.Size(), n - 1, n);
  }

  lemma {:induction false} DecodedAt(t: seq<Slot>, sh: Shape, ws: seq<Word>, n: nat, i: nat)
    requires n * sh.Size() <= |ws| && i < n
    ensures 0 <= i * sh.Size() && (i + 1) * sh.Size() == i * sh.Size() + sh.Size() <= |ws|
    ensures Decoded(t, sh, ws, n)[i] == EntryOf(t, sh, Record(ws, sh.Size(), i))
    ensures forall parts :: KeysHeld(t, sh, ws, n, parts) && Live(ws, sh.Size(), i) ==> KeyHeld(t, sh, Record(ws, sh.Size(), i)[1..1 + sh.kw], parts)
    decreases n
  {
    RecordFits(sh.Size(), i, n);
    RecordFits(sh.Size(), n - 1, n);
    if i < n - 1 { DecodedAt(t, sh, ws, n - 1, i); }
  }

  lemma NoneDecoded(t: seq<Slot>, sh: Shape, ws: seq<Word>, parts: set<nat>)
    ensures Decoded(t, sh, ws, 0) == [] && KeysHeld(t, sh, ws, 0, parts)
  {
  }

  // Only the words before their end matter to the records.
  lemma {:induction false} DecodedPrefix(t: seq<Slot>, sh: Shape, a: seq<Word>, b: seq<Word>, n: nat, parts: set<nat>)
    requires n * sh.Size() <= |a| && n * sh.Size() <= |b| && a[..n * sh.Size()] == b[..n * sh.Size()]
    ensures Decoded(t, sh, a, n) == Decoded(t, sh, b, n) && KeysHeld(t, sh, a, n, parts) == KeysHeld(t, sh, b, n, parts)
    decreases n
  {
    hide EntryOf, KeyHeld, KeysHeld, Decoded;
    NoneDecoded(t, sh, a, parts);
    NoneDecoded(t, sh, b, parts);
    if n > 0 {
      DecodedStep(t, sh, a, n, parts);
      DecodedStep(t, sh, b, n, parts);
      SamePrefix(a, b, (n - 1) * sh.Size(), n * sh.Size());
      DecodedPrefix(t, sh, a, b, n - 1, parts);
    }
  }

  lemma SamePrefix(a: seq<Word>, b: seq<Word>, m: nat, n: nat)
    requires m < n <= |a| && n <= |b| && a[..n] == b[..n]
    ensures a[..m] == b[..m] && a[m..n] == b[m..n] && a[m] == b[m]
  {
    assert a[..m] == a[..n][..m] && b[..m] == b[..n][..m];
    assert a[m..n] == a[..n][m..] && b[m..n] == b[..n][m..];
    assert a[m] == a[..n][m] && b[m] == b[..n][m];
  }

  // Nothing but the objects of the live string keys matters to what the records
  // stand for.
  ghost predicate KeysSame(t: seq<Slot>, t2: seq<Slot>, sh: Shape, live: seq<Word>, parts: set<nat>, parts2: set<nat>) {
    forall w :: w in live && HandleAt(t, w).Just? && HandleAt(t, w).value !in parts ==>
                  Same(t, t2, HandleAt(t, w).value) && HandleAt(t, w).value !in parts2
  }

  lemma {:induction false} DecodedFrame(t: seq<Slot>, t2: seq<Slot>, sh: Shape, ws: seq<Word>, n: nat, parts: set<nat>,
                                        parts2: set<nat>)
    requires sh.Ok() && n * sh.Size() <= |ws| && KeysHeld(t, sh, ws, n, parts)
    requires KeysSame(t, t2, sh, LiveWords(ws, sh.Size(), n), parts, parts2)
    ensures Decoded(t2, sh, ws, n) == Decoded(t, sh, ws, n) && KeysHeld(t2, sh, ws, n, parts2)
    decreases n
  {
    hide HandleAt, Same, KeyOf;
    if n > 0 {
      var s := sh.Size();
      RecordFits(s, n - 1, n);
      var rec := Record(ws, s, n - 1);
      DecodedFrame(t, t2, sh, ws, n - 1, parts, parts2);
      if Live(ws, s, n - 1) {
        assert rec[1..1 + sh.kw][0] == rec[1] && rec[1] in rec;
        KeySame(t, t2, sh, rec[1..1 + sh.kw], parts, parts2);
      }
    }
  }

  lemma {:induction false} AliveIsLive(t: seq<Slot>, sh: Shape, ws: seq<Word>, n: nat)
    requires n * sh.Size() <= |ws|
    ensures H.AliveCount(Decoded(t, sh, ws, n)) == LiveCount(ws, sh.Size(), n)
    decreases n
  {
    if n > 0 {
      RecordFits(sh.Size(), n - 1, n);
      AliveIsLive(t, sh, ws, n - 1);
      var es := Decoded(t, sh, ws, n);
      assert es[..n - 1] == Decoded(t, sh, ws, n - 1);
    }
  }

  // Copying the live records compacts the entries.
  lemma {:induction false} DecodedCompact(t: seq<Slot>, sh: Shape, ws: seq<Word>, n: nat, parts: set<nat>)
    requires n * sh.Size() <= |ws| && KeysHeld(t, sh, ws, n, parts)
    ensures var c := LiveCount(ws, sh.Size(), n);
            && |LiveWords(ws, sh.Size(), n)| == c * sh.Size()
            && Decoded(t, sh, LiveWords(ws, sh.Size(), n), c) == H.Compact(Decoded(t, sh, ws, n))
            && KeysHeld(t, sh, LiveWords(ws, sh.Size(), n), c, parts)
    decreases n
  {
    hide KeyHeld, EntryOf, KeysHeld, Decoded, LiveWords, LiveCount, H.Compact;
    var s := sh.Size();
    LiveSize(ws, s, n);
    NoneLive(t, sh, ws, parts);
    if n > 0 {
      DecodedStep(t, sh, ws, n, parts);
      CopyStep(ws, s, n - 1, n);
      LiveSize(ws, s, n - 1);
      DecodedCompact(t, sh, ws, n - 1, parts);
      var rec := ws[(n - 1) * s..(n - 1) * s + s];
      CompactStep(Decoded(t, sh, ws, n - 1), EntryOf(t, sh, rec));
      AliveOf(t, sh, rec);
      if rec[0] == 1 {
        CompactLast(t, sh, LiveWords(ws, s, n - 1), LiveCount(ws, s, n - 1), rec, parts);
      } else {
        assert LiveWords(ws, s, n) == LiveWords(ws, s, n - 1);
        assert H.Compact(Decoded(t, sh, ws, n)) == H.Compact(Decoded(t, sh, ws, n - 1));
      }
    }
  }

  lemma CompactStep(es: seq<Rec>, e: Rec)
    ensures H.Compact(es + [e]) == H.Compact(es) + (if e.alive then [e] else [])
  {
    assert (es + [e])[..|es|] == es;
  }

  lemma NoneLive(t: seq<Slot>, sh: Shape, ws: seq<Word>, parts: set<nat>)
    ensures LiveWords(ws, sh.Size(), 0) == [] && LiveCount(ws, sh.Size(), 0) == 0 && Decoded(t, sh, ws, 0) == [] && H.Compact<seq<nat>, seq<Word>>([]) == []
    ensures Decoded(t, sh, [], 0) == [] && KeysHeld(t, sh, [], 0, parts)
  {
  }

  lemma AliveOf(t: seq<Slot>, sh: Shape, rec: seq<Word>)
    requires |rec| == sh.Size()
    ensures EntryOf(t, sh, rec).alive == (rec[0] == 1)
  {
  }

  lemma CompactLast(t: seq<Slot>, sh: Shape, live: seq<Word>, c: nat, rec: seq<Word>, parts: set<nat>)
    requires |live| == c * sh.Size() && |rec| == sh.Size() && KeysHeld(t, sh, live, c, parts)
    requires rec[0] == 1 ==> KeyHeld(t, sh, rec[1..1 + sh.kw], parts)
    ensures |live + rec| == (c + 1) * sh.Size()
    ensures Decoded(t, sh, live + rec, c + 1) == Decoded(t, sh, live, c) + [EntryOf(t, sh, rec)]
    ensures KeysHeld(t, sh, live + rec, c + 1, parts)
  {
    hide KeyHeld, EntryOf, KeysHeld, Decoded;
    var s := sh.Size();
    RecordFits(s, c, c + 1);
    DecodedStep(t, sh, live + rec, c + 1, parts);
    assert (live + rec)[..c * s] == live[..c * s];
    DecodedPrefix(t, sh, live, live + rec, c, parts);
    assert (live + rec)[c * s..c * s + s] == rec;
    assert (live + rec)[c * s] == rec[0];
  }

  // A change inside record i.
  lemma {:induction false} DecodedUpdate(t: seq<Slot>, sh: Shape, ws: seq<Word>, n: nat, i: nat, off: nat,
                                         v: seq<Word>, parts: set<nat>)
    requires n * sh.Size() <= |ws| && i < n && off + |v| <= sh.Size() && 0 <= i * sh.Size() && i * sh.Size() + sh.Size() <= |ws|
    requires KeysHeld(t, sh, ws, n, parts)
    requires var rec := Spliced(ws[i * sh.Size()..i * sh.Size() + sh.Size()], off, v); rec[0] == 1 ==> KeyHeld(t, sh, rec[1..1 + sh.kw], parts)
    ensures var ws2 := Spliced(ws, i * sh.Size() + off, v);
            && Decoded(t, sh, ws2, n) == Decoded(t, sh, ws, n)[i := EntryOf(t, sh, Spliced(ws[i * sh.Size()..i * sh.Size() + sh.Size()], off, v))]
            && KeysHeld(t, sh, ws2, n, parts)
    decreases n
  {
    hide KeyHeld, EntryOf, KeysHeld, Decoded, Spliced;
    var s := sh.Size();
    var ws2 := Spliced(ws, i * s + off, v);
    RecordFits(s, n - 1, n);
    RecordFits(s, i, n);
    DecodedStep(t, sh, ws, n, parts);
    DecodedStep(t, sh, ws2, n, parts);
    var m := (n - 1) * s;
    if i == n - 1 {
      SplicedBefore(ws, m, off, s, v);
      DecodedPrefix(t, sh, ws, ws2, n - 1, parts);
    } else {
      RecordFits(s, i, n - 1);
      DecodedUpdate(t, sh, ws, n - 1, i, off, v, parts);
      SplicedAfter(ws, i * s + off, v, m, s);
    }
  }

  lemma SplicedBefore(ws: seq<Word>, m: nat, off: nat, s: nat, v: seq<Word>)
    requires off + |v| <= s && m + s <= |ws| && s > 0
    ensures var ws2 := Spliced(ws, m + off, v);
            ws2[..m] == ws[..m] && ws2[m..m + s] == Spliced(ws[m..m + s], off, v) && ws2[m] == Spliced(ws[m..m + s], off, v)[0]
  {
    var ws2 := Spliced(ws, m + off, v);
    assert ws2[m..m + s] == Spliced(ws[m..m + s], off, v);
    assert ws2[m] == ws2[m..m + s][0];
  }

  lemma SplicedAfter(ws: seq<Word>, off: nat, v: seq<Word>, m: nat, s: nat)
    requires off + |v| <= m && m + s <= |ws| && s > 0
    ensures var ws2 := Spliced(ws, off, v); ws2[m..m + s] == ws[m..m + s] && ws2[m] == ws[m]
  {
  }

  // ----- index slots -----

  // A word read as an i64.
  function AsI64(w: Word): int { if w < 0x8000_0000_0000_0000 then w else w - U64 }

  function Ints(ws: seq<Word>): seq<int> { seq(|ws|, i requires 0 <= i < |ws| => AsI64(ws[i])) }

  lemma IntsSet(ws: seq<Word>, p: nat, w: Word)
    requires p < |ws|
    ensures Ints(ws[p := w]) == Ints(ws)[p := AsI64(w)]
  {
  }

  // ----- the map -----

  // The objects a map is made of.
  ghost function MapParts(g: Gc, h: Word): set<nat> { {IdxOf(h), IdxOf(Fld(g, h, ENTRIES)), IdxOf(Fld(g, h, INDEX))} }

  ghost function Recs(g: Gc, h: Word, sh: Shape): seq<Rec> {
    var ws, n := WordsAt(g, Fld(g, h, ENTRIES)), Fld(g, h, NENT);
    if Fld(g, h, ECAP) > 0 && n * sh.Size() <= |ws| then Decoded(g.table, sh, ws, n) else []
  }

  ghost function Slots(g: Gc, h: Word): seq<int> { if Fld(g, h, ICAP) > 0 then Ints(WordsAt(g, Fld(g, h, INDEX))) else [] }

  // The records in use have keys of their own, which are no part of the map.
  ghost predicate RecsOk(g: Gc, h: Word, sh: Shape) {
    var ws, n := WordsAt(g, Fld(g, h, ENTRIES)), Fld(g, h, NENT);
    && sh.Ok() && MapOk(g, h, sh.Size())
    && (Fld(g, h, ECAP) > 0 && n * sh.Size() <= |ws| ==> KeysHeld(g.table, sh, ws, n, MapParts(g, h)))
    && H.DistinctAlive(Recs(g, h, sh))
  }

  // Every operation of the map leaves it like this.
  ghost predicate MapValid(g: Gc, h: Word, sh: Shape) {
    && RecsOk(g, h, sh)
    && H.IndexOk(sh.hash, Recs(g, h, sh), Slots(g, h), |Recs(g, h, sh)|)
    && H.PowerOrNone(Fld(g, h, ICAP))
    && (if Fld(g, h, ICAP) == 0 then Fld(g, h, ECAP) == 0 else 10 * Fld(g, h, MLEN) < 7 * Fld(g, h, ICAP))
  }

  // The dictionary the map stands for.
  ghost function Dict(g: Gc, h: Word, sh: Shape): D.Dict<seq<nat>, seq<Word>> { H.Contents(Recs(g, h, sh)) }

  lemma RecsAre(g: Gc, h: Word, sh: Shape)
    requires MapOk(g, h, sh.Size())
    ensures |Recs(g, h, sh)| == Fld(g, h, NENT) && H.AliveCount(Recs(g, h, sh)) == Fld(g, h, MLEN)
    ensures Fld(g, h, ECAP) > 0 ==>
              var ws, n := WordsAt(g, Fld(g, h, ENTRIES)), Fld(g, h, NENT);
              n * sh.Size() <= |ws| && Recs(g, h, sh) == Decoded(g.table, sh, ws, n)
  {
    hide HandleAt, DerefOf, LiveWords, LiveCount;
    MapHolds(g, h, sh.Size());
    if Fld(g, h, ECAP) > 0 { AliveIsLive(g.table, sh, WordsAt(g, Fld(g, h, ENTRIES)), Fld(g, h, NENT)); }
  }

  // ----- what an operation leaves alone -----

  // Everything the roots or the map's live records lead to, other than through
  // the map's own objects, is as before and no part of the map.
  ghost predicate Spared(g: Gc, g2: Gc, h: Word, s: nat) {
    && AllRoots(g2) == AllRoots(g)
    && IdxOf(h) < |g.table| && IdxOf(h) < |g2.table| && g2.table[IdxOf(h)].used && g2.table[IdxOf(h)].gen == g.table[IdxOf(h)].gen
    && forall j: nat :: Beside(g, Entries(g, h, s), MapParts(g, h), j) ==> Same(g.table, g2.table, j) && j !in MapParts(g2, h)
  }

  // In particular the string keys.
  lemma SparedKeys(g: Gc, g2: Gc, h: Word, sh: Shape)
    requires Spared(g, g2, h, sh.Size())
    ensures KeysSame(g.table, g2.table, sh, Entries(g, h, sh.Size()), MapParts(g, h), MapParts(g2, h))
  {
    var live := Entries(g, h, sh.Size());
    forall w | w in live && HandleAt(g.table, w).Just? && HandleAt(g.table, w).value !in MapParts(g, h)
      ensures Same(g.table, g2.table, HandleAt(g.table, w).value) && HandleAt(g.table, w).value !in MapParts(g2, h)
    {
      WordBeside(g, live, MapParts(g, h), w);
    }
  }

  lemma WordBeside(g: Gc, extra: seq<Word>, own: set<nat>, w: Word)
    requires w in extra && HandleAt(g.table, w).Just? && HandleAt(g.table, w).value !in own
    ensures Beside(g, extra, own, HandleAt(g.table, w).value)
  {
    var j := HandleAt(g.table, w).value;
    var all := AllRoots(g) + [extra];
    assert Points(g.table, extra, j);
    assert all[|AllRoots(g)|] == extra;
    assert Way(g, extra, own, [j]);
  }
}
