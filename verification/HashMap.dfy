// The compact-dict hash map of bootstrap/runtime/cardinal_rt.c as values: entries
// in insertion order, and an open-addressing index of entry numbers with
// tombstones in both. MapHeap.dfy has the operations on these, as words in memory.
module HashMaps {
  import opened Numeric
  import opened Modular
  import opened OrderedDict

  // An entry buffer's record; dead entries keep their place until a rehash.
  datatype Entry<K, V> = Entry(alive: bool, key: K, val: V)

  function Contents<K, V>(es: seq<Entry<K, V>>): Dict<K, V> {
    if es == [] then []
    else
      var e := es[|es| - 1];
      Contents(es[..|es| - 1]) + (if e.alive then [(e.key, e.val)] else [])
  }

  function AliveCount<K, V>(es: seq<Entry<K, V>>): nat {
    if es == [] then 0 else AliveCount(es[..|es| - 1]) + (if es[|es| - 1].alive then 1 else 0)
  }

  // ----- entries against the dictionary -----

  ghost predicate DistinctAlive<K, V>(es: seq<Entry<K, V>>) {
    forall i, j :: 0 <= i < j < |es| && es[i].alive && es[j].alive ==> es[i].key != es[j].key
  }

  lemma {:induction false} ContentsSize<K, V>(es: seq<Entry<K, V>>)
    ensures |Contents(es)| == AliveCount(es) <= |es|
    decreases |es|
  {
    if es != [] { ContentsSize(es[..|es| - 1]); }
  }

  lemma {:induction false} ContentsHas<K, V>(es: seq<Entry<K, V>>, k: K, v: V)
    ensures (k, v) in Contents(es) <==> Entry(true, k, v) in es
    decreases |es|
  {
    if es != [] {
      ContentsHas(es[..|es| - 1], k, v);
      assert es == es[..|es| - 1] + [es[|es| - 1]];
    }
  }

  lemma {:induction false} ContentsDistinct<K, V>(es: seq<Entry<K, V>>)
    requires DistinctAlive(es)
    ensures DistinctKeys(Contents(es))
    decreases |es|
  {
    if es != [] {
      var front, e := es[..|es| - 1], es[|es| - 1];
      ContentsDistinct(front);
      if e.alive {
        var d := Contents(front);
        forall i | 0 <= i < |d| ensures d[i].0 != e.key {
          assert d[i] in d;
          ContentsHas(front, d[i].0, d[i].1);
          var j :| 0 <= j < |front| && front[j] == Entry(true, d[i].0, d[i].1);
          assert es[j] == front[j];
        }
      }
    }
  }

  // What looking a key up must return.
  lemma ContentsGet<K, V>(es: seq<Entry<K, V>>, i: nat)
    requires DistinctAlive(es) && i < |es| && es[i].alive
    ensures Get(Contents(es), es[i].key) == Some(es[i].val) && Has(Contents(es), es[i].key)
  {
    ContentsDistinct(es);
    assert es[i] == Entry(true, es[i].key, es[i].val) && es[i] in es;
    ContentsHas(es, es[i].key, es[i].val);
    GetIff(Contents(es), es[i].key, es[i].val);
  }

  lemma ContentsAbsent<K, V>(es: seq<Entry<K, V>>, k: K)
    requires forall i :: 0 <= i < |es| && es[i].alive ==> es[i].key != k
    ensures !Has(Contents(es), k) && Get(Contents(es), k) == None
  {
    var d := Contents(es);
    forall i | 0 <= i < |d| ensures d[i].0 != k {
      var j := ContentsFrom(es, i);
    }
    Absent(d, k);
  }

  lemma {:induction false} ContentsFrom<K, V>(es: seq<Entry<K, V>>, i: nat) returns (j: nat)
    requires i < |Contents(es)|
    ensures j < |es| && es[j] == Entry(true, Contents(es)[i].0, Contents(es)[i].1)
    decreases |es|
  {
    var front := es[..|es| - 1];
    if i < |Contents(front)| {
      j := ContentsFrom(front, i);
    } else {
      j := |es| - 1;
    }
  }

  lemma PutAppend<K, V>(d: Dict<K, V>, e: Dict<K, V>, k: K, v: V)
    ensures Has(d, k) ==> Put(d + e, k, v) == Put(d, k, v) + e
    ensures Has(d, k) ==> Remove(d + e, k) == Remove(d, k) + e
    ensures !Has(d, k) ==> Put(d + e, k, v) == d + Put(e, k, v)
    ensures !Has(d, k) ==> Remove(d + e, k) == d + Remove(e, k)
  {
    if Has(d, k) { AppendPresent(d, e, k, v); } else { AppendAbsent(d, e, k, v); }
  }

  lemma {:induction false} AppendPresent<K, V>(d: Dict<K, V>, e: Dict<K, V>, k: K, v: V)
    requires Has(d, k)
    ensures Put(d + e, k, v) == Put(d, k, v) + e && Remove(d + e, k) == Remove(d, k) + e
    decreases |d|
  {
    assert (d + e)[1..] == d[1..] + e;
    if d[0].0 != k {
      var i :| 0 <= i < |d| && d[i].0 == k;
      assert d[1..][i - 1].0 == k;
      AppendPresent(d[1..], e, k, v);
    }
  }

  lemma {:induction false} AppendAbsent<K, V>(d: Dict<K, V>, e: Dict<K, V>, k: K, v: V)
    requires !Has(d, k)
    ensures Put(d + e, k, v) == d + Put(e, k, v) && Remove(d + e, k) == d + Remove(e, k)
    decreases |d|
  {
    if d == [] {
      assert d + e == e;
    } else {
      assert (d + e)[1..] == d[1..] + e;
      TailHasNot(d, k);
      AppendAbsent(d[1..], e, k, v);
    }
  }

  lemma TailHasNot<K, V>(d: Dict<K, V>, k: K)
    requires d != [] && !Has(d, k)
    ensures !Has(d[1..], k)
  {
    forall i | 0 <= i < |d| - 1 ensures d[1..][i].0 != k { assert d[1..][i] == d[i + 1]; }
  }

  // Overwriting the value of a live entry; killing a live entry.
  lemma {:induction false} ContentsUpdate<K, V>(es: seq<Entry<K, V>>, i: nat, v: V)
    requires DistinctAlive(es) && i < |es| && es[i].alive
    ensures Contents(es[i := es[i].(val := v)]) == Put(Contents(es), es[i].key, v)
    ensures Contents(es[i := es[i].(alive := false)]) == Remove(Contents(es), es[i].key)
    decreases |es|
  {
    var n := |es| - 1;
    var front, e, k := es[..n], es[n], es[i].key;
    if i < n {
      ContentsUpdate(front, i, v);
      assert es[i := es[i].(val := v)][..n] == front[i := front[i].(val := v)];
      assert es[i := es[i].(alive := false)][..n] == front[i := front[i].(alive := false)];
      ContentsGet(front, i);
      PutAppend(Contents(front), if e.alive then [(e.key, e.val)] else [], k, v);
    } else {
      assert es[i := es[i].(val := v)][..n] == front && es[i := es[i].(alive := false)][..n] == front;
      forall j | 0 <= j < |front| && front[j].alive ensures front[j].key != k { assert es[j] == front[j]; }
      ContentsAbsent(front, k);
      PutAppend(Contents(front), [(e.key, e.val)], k, v);
      assert [(e.key, v)] == Put([(e.key, e.val)], k, v) && Remove([(e.key, e.val)], k) == [];
    }
  }

  lemma {:induction false} CountUpdate<K, V>(es: seq<Entry<K, V>>, i: nat, e: Entry<K, V>)
    requires i < |es|
    ensures AliveCount(es[i := e]) + (if es[i].alive then 1 else 0) == AliveCount(es) + (if e.alive then 1 else 0)
    decreases |es|
  {
    var n := |es| - 1;
    if i < n {
      CountUpdate(es[..n], i, e);
      assert es[i := e][..n] == es[..n][i := e];
    } else {
      assert es[i := e][..n] == es[..n];
    }
  }

  // ----- compaction (the copying loop of map_rehash) -----

  function Compact<K, V>(es: seq<Entry<K, V>>): seq<Entry<K, V>> {
    if es == [] then [] else Compact(es[..|es| - 1]) + (if es[|es| - 1].alive then [es[|es| - 1]] else [])
  }

  lemma {:induction false} CompactSame<K, V>(es: seq<Entry<K, V>>)
    ensures Contents(Compact(es)) == Contents(es) && |Compact(es)| == AliveCount(es) == AliveCount(Compact(es))
    decreases |es|
  {
    if es != [] {
      var front, e := es[..|es| - 1], es[|es| - 1];
      CompactSame(front);
      if e.alive {
        var c := Compact(es);
        assert c[..|c| - 1] == Compact(front) && c[|c| - 1] == e;
      } else {
        assert Compact(es) == Compact(front);
      }
    }
  }

  lemma {:induction false} CompactMembers<K, V>(es: seq<Entry<K, V>>)
    ensures forall i :: 0 <= i < |Compact(es)| ==> Compact(es)[i].alive && Compact(es)[i] in es
    decreases |es|
  {
    if es != [] {
      var front, e := es[..|es| - 1], es[|es| - 1];
      CompactMembers(front);
      assert es == front + [e];
      var c := Compact(es);
      forall i | 0 <= i < |c| ensures c[i].alive && c[i] in es {
        if i < |Compact(front)| { assert c[i] == Compact(front)[i]; }
      }
    }
  }

  lemma {:induction false} CompactDistinct<K, V>(es: seq<Entry<K, V>>)
    requires DistinctAlive(es)
    ensures DistinctAlive(Compact(es))
    decreases |es|
  {
    if es != [] {
      var front, e := es[..|es| - 1], es[|es| - 1];
      CompactDistinct(front);
      CompactMembers(front);
      if e.alive {
        forall i | 0 <= i < |Compact(front)| ensures Compact(front)[i].key != e.key {
          assert Compact(front)[i] in front;
          var j :| 0 <= j < |front| && front[j] == Compact(front)[i];
          assert es[j] == front[j];
        }
      }
    }
  }

  // ----- the index -----

  // Slot p of a probe that starts at home and wraps around.
  function Probe(home: nat, d: nat, n: nat): (p: nat)
    requires n > 0
    ensures p < n
  {
    (home + d) % n
  }

  // The slot of a hash, and the slot after another.
  function Home(h: nat, n: nat): (p: nat)
    requires n > 0
    ensures p < n
  {
    h % n
  }

  function NextSlot(p: nat, n: nat): (r: nat)
    requires n > 0
    ensures r < n
  {
    (p + 1) % n
  }

  // Entry i is found from its home without meeting an empty slot.
  ghost predicate FoundAt(index: seq<int>, home: nat, d: nat, i: nat) {
    && d < |index| && index[Probe(home, d, |index|)] == i + 1
    && forall c :: 0 <= c < d ==> index[Probe(home, c, |index|)] != 0
  }

  ghost predicate Found(index: seq<int>, home: nat, i: nat) { exists d :: FoundAt(index, home, d, i) }

  // Index slots name live entries, each of which is named once and can be found.
  ghost predicate IndexOk<K, V>(hash: K -> nat, es: seq<Entry<K, V>>, index: seq<int>, n: nat) {
    && n <= |es|
    && (forall p :: 0 <= p < |index| ==> -1 <= index[p] <= n && (index[p] > 0 ==> es[index[p] - 1].alive))
    && (forall p, q :: 0 <= p < q < |index| && index[p] > 0 ==> index[p] != index[q])
    && (forall i :: 0 <= i < n && es[i].alive ==> Found(index, hash(es[i].key), i))
  }

  // Slots in use name distinct live entries, so there are no more of them.
  lemma Pigeons<K, V>(es: seq<Entry<K, V>>, index: seq<int>, m: nat)
    requires m <= |index| && forall p :: 0 <= p < m ==> 1 <= index[p] <= |es| && es[index[p] - 1].alive
    requires forall p, q :: 0 <= p < q < m ==> index[p] != index[q]
    ensures m <= AliveCount(es)
  {
    var s := set p | 0 <= p < m :: index[p] - 1;
    var r := set i | 0 <= i < |es| && es[i].alive;
    SlotsCounted(index, m);
    AliveCounted(es);
    assert s <= r;
    SubsetSmaller(s, r);
  }

  lemma {:induction false} SlotsCounted(index: seq<int>, m: nat)
    requires m <= |index| && forall p, q :: 0 <= p < q < m ==> index[p] != index[q]
    ensures |set p | 0 <= p < m :: index[p] - 1| == m
    decreases m
  {
    if m > 0 {
      SlotsCounted(index, m - 1);
      var s := set p | 0 <= p < m - 1 :: index[p] - 1;
      var x := index[m - 1] - 1;
      assert (set p | 0 <= p < m :: index[p] - 1) == s + {x};
      assert x !in s;
    }
  }

  lemma {:induction false} AliveCounted<K, V>(es: seq<Entry<K, V>>)
    ensures |set i | 0 <= i < |es| && es[i].alive| == AliveCount(es)
    decreases |es|
  {
    var s := set i | 0 <= i < |es| && es[i].alive;
    if es != [] {
      var front, n := es[..|es| - 1], |es| - 1;
      AliveCounted(front);
      var sf := set i | 0 <= i < |front| && front[i].alive;
      assert s == if es[n].alive then sf + {n} else sf;
    } else {
      assert s == {};
    }
  }

  lemma {:induction false} SubsetSmaller<T>(a: set<T>, b: set<T>)
    requires a <= b
    ensures |a| <= |b|
    decreases |a|
  {
    if a != {} {
      var x :| x in a;
      SubsetSmaller(a - {x}, b - {x});
    }
  }

  // ----- probing -----

  lemma ProbeCovers(home: nat, p: nat, n: nat) returns (c: nat)
    requires home < n && p < n
    ensures c < n && Probe(home, c, n) == p
  {
    c := if p >= home then p - home else n - home + p;
  }

  // With fewer entries than slots, a probe meets a slot not in use.
  lemma FreeSlotAhead<K, V>(hash: K -> nat, es: seq<Entry<K, V>>, index: seq<int>, n: nat, home: nat) returns (d: nat)
    requires IndexOk(hash, es, index, n) && |index| > 0 && AliveCount(es[..n]) < |index|
    ensures d < |index| && index[Probe(home, d, |index|)] <= 0
  {
    hide Probe;
    var p := FreeSlot(hash, es, index, n);
    d := ProbeCovers(home % |index|, p, |index|);
    ProbeMod(home, d, |index|);
  }

  lemma FreeSlot<K, V>(hash: K -> nat, es: seq<Entry<K, V>>, index: seq<int>, n: nat) returns (p: nat)
    requires IndexOk(hash, es, index, n) && |index| > 0 && AliveCount(es[..n]) < |index|
    ensures p < |index| && index[p] <= 0
  {
    p := 0;
    while p < |index| && index[p] > 0
      invariant p <= |index| && forall q :: 0 <= q < p ==> 1 <= index[q] <= n && es[..n][index[q] - 1].alive
    {
      p := p + 1;
    }
    Pigeons(es[..n], index, p);
  }

  // Putting entry i at the first slot not in use keeps the index in order.
  lemma PutKeeps<K, V>(hash: K -> nat, es: seq<Entry<K, V>>, index: seq<int>, i: nat, d: nat)
    requires IndexOk(hash, es, index, i) && i < |es| && es[i].alive && d < |index|
    requires var home := hash(es[i].key);
             index[Probe(home, d, |index|)] <= 0 && forall c :: 0 <= c < d ==> index[Probe(home, c, |index|)] > 0
    ensures IndexOk(hash, es, index[Probe(hash(es[i].key), d, |index|) := i + 1], i + 1)
  {
    hide Probe;
    var h := Probe(hash(es[i].key), d, |index|);
    var index2 := index[h := i + 1];
    forall j | 0 <= j < i + 1 && es[j].alive ensures Found(index2, hash(es[j].key), j) {
      if j < i {
        var e :| FoundAt(index, hash(es[j].key), e, j);
        assert FoundAt(index2, hash(es[j].key), e, j);
      } else {
        assert FoundAt(index2, hash(es[i].key), d, i);
      }
    }
  }

  // A search that met an empty slot, or every slot, has missed nothing.
  lemma NotFound<K, V>(hash: K -> nat, es: seq<Entry<K, V>>, index: seq<int>, k: K, d: nat)
    requires IndexOk(hash, es, index, |es|) && d <= |index|
    requires forall c :: 0 <= c < d ==> Passed(es, index, Probe(hash(k), c, |index|), k)
    requires d < |index| ==> index[Probe(hash(k), d, |index|)] == 0
    ensures forall i :: 0 <= i < |es| && es[i].alive ==> es[i].key != k
  {
    hide Probe;
    forall i | 0 <= i < |es| && es[i].alive ensures es[i].key != k {
      var e :| FoundAt(index, hash(es[i].key), e, i);
    }
  }

  // A slot the search moves past.
  ghost predicate Passed<K, V>(es: seq<Entry<K, V>>, index: seq<int>, p: nat, k: K) {
    p < |index| && index[p] != 0 && (index[p] > 0 && index[p] <= |es| ==> es[index[p] - 1].key != k)
  }

  lemma DelKeeps<K, V>(hash: K -> nat, es: seq<Entry<K, V>>, index: seq<int>, i: nat, h: nat)
    requires IndexOk(hash, es, index, |es|) && i < |es| && h < |index| && index[h] == i + 1
    ensures IndexOk(hash, es[i := es[i].(alive := false)], index[h := -1], |es|)
  {
    hide Probe, Found;
    var es2, index2 := es[i := es[i].(alive := false)], index[h := -1];
    forall j | 0 <= j < |es2| && es2[j].alive ensures Found(index2, hash(es2[j].key), j) {
      assert es2[j] == es[j];
      FoundStill(index, h, -1, hash(es[j].key), j);
    }
  }

  // Another slot written, not with 0: the entry is still found.
  lemma FoundStill(index: seq<int>, h: nat, v: int, home: nat, j: nat)
    requires Found(index, home, j) && h < |index| && index[h] != j + 1 && v != 0
    ensures Found(index[h := v], home, j)
  {
    hide Probe;
    var e :| FoundAt(index, home, e, j);
    assert FoundAt(index[h := v], home, e, j);
  }

  lemma UpdateKeeps<K, V>(hash: K -> nat, es: seq<Entry<K, V>>, index: seq<int>, i: nat, v: V)
    requires IndexOk(hash, es, index, |es|) && DistinctAlive(es) && i < |es|
    ensures IndexOk(hash, es[i := es[i].(val := v)], index, |es|) && DistinctAlive(es[i := es[i].(val := v)])
  {
    hide Probe;
    var es2 := es[i := es[i].(val := v)];
    forall j | 0 <= j < |es2| && es2[j].alive ensures Found(index, hash(es2[j].key), j) {
      assert es[j].alive && es2[j].key == es[j].key;
    }
  }

  lemma AppendKeeps<K, V>(hash: K -> nat, es: seq<Entry<K, V>>, index: seq<int>, e: Entry<K, V>)
    requires IndexOk(hash, es, index, |es|)
    ensures IndexOk(hash, es + [e], index, |es|)
  {
    hide Probe;
    var es2 := es + [e];
    forall j | 0 <= j < |es| && es2[j].alive ensures Found(index, hash(es2[j].key), j) {
      assert es2[j] == es[j];
    }
  }

  // The source masks with the slot count less one, so it must be a power of two.
  predicate PowerOrNone(n: nat) { n == 0 || exists k: nat :: k <= n && n == Pow2(k) }

  lemma PowerTwice(n: nat)
    requires n > 0 && PowerOrNone(n)
    ensures PowerOrNone(2 * n)
  {
    var k: nat :| k <= n && n == Pow2(k);
    assert 2 * n == Pow2(k + 1);
  }

  lemma PowerEight()
    ensures PowerOrNone(8)
  {
    assert Pow2(3) == 2 * Pow2(2) && Pow2(2) == 2 * Pow2(1) && Pow2(1) == 2 * Pow2(0);
  }

  lemma {:induction false} AllDead<K, V>(es: seq<Entry<K, V>>)
    ensures AliveCount(es) == 0 ==> forall i :: 0 <= i < |es| ==> !es[i].alive
    decreases |es|
  {
    if es != [] {
      AllDead(es[..|es| - 1]);
      forall i | 0 <= i < |es| - 1 ensures es[i] == es[..|es| - 1][i] { }
    }
  }

  lemma ProbeZero(home: nat, n: nat)
    requires n > 0
    ensures Probe(home, 0, n) == Home(home, n)
  {
  }

  lemma IndexRange<K, V>(hash: K -> nat, es: seq<Entry<K, V>>, index: seq<int>, n: nat)
    requires IndexOk(hash, es, index, n)
    ensures forall p :: 0 <= p < |index| ==> index[p] <= |es| && (index[p] > 0 ==> es[index[p] - 1].alive)
  {
  }

  lemma NextProbe(home: nat, d: nat, n: nat)
    requires n > 0
    ensures NextSlot(Probe(home, d, n), n) == Probe(home, d + 1, n)
  {
    var q := (home + d) / n;
    assert home + d == q * n + (home + d) % n;
    var r := (home + d) % n;
    if r + 1 < n {
      assert home + d + 1 == q * n + (r + 1);
      DivModUnique(home + d + 1, q, r + 1, n);
    } else {
      assert home + d + 1 == (q + 1) * n + 0;
      DivModUnique(home + d + 1, q + 1, 0, n);
      DivModUnique(r + 1, 1, 0, n);
    }
  }

  // Probing from the hash or from its remainder is the same.
  lemma {:induction false} ProbeMod(home: nat, c: nat, n: nat)
    requires n > 0
    ensures Probe(home % n, c, n) == Probe(home, c, n)
    decreases c
  {
    if c == 0 {
      DivModUnique(home % n, 0, home % n, n);
    } else {
      ProbeMod(home, c - 1, n);
      NextProbe(home, c - 1, n);
      NextProbe(home % n, c - 1, n);
    }
  }

  lemma EmptyIndex<K, V>(hash: K -> nat, es: seq<Entry<K, V>>, index: seq<int>)
    requires forall p :: 0 <= p < |index| ==> index[p] == 0
    ensures IndexOk(hash, es, index, 0)
  {
  }

  lemma NoneAlive<K, V>(es: seq<Entry<K, V>>, d: Dict<K, V>, k: K)
    requires Contents(es) == d && !Has(d, k)
    ensures forall i :: 0 <= i < |es| && es[i].alive ==> es[i].key != k
  {
    forall i | 0 <= i < |es| && es[i].alive ensures es[i].key != k { AliveHas(es, i); }
  }

  lemma AliveHas<K, V>(es: seq<Entry<K, V>>, i: nat)
    requires i < |es| && es[i].alive
    ensures Has(Contents(es), es[i].key)
  {
    assert es[i] == Entry(true, es[i].key, es[i].val) && es[i] in es;
    ContentsHas(es, es[i].key, es[i].val);
    var j :| 0 <= j < |Contents(es)| && Contents(es)[j] == (es[i].key, es[i].val);
  }

  lemma {:induction false} RemoveAbsent<K, V>(d: Dict<K, V>, k: K)
    requires !Has(d, k)
    ensures Remove(d, k) == d
    decreases |d|
  {
    if d != [] {
      assert d[0].0 != k;
      TailHasNot(d, k);
      RemoveAbsent(d[1..], k);
    }
  }
}
