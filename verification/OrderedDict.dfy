// An insertion-ordered dictionary: what a map is to a program, and what the
// interpreter's MapV is.
module OrderedDict {
  import opened Numeric

  // Pairs in insertion order, one per key.
  type Dict<K, V> = seq<(K, V)>

  function Has<K(==), V>(d: Dict<K, V>, k: K): bool { exists i :: 0 <= i < |d| && d[i].0 == k }

  ghost predicate DistinctKeys<K, V>(d: Dict<K, V>) { forall i, j :: 0 <= i < j < |d| ==> d[i].0 != d[j].0 }

  function Get<K(==), V>(d: Dict<K, V>, k: K): Option<V> {
    if d == [] then None else if d[0].0 == k then Some(d[0].1) else Get(d[1..], k)
  }

  // Overwriting keeps the position; a new key goes last.
  function Put<K(==), V>(d: Dict<K, V>, k: K, v: V): Dict<K, V> {
    if d == [] then [(k, v)] else if d[0].0 == k then [(k, v)] + d[1..] else [d[0]] + Put(d[1..], k, v)
  }

  function Remove<K(==), V>(d: Dict<K, V>, k: K): Dict<K, V> {
    if d == [] then [] else if d[0].0 == k then d[1..] else [d[0]] + Remove(d[1..], k)
  }

  function Keys<K, V>(d: Dict<K, V>): seq<K> { seq(|d|, i requires 0 <= i < |d| => d[i].0) }

  // ----- the laws of a dictionary -----

  lemma {:induction false} GetIff<K, V>(d: Dict<K, V>, k: K, v: V)
    requires DistinctKeys(d)
    ensures Get(d, k) == Some(v) <==> (k, v) in d
    ensures Get(d, k).Some? <==> Has(d, k)
    decreases |d|
  {
    if d != [] {
      assert d == [d[0]] + d[1..];
      GetIff(d[1..], k, v);
      if d[0].0 == k {
        forall i | 0 <= i < |d| && d[i] == (k, v) ensures i == 0 { }
      } else if Has(d, k) {
        var i :| 0 <= i < |d| && d[i].0 == k;
        assert d[1..][i - 1].0 == k;
      }
    }
  }

  lemma {:induction false} Absent<K, V>(d: Dict<K, V>, k: K)
    requires forall i :: 0 <= i < |d| ==> d[i].0 != k
    ensures Get(d, k) == None
    decreases |d|
  {
    if d != [] { Absent(d[1..], k); }
  }

  lemma {:induction false} PutGet<K, V>(d: Dict<K, V>, k: K, v: V, k2: K)
    ensures Get(Put(d, k, v), k2) == if k2 == k then Some(v) else Get(d, k2)
    decreases |d|
  {
    if d != [] {
      if d[0].0 == k {
        assert ([(k, v)] + d[1..])[1..] == d[1..];
      } else {
        PutGet(d[1..], k, v, k2);
        assert ([d[0]] + Put(d[1..], k, v))[1..] == Put(d[1..], k, v);
      }
    }
  }

  lemma {:induction false} RemoveGet<K, V>(d: Dict<K, V>, k: K, k2: K)
    requires DistinctKeys(d)
    ensures Get(Remove(d, k), k2) == if k2 == k then None else Get(d, k2)
    decreases |d|
  {
    if d != [] {
      if d[0].0 == k {
        Absent(d[1..], k);
      } else {
        RemoveGet(d[1..], k, k2);
        assert ([d[0]] + Remove(d[1..], k))[1..] == Remove(d[1..], k);
      }
    }
  }

  // Overwriting changes no order and no length; a new key is appended.
  lemma {:induction false} PutOrder<K, V>(d: Dict<K, V>, k: K, v: V)
    ensures Has(d, k) ==> Keys(Put(d, k, v)) == Keys(d)
    ensures !Has(d, k) ==> Put(d, k, v) == d + [(k, v)]
    decreases |d|
  {
    if d != [] {
      if d[0].0 == k {
        assert Put(d, k, v)[1..] == d[1..];
        forall i | 0 <= i < |d| ensures Put(d, k, v)[i].0 == d[i].0 { }
      } else {
        PutOrder(d[1..], k, v);
        var r := Put(d[1..], k, v);
        if Has(d, k) {
          var i :| 0 <= i < |d| && d[i].0 == k;
          assert d[1..][i - 1].0 == k;
          assert Keys(r) == Keys(d[1..]);
          forall j | 0 <= j < |d| ensures Put(d, k, v)[j].0 == d[j].0 {
            if j > 0 { assert Keys(r)[j - 1] == Keys(d[1..])[j - 1]; }
          }
        } else {
          forall i | 0 <= i < |d[1..]| ensures d[1..][i].0 != k { assert d[1..][i] == d[i + 1]; }
          assert [d[0]] + (d[1..] + [(k, v)]) == d + [(k, v)];
        }
      }
    }
  }

  // Deleting and inserting again moves a key to the end.
  lemma RemovePutLast<K, V>(d: Dict<K, V>, k: K, v: V)
    requires DistinctKeys(d)
    ensures Put(Remove(d, k), k, v) == Remove(d, k) + [(k, v)]
  {
    RemoveGet(d, k, k);
    RemoveDistinct(d, k);
    if Has(Remove(d, k), k) { GetIff(Remove(d, k), k, v); }
    PutOrder(Remove(d, k), k, v);
  }

  lemma {:induction false} RemoveDistinct<K, V>(d: Dict<K, V>, k: K)
    requires DistinctKeys(d)
    ensures DistinctKeys(Remove(d, k)) && forall x :: x in Remove(d, k) ==> x in d
    decreases |d|
  {
    if d != [] && d[0].0 != k {
      RemoveDistinct(d[1..], k);
      var r := Remove(d[1..], k);
      forall i | 0 <= i < |r| ensures r[i].0 != d[0].0 {
        assert r[i] in d[1..];
      }
    }
  }
}
