// Sizes, alignments and field offsets of compiler/backend_x86.cardinal, for
// structs that hold other structs by value, and the slots of a function's frame.
module Layout {
  import opened Modular

  // TInt, TFloat, bool, char and enums have a size that is their alignment; unit
  // takes no bytes; arrays and closures are 3 and 2 words; everything else is a
  // word.
  datatype FTy = Scalar(bytes: nat) | Unit | Array | Closure | Struct(name: string) | WordTy

  type Fields = seq<FTy>

  type Structs = map<string, Fields>

  predicate ScalarOk(t: FTy) { t.Scalar? ==> t.bytes == 1 || t.bytes == 2 || t.bytes == 4 || t.bytes == 8 }

  // Every struct is known, and contains only structs of lower rank: by-value
  // containment has no cycle.
  predicate Ranked(sm: Structs, rank: map<string, nat>) {
    && sm.Keys == rank.Keys
    && forall n :: n in sm ==> forall i :: 0 <= i < |sm[n]| ==> FieldRanked(sm, rank, n, sm[n][i])
  }

  predicate FieldRanked(sm: Structs, rank: map<string, nat>, n: string, t: FTy)
    requires n in rank
  {
    ScalarOk(t) && (t.Struct? ==> t.name in sm && t.name in rank && rank[t.name] < rank[n])
  }

  predicate Known(sm: Structs, rank: map<string, nat>, t: FTy) {
    ScalarOk(t) && (t.Struct? ==> t.name in sm && t.name in rank)
  }

  function RankOf(rank: map<string, nat>, t: FTy): nat { if t.Struct? && t.name in rank then 2 * rank[t.name] + 2 else 0 }

  // align_up.
  function AlignUp(off: nat, a: nat): (r: nat)
    ensures off <= r && (a > 0 ==> r < off + a && r % a == 0)
  {
    if a <= 1 then off
    else
      var m := off % a;
      AlignUpFact(off, a);
      if m == 0 then off else off + (a - m)
  }

  lemma AlignUpFact(off: nat, a: nat)
    requires a > 1
    ensures off % a != 0 ==> (off + (a - off % a)) % a == 0
  {
    var q, m := off / a, off % a;
    if m != 0 {
      assert off + (a - m) == (q + 1) * a + 0;
      DivModUnique(off + (a - m), q + 1, 0, a);
    }
  }

  function Max(a: nat, b: nat): nat { if a > b then a else b }

  // type_align, with struct_align's maximum over the fields.
  function Align(sm: Structs, rank: map<string, nat>, t: FTy): (a: nat)
    requires Ranked(sm, rank) && Known(sm, rank, t)
    ensures a > 0
    decreases RankOf(rank, t), 0
  {
    match t
    case Scalar(b) => b
    case Struct(n) => MaxAlign(sm, rank, n, |sm[n]|)
    case _ => 8
  }

  function MaxAlign(sm: Structs, rank: map<string, nat>, n: string, k: nat): (a: nat)
    requires Ranked(sm, rank) && n in sm && k <= |sm[n]|
    ensures a > 0
    decreases 2 * rank[n] + 1, k
  {
    if k == 0 then 1
    else
      assert FieldRanked(sm, rank, n, sm[n][k - 1]);
      Max(MaxAlign(sm, rank, n, k - 1), Align(sm, rank, sm[n][k - 1]))
  }

  // type_size, with struct_size's running offset.
  function Size(sm: Structs, rank: map<string, nat>, t: FTy): nat
    requires Ranked(sm, rank) && Known(sm, rank, t)
    decreases RankOf(rank, t), 0
  {
    match t
    case Scalar(b) => b
    case Unit => 0
    case Array => 24
    case Closure => 16
    case WordTy => 8
    case Struct(n) => AlignUp(End(sm, rank, n, |sm[n]|), MaxAlign(sm, rank, n, |sm[n]|))
  }

  // Where field k starts: the running offset, aligned for it.
  function Offset(sm: Structs, rank: map<string, nat>, n: string, k: nat): nat
    requires Ranked(sm, rank) && n in sm && k < |sm[n]|
    decreases 2 * rank[n] + 1, k, 2
  {
    assert FieldRanked(sm, rank, n, sm[n][k]);
    AlignUp(End(sm, rank, n, k), Align(sm, rank, sm[n][k]))
  }

  // The offset after the first k fields.
  function End(sm: Structs, rank: map<string, nat>, n: string, k: nat): nat
    requires Ranked(sm, rank) && n in sm && k <= |sm[n]|
    decreases 2 * rank[n] + 1, k, 1
  {
    if k == 0 then 0
    else
      assert FieldRanked(sm, rank, n, sm[n][k - 1]);
      Offset(sm, rank, n, k - 1) + Size(sm, rank, sm[n][k - 1])
  }

  // ----- the loops -----

  // struct_size.
  method StructSize(sm: Structs, rank: map<string, nat>, n: string) returns (s: nat)
    requires Ranked(sm, rank) && n in sm
    ensures s == Size(sm, rank, Struct(n))
  {
    var off: nat, m: nat := 0, 1;
    var i := 0;
    while i < |sm[n]|
      invariant 0 <= i <= |sm[n]| && off == End(sm, rank, n, i) && m == MaxAlign(sm, rank, n, i)
    {
      assert FieldRanked(sm, rank, n, sm[n][i]);
      var a := Align(sm, rank, sm[n][i]);
      off := AlignUp(off, a);
      off := off + Size(sm, rank, sm[n][i]);
      m := Max(m, a);
      i := i + 1;
    }
    s := AlignUp(off, m);
  }

  // field_offset, for the field at position k.
  method FieldOffset(sm: Structs, rank: map<string, nat>, n: string, k: nat) returns (off: nat)
    requires Ranked(sm, rank) && n in sm && k < |sm[n]|
    ensures off == Offset(sm, rank, n, k)
  {
    off := 0;
    var i := 0;
    while true
      invariant 0 <= i <= k && off == End(sm, rank, n, i)
      decreases k - i
    {
      assert FieldRanked(sm, rank, n, sm[n][i]);
      off := AlignUp(off, Align(sm, rank, sm[n][i]));
      if i == k { return; }
      off := off + Size(sm, rank, sm[n][i]);
      i := i + 1;
    }
  }

  // ----- soundness -----

  // Alignments are powers of two up to 8, so of two the smaller divides the larger.
  predicate Power(a: nat) { a == 1 || a == 2 || a == 4 || a == 8 }

  lemma Divides(a: nat, b: nat, x: nat)
    requires Power(a) && Power(b) && a <= b && x % b == 0
    ensures x % a == 0
  {
    var k, q := b / a, x / b;
    assert b == k * a;
    assert x == q * b == q * (k * a) == (q * k) * a + 0;
    DivModUnique(x, q * k, 0, a);
  }

  lemma {:induction false} AlignPower(sm: Structs, rank: map<string, nat>, t: FTy)
    requires Ranked(sm, rank) && Known(sm, rank, t)
    ensures Power(Align(sm, rank, t))
    decreases RankOf(rank, t), 0
  {
    if t.Struct? { MaxPower(sm, rank, t.name, |sm[t.name]|); }
  }

  lemma {:induction false} MaxPower(sm: Structs, rank: map<string, nat>, n: string, k: nat)
    requires Ranked(sm, rank) && n in sm && k <= |sm[n]|
    ensures Power(MaxAlign(sm, rank, n, k))
    decreases 2 * rank[n] + 1, k
  {
    if k > 0 {
      assert FieldRanked(sm, rank, n, sm[n][k - 1]);
      MaxPower(sm, rank, n, k - 1);
      AlignPower(sm, rank, sm[n][k - 1]);
    }
  }

  lemma {:induction false} MaxIsMax(sm: Structs, rank: map<string, nat>, n: string, i: nat, k: nat)
    requires Ranked(sm, rank) && n in sm && i < k <= |sm[n]|
    ensures FieldRanked(sm, rank, n, sm[n][i]) && Align(sm, rank, sm[n][i]) <= MaxAlign(sm, rank, n, k)
    decreases k
  {
    assert FieldRanked(sm, rank, n, sm[n][i]);
    if i < k - 1 {
      MaxIsMax(sm, rank, n, i, k - 1);
      assert FieldRanked(sm, rank, n, sm[n][k - 1]);
    }
  }

  // A type's size is a multiple of its alignment.
  lemma SizeAligned(sm: Structs, rank: map<string, nat>, t: FTy)
    requires Ranked(sm, rank) && Known(sm, rank, t)
    ensures Power(Align(sm, rank, t)) && Size(sm, rank, t) % Align(sm, rank, t) == 0
  {
    AlignPower(sm, rank, t);
  }

  // A field starts where its type may start, also counted from any place its
  // struct may start.
  lemma FieldAligned(sm: Structs, rank: map<string, nat>, n: string, k: nat, base: nat)
    requires Ranked(sm, rank) && n in sm && k < |sm[n]| && base % Align(sm, rank, Struct(n)) == 0
    ensures FieldRanked(sm, rank, n, sm[n][k])
    ensures (base + Offset(sm, rank, n, k)) % Align(sm, rank, sm[n][k]) == 0
  {
    assert FieldRanked(sm, rank, n, sm[n][k]);
    var a := Align(sm, rank, sm[n][k]);
    AlignPower(sm, rank, sm[n][k]);
    AlignPower(sm, rank, Struct(n));
    MaxIsMax(sm, rank, n, k, |sm[n]|);
    Divides(a, Align(sm, rank, Struct(n)), base);
    SumMultiple(base, Offset(sm, rank, n, k), a);
  }

  // How many bytes a type that is no struct takes, and what its place must be a
  // multiple of.
  lemma Sizes(sm: Structs, rank: map<string, nat>, t: FTy)
    requires Ranked(sm, rank) && Known(sm, rank, t)
    ensures match t
            case Scalar(b) => Size(sm, rank, t) == b && Align(sm, rank, t) == b
            case Unit => Size(sm, rank, t) == 0 && Align(sm, rank, t) == 8
            case Array => Size(sm, rank, t) == 3 * 8 && Align(sm, rank, t) == 8
            case Closure => Size(sm, rank, t) == 2 * 8 && Align(sm, rank, t) == 8
            case WordTy => Size(sm, rank, t) == 8 && Align(sm, rank, t) == 8
            case Struct(n) =>
              && (forall k :: 0 <= k < |sm[n]| ==> Fit(sm, rank, n, k) <= Align(sm, rank, t))
              && (if sm[n] == [] then Align(sm, rank, t) == 1 else exists k :: 0 <= k < |sm[n]| && Fit(sm, rank, n, k) == Align(sm, rank, t))
  {
    if t.Struct? {
      forall k | 0 <= k < |sm[t.name]| ensures Fit(sm, rank, t.name, k) <= Align(sm, rank, t) {
        MaxIsMax(sm, rank, t.name, k, |sm[t.name]|);
      }
      if sm[t.name] != [] { var k := MaxIsOne(sm, rank, t.name, |sm[t.name]|); }
    }
  }

  // What field k's place must be a multiple of.
  function Fit(sm: Structs, rank: map<string, nat>, n: string, k: nat): nat
    requires Ranked(sm, rank) && n in sm && k < |sm[n]|
  {
    assert FieldRanked(sm, rank, n, sm[n][k]);
    Align(sm, rank, sm[n][k])
  }

  lemma {:induction false} MaxIsOne(sm: Structs, rank: map<string, nat>, n: string, m: nat) returns (k: nat)
    requires Ranked(sm, rank) && n in sm && 0 < m <= |sm[n]|
    ensures k < m && Fit(sm, rank, n, k) == MaxAlign(sm, rank, n, m)
    decreases m
  {
    assert FieldRanked(sm, rank, n, sm[n][m - 1]);
    k := m - 1;
    if m > 1 && MaxAlign(sm, rank, n, m - 1) > Fit(sm, rank, n, m - 1) { k := MaxIsOne(sm, rank, n, m - 1); }
  }

  // In bytes: from any base that is a multiple of 8, a scalar of b bytes lies at a
  // multiple of b, anything else that is no struct at a multiple of 8; and the
  // struct's size is a multiple of that.
  lemma FieldBytes(sm: Structs, rank: map<string, nat>, n: string, k: nat, base: nat)
    requires Ranked(sm, rank) && n in sm && k < |sm[n]| && base % 8 == 0 && !sm[n][k].Struct?
    ensures var a := if sm[n][k].Scalar? then sm[n][k].bytes else 8;
            a > 0 && (base + Offset(sm, rank, n, k)) % a == 0 && Size(sm, rank, Struct(n)) % a == 0
  {
    hide Size, Offset;
    var a := if sm[n][k].Scalar? then sm[n][k].bytes else 8;
    assert FieldRanked(sm, rank, n, sm[n][k]);
    AlignPower(sm, rank, Struct(n));
    Divides(Align(sm, rank, Struct(n)), 8, base);
    FieldAligned(sm, rank, n, k, base);
    SizeAligned(sm, rank, Struct(n));
    MaxIsMax(sm, rank, n, k, |sm[n]|);
    Divides(a, Align(sm, rank, Struct(n)), Size(sm, rank, Struct(n)));
  }

  // No byte is wasted: the first field is at 0, and the gap before any other, or
  // before the end of the struct, is less than the alignment asks for.
  lemma NoWaste(sm: Structs, rank: map<string, nat>, n: string, k: nat)
    requires Ranked(sm, rank) && n in sm && k < |sm[n]|
    ensures Offset(sm, rank, n, 0) == 0
    ensures FieldRanked(sm, rank, n, sm[n][k])
    ensures k + 1 < |sm[n]| ==> Offset(sm, rank, n, k + 1) < Offset(sm, rank, n, k) + Size(sm, rank, sm[n][k]) + Fit(sm, rank, n, k + 1)
    ensures k + 1 == |sm[n]| ==>
              Size(sm, rank, Struct(n)) < Offset(sm, rank, n, k) + Size(sm, rank, sm[n][k]) + Align(sm, rank, Struct(n))
  {
    assert FieldRanked(sm, rank, n, sm[n][k]);
    assert k + 1 < |sm[n]| ==> FieldRanked(sm, rank, n, sm[n][k + 1]);
    assert End(sm, rank, n, 0) == 0;
    assert End(sm, rank, n, k + 1) == Offset(sm, rank, n, k) + Size(sm, rank, sm[n][k]);
  }

  lemma SumMultiple(x: nat, y: nat, a: nat)
    requires a > 0 && x % a == 0 && y % a == 0
    ensures (x + y) % a == 0
  {
    assert x + y == (x / a + y / a) * a + 0;
    DivModUnique(x + y, x / a + y / a, 0, a);
  }

  lemma {:induction false} EndGrows(sm: Structs, rank: map<string, nat>, n: string, j: nat, k: nat)
    requires Ranked(sm, rank) && n in sm && j <= k <= |sm[n]|
    ensures End(sm, rank, n, j) <= End(sm, rank, n, k)
    decreases k
  {
    if j < k {
      assert FieldRanked(sm, rank, n, sm[n][k - 1]);
      EndGrows(sm, rank, n, j, k - 1);
    }
  }

  // Fields lie in source order, do not overlap, and stay inside the struct.
  lemma FieldsDisjoint(sm: Structs, rank: map<string, nat>, n: string, j: nat, k: nat)
    requires Ranked(sm, rank) && n in sm && j < k < |sm[n]|
    ensures FieldRanked(sm, rank, n, sm[n][j]) && FieldRanked(sm, rank, n, sm[n][k])
    ensures Offset(sm, rank, n, j) + Size(sm, rank, sm[n][j]) <= Offset(sm, rank, n, k)
    ensures Offset(sm, rank, n, k) + Size(sm, rank, sm[n][k]) <= Size(sm, rank, Struct(n))
  {
    hide Align;
    assert FieldRanked(sm, rank, n, sm[n][j]) && FieldRanked(sm, rank, n, sm[n][k]);
    EndGrows(sm, rank, n, j + 1, k);
    EndGrows(sm, rank, n, k + 1, |sm[n]|);
  }

  // A path of nested by-value fields.
  datatype Step = Step(n: string, k: nat)

  ghost predicate IsNesting(sm: Structs, p: seq<Step>) {
    && (forall i :: 0 <= i < |p| ==> p[i].n in sm && p[i].k < |sm[p[i].n]|)
    && (forall i :: 0 <= i < |p| - 1 ==> p[i].n in sm && p[i].k < |sm[p[i].n]| && sm[p[i].n][p[i].k] == Struct(p[i + 1].n))
  }

  // Its offset from the start of the outermost struct.
  ghost function NestedOffset(sm: Structs, rank: map<string, nat>, p: seq<Step>): nat
    requires Ranked(sm, rank) && IsNesting(sm, p)
    decreases |p|
  {
    if p == [] then 0
    else
      assert IsNesting(sm, p[..|p| - 1]);
      NestedOffset(sm, rank, p[..|p| - 1]) + Offset(sm, rank, p[|p| - 1].n, p[|p| - 1].k)
  }

  // However deep, a field is aligned for its type and lies inside the outermost
  // struct.
  lemma {:induction false} NestedSound(sm: Structs, rank: map<string, nat>, p: seq<Step>)
    requires Ranked(sm, rank) && IsNesting(sm, p) && p != []
    ensures var last := p[|p| - 1];
            && FieldRanked(sm, rank, last.n, sm[last.n][last.k])
            && NestedOffset(sm, rank, p) % Align(sm, rank, sm[last.n][last.k]) == 0
            && NestedOffset(sm, rank, p) + Size(sm, rank, sm[last.n][last.k]) <= Size(sm, rank, Struct(p[0].n))
    decreases |p|
  {
    var m := |p| - 1;
    var front, last := p[..m], p[m];
    assert IsNesting(sm, front);
    assert FieldRanked(sm, rank, last.n, sm[last.n][last.k]);
    AlignPower(sm, rank, Struct(last.n));
    EndGrows(sm, rank, last.n, last.k + 1, |sm[last.n]|);
    if m == 0 {
      assert NestedOffset(sm, rank, front) == 0;
      FieldAligned(sm, rank, last.n, last.k, 0);
    } else {
      NestedSound(sm, rank, front);
      assert sm[p[m - 1].n][p[m - 1].k] == Struct(last.n);
      FieldAligned(sm, rank, last.n, last.k, NestedOffset(sm, rank, front));
    }
  }

  // ----- frames -----

  // slot_size: rounded up to whole words, at least one.
  function SlotSize(size: nat): (r: nat)
    ensures r >= 8 && r >= size && r % 8 == 0
  {
    if size < 8 then 8 else AlignUp(size, 8)
  }

  // Bytes taken below %rbp by the first k slots.
  function Depth(sizes: seq<nat>, k: nat): nat
    requires k <= |sizes|
  {
    if k == 0 then 0 else Depth(sizes, k - 1) + SlotSize(sizes[k - 1])
  }

  function Round16(n: nat): nat { if n % 16 == 0 then n else n + (16 - n % 16) }

  datatype Frame = Frame(slots: seq<int>, scratch: int, hidden: int, size: nat)

  // The slot assignment of emit_func: parameters, temps and locals in order, the
  // 14-word scratch area, and the hidden result pointer when there is one.
  method LayFrame(sizes: seq<nat>, retMem: bool) returns (f: Frame)
    ensures LaidOut(sizes, retMem, f)
  {
    var slots: seq<int>, off: int := [], 0;
    var i := 0;
    while i < |sizes|
      invariant 0 <= i <= |sizes| && |slots| == i && off == 0 - Depth(sizes, i) as int
      invariant forall k :: 0 <= k < i ==> slots[k] == 0 - Depth(sizes, k + 1) as int
    {
      off := off - SlotSize(sizes[i]);
      slots := slots + [off];
      i := i + 1;
    }
    off := off - 112;
    var scratch, hidden := off, 0;
    if retMem {
      off := off - 8;
      hidden := off;
    }
    f := Frame(slots, scratch, hidden, Round16(-off));
  }

  lemma {:induction false} DepthGrows(sizes: seq<nat>, j: nat, k: nat)
    requires j <= k <= |sizes|
    ensures Depth(sizes, j) <= Depth(sizes, k) && Depth(sizes, k) % 8 == 0
    decreases k
  {
    hide SlotSize;
    if j < k { DepthGrows(sizes, j, k - 1); } else if k > 0 { DepthGrows(sizes, k - 1, k - 1); }
  }

  lemma DepthHolds(sizes: seq<nat>, k: nat)
    requires k < |sizes|
    ensures SlotSize(sizes[k]) <= Depth(sizes, k + 1) && Depth(sizes, k + 1) % 8 == 0
  {
    DepthGrows(sizes, k, k + 1);
  }

  // A frame as LayFrame lays it out.
  predicate LaidOut(sizes: seq<nat>, retMem: bool, f: Frame) {
    && |f.slots| == |sizes| && (forall i :: 0 <= i < |sizes| ==> f.slots[i] == 0 - Depth(sizes, i + 1) as int)
    && f.scratch == 0 - (Depth(sizes, |sizes|) + 112) as int && (retMem ==> f.hidden == f.scratch - 8)
    && f.size == Round16(Depth(sizes, |sizes|) + 112 + (if retMem then 8 else 0))
  }

  // The frame is a multiple of 16 and holds the scratch area and, below it, the
  // result pointer; each slot is above both, and a whole number of words.
  lemma FrameSound(sizes: seq<nat>, retMem: bool, f: Frame)
    requires LaidOut(sizes, retMem, f)
    ensures f.size % 16 == 0 && 0 - f.size as int <= f.scratch && f.scratch + 112 <= 0
    ensures retMem ==> f.hidden + 8 <= f.scratch && 0 - f.size as int <= f.hidden
    ensures forall k :: 0 <= k < |sizes| ==> f.scratch + 112 <= f.slots[k] && f.slots[k] + SlotSize(sizes[k]) <= 0 && f.slots[k] % 8 == 0
  {
    hide SlotSize, Depth;
    forall k | 0 <= k < |sizes| ensures f.scratch + 112 <= f.slots[k] && f.slots[k] % 8 == 0 && f.slots[k] + SlotSize(sizes[k]) <= 0 {
      DepthGrows(sizes, k + 1, |sizes|);
      DepthHolds(sizes, k);
    }
  }

  // No two slots overlap.
  lemma SlotsDisjoint(sizes: seq<nat>, retMem: bool, f: Frame, j: nat, k: nat)
    requires LaidOut(sizes, retMem, f) && j < k < |sizes|
    ensures f.slots[k] + SlotSize(sizes[k]) <= f.slots[j]
  {
    DepthGrows(sizes, j + 1, k);
  }
}
