// Strings of bootstrap/runtime/cardinal_rt.c: UTF-8 bytes (RFC 3629 section 3)
// indexed by codepoint.
module Utf8 {
  import Handles

  type Byte = b: int | 0 <= b < 0x100

  predicate Scalar(cp: int) { 0 <= cp < 0xD800 || 0xE000 <= cp <= 0x10FFFF }

  predicate AllScalar(cps: seq<int>) { forall i :: 0 <= i < |cps| ==> Scalar(cps[i]) }

  // utf8_encode.
  function Encode(cp: int): seq<Byte>
    requires 0 <= cp <= 0x10FFFF
  {
    if cp < 0x80 then [cp]
    else if cp < 0x800 then [0xC0 + cp / 64, 0x80 + cp % 64]
    else if cp < 0x10000 then [0xE0 + cp / 4096, 0x80 + cp / 64 % 64, 0x80 + cp % 64]
    else [0xF0 + cp / 0x40000, 0x80 + cp / 4096 % 64, 0x80 + cp / 64 % 64, 0x80 + cp % 64]
  }

  // How many bytes follow a lead byte, and the bits it carries.
  function Extra(c: Byte): nat { if c < 0x80 then 0 else if c < 0xE0 then 1 else if c < 0xF0 then 2 else 3 }

  function LeadBits(c: Byte): int {
    if c < 0x80 then c else if c < 0xE0 then c % 32 else if c < 0xF0 then c % 16 else c % 8
  }

  // Up to `extra` continuation bytes at b, as far as there are any.
  function Continue(b: seq<Byte>, cp: int, extra: nat): int
    decreases extra
  {
    if extra == 0 || b == [] then cp else Continue(b[1..], 64 * cp + b[0] % 64, extra - 1)
  }

  // utf8_decode: the codepoint at the front, and the bytes it takes.
  function DecodeOne(b: seq<Byte>): (int, nat)
    requires b != []
  {
    var extra := Extra(b[0]);
    (Continue(b[1..], LeadBits(b[0]), extra), 1 + if extra <= |b| - 1 then extra else |b| - 1)
  }

  function EncodeAll(cps: seq<int>): seq<Byte>
    requires AllScalar(cps)
  {
    if cps == [] then [] else Encode(cps[0]) + EncodeAll(cps[1..])
  }

  function DecodeAll(b: seq<Byte>): seq<int>
    decreases |b|
  {
    if b == [] then [] else var (cp, n) := DecodeOne(b); [cp] + DecodeAll(b[n..])
  }

  predicate IsLead(c: Byte) { !(0x80 <= c < 0xC0) }

  function Leads(b: seq<Byte>): nat { if b == [] then 0 else (if IsLead(b[0]) then 1 else 0) + Leads(b[1..]) }

  // ----- one codepoint -----

  lemma EncodeBytes(cp: int)
    requires Scalar(cp)
    ensures var e := Encode(cp);
            && 1 <= |e| <= 4 && IsLead(e[0]) && Extra(e[0]) == |e| - 1
            && forall i :: 1 <= i < |e| ==> !IsLead(e[i])
  {
  }

  lemma DecodeEncode(cp: int, rest: seq<Byte>)
    requires Scalar(cp)
    ensures DecodeOne(Encode(cp) + rest) == (cp, |Encode(cp)|)
  {
    var e := Encode(cp);
    var b := e + rest;
    EncodeBytes(cp);
    assert b[1..] == e[1..] + rest;
    if 0x80 <= cp < 0x800 {
      ContinueOne(b[1..], LeadBits(e[0]), e[1]);
    } else if 0x800 <= cp < 0x10000 {
      ThreeBytes(cp, b);
    } else if cp >= 0x10000 {
      FourBytes(cp, b);
    }
  }

  lemma ThreeBytes(cp: int, b: seq<Byte>)
    requires Scalar(cp) && 0x800 <= cp < 0x10000 && Encode(cp) <= b
    ensures Continue(b[1..], LeadBits(b[0]), 2) == cp
  {
    var x := LeadBits(b[0]);
    assert x == cp / 4096;
    assert b[1] % 64 == cp / 64 % 64 && b[2] % 64 == cp % 64;
    ContinueTwo(b[1..], x);
    Digits3(cp);
  }

  lemma FourBytes(cp: int, b: seq<Byte>)
    requires Scalar(cp) && 0x10000 <= cp && Encode(cp) <= b
    ensures Continue(b[1..], LeadBits(b[0]), 3) == cp
  {
    hide Continue;
    var x := LeadBits(b[0]);
    FourBits(cp, b);
    ContinueThree(b[1..], x);
    Digits4(cp);
  }

  lemma FourBits(cp: int, b: seq<Byte>)
    requires Scalar(cp) && 0x10000 <= cp && Encode(cp) <= b
    ensures |b| >= 4 && LeadBits(b[0]) == cp / 0x40000
    ensures b[1] % 64 == cp / 4096 % 64 && b[2] % 64 == cp / 64 % 64 && b[3] % 64 == cp % 64
  {
    assert LeadBits(b[0]) == cp / 0x40000;
  }

  lemma ContinueThree(b: seq<Byte>, x: int)
    requires |b| >= 3
    ensures Continue(b, x, 3) == 64 * (64 * (64 * x + b[0] % 64) + b[1] % 64) + b[2] % 64
  {
    assert Continue(b, x, 3) == Continue(b[1..], 64 * x + b[0] % 64, 2);
    ContinueTwo(b[1..], 64 * x + b[0] % 64);
  }

  lemma ContinueTwo(b: seq<Byte>, x: int)
    requires |b| >= 2
    ensures Continue(b, x, 2) == 64 * (64 * x + b[0] % 64) + b[1] % 64
  {
    assert Continue(b, x, 2) == Continue(b[1..], 64 * x + b[0] % 64, 1);
    ContinueOne(b[1..], 64 * x + b[0] % 64, b[1]);
  }

  lemma ContinueOne(b: seq<Byte>, cp: int, c: Byte)
    requires b != [] && b[0] == c
    ensures Continue(b, cp, 1) == 64 * cp + c % 64
  {
    assert Continue(b[1..], 64 * cp + c % 64, 0) == 64 * cp + c % 64;
  }

  lemma Digits3(cp: int)
    requires 0 <= cp
    ensures 64 * (64 * (cp / 4096) + cp / 64 % 64) + cp % 64 == cp
  {
    assert cp / 4096 == cp / 64 / 64;
  }

  lemma Digits4(cp: int)
    requires 0 <= cp
    ensures 64 * (64 * (64 * (cp / 0x40000) + cp / 4096 % 64) + cp / 64 % 64) + cp % 64 == cp
  {
    assert cp / 0x40000 == cp / 4096 / 64;
    Digits3(cp);
  }

  // No shorter sequence decodes to the codepoint.
  lemma Shortest(cp: int, b: seq<Byte>)
    requires Scalar(cp) && b != [] && DecodeOne(b) == (cp, |b|)
    ensures |Encode(cp)| <= |b|
  {
    hide Continue;
    ContinueBelow(b[1..], LeadBits(b[0]), Extra(b[0]));
  }

  // Each byte that is there adds six bits.
  lemma {:induction false} ContinueBelow(b: seq<Byte>, cp: int, extra: nat)
    requires 0 <= cp && extra <= 3
    ensures var r := Continue(b, cp, extra);
            && (|b| == 0 ==> r == cp) && (|b| == 1 ==> r < 64 * cp + 64) && (|b| == 2 ==> r < 4096 * cp + 4096)
            && (extra <= 1 ==> r < 64 * cp + 64) && (extra <= 2 ==> r < 4096 * cp + 4096) && r < 0x40000 * cp + 0x40000
    decreases extra
  {
    if extra != 0 && b != [] { ContinueBelow(b[1..], 64 * cp + b[0] % 64, extra - 1); }
  }

  // ----- strings -----

  // Decoding what was encoded gives it back, whatever follows being decoded too.
  lemma {:induction false} RoundTrip(cps: seq<int>)
    requires AllScalar(cps)
    ensures DecodeAll(EncodeAll(cps)) == cps
    decreases |cps|
  {
    hide DecodeOne, Encode;
    if cps != [] {
      var e, rest := Encode(cps[0]), EncodeAll(cps[1..]);
      EncodeBytes(cps[0]);
      RoundTrip(cps[1..]);
      DecodeEncode(cps[0], rest);
      assert (e + rest)[|e|..] == rest;
    }
  }

  // Equal bytes, equal text.
  lemma EqualBytes(a: seq<int>, b: seq<int>)
    requires AllScalar(a) && AllScalar(b)
    ensures EncodeAll(a) == EncodeAll(b) <==> a == b
  {
    RoundTrip(a);
    RoundTrip(b);
  }

  // Concatenating bytes concatenates text.
  lemma {:induction false} ConcatText(a: seq<int>, b: seq<int>)
    requires AllScalar(a) && AllScalar(b)
    ensures AllScalar(a + b) && EncodeAll(a + b) == EncodeAll(a) + EncodeAll(b)
    decreases |a|
  {
    hide Encode;
    if a == [] {
      assert a + b == b;
    } else {
      ConcatText(a[1..], b);
      assert (a + b)[1..] == a[1..] + b;
      assert (a + b)[0] == a[0];
    }
  }

  lemma DecodeNext(b: seq<Byte>)
    ensures b == [] ==> DecodeAll(b) == []
    ensures b != [] ==> var (cp, n) := DecodeOne(b); 1 <= n <= |b| && DecodeAll(b) == [cp] + DecodeAll(b[n..])
  {
  }

  lemma {:induction false} LeadsAppend(a: seq<Byte>, b: seq<Byte>)
    ensures Leads(a + b) == Leads(a) + Leads(b)
    decreases |a|
  {
    if a == [] {
      assert a + b == b;
    } else {
      LeadsAppend(a[1..], b);
      assert (a + b)[1..] == a[1..] + b;
    }
  }

  lemma {:induction false} NoLeads(b: seq<Byte>)
    requires forall i :: 0 <= i < |b| ==> !IsLead(b[i])
    ensures Leads(b) == 0
    decreases |b|
  {
    if b != [] { NoLeads(b[1..]); }
  }

  // The number of lead bytes is the number of codepoints.
  lemma {:induction false} LengthText(cps: seq<int>)
    requires AllScalar(cps)
    ensures Leads(EncodeAll(cps)) == |cps|
    decreases |cps|
  {
    if cps != [] {
      var e := Encode(cps[0]);
      EncodeBytes(cps[0]);
      LengthText(cps[1..]);
      NoLeads(e[1..]);
      LeadsAppend(e, EncodeAll(cps[1..]));
    }
  }

  // ----- the runtime's loops -----

  // cl_str_len.
  method StrLen(b: seq<Byte>) returns (n: nat)
    ensures n == Leads(b)
    ensures forall cps :: AllScalar(cps) && b == EncodeAll(cps) ==> n == |cps|
  {
    n := 0;
    var i := 0;
    while i < |b|
      invariant 0 <= i <= |b| && n == Leads(b[..i])
    {
      LeadsAppend(b[..i], [b[i]]);
      assert b[..i + 1] == b[..i] + [b[i]];
      if IsLead(b[i]) { n := n + 1; }
      i := i + 1;
    }
    assert b[..i] == b;
    forall cps | AllScalar(cps) && b == EncodeAll(cps) ensures n == |cps| { LengthText(cps); }
  }

  // cl_strings__concat and cl_strings__eq work on the bytes.
  method Concat(a: seq<Byte>, b: seq<Byte>) returns (s: seq<Byte>)
    ensures forall x, y :: AllScalar(x) && AllScalar(y) && a == EncodeAll(x) && b == EncodeAll(y) ==> AllScalar(x + y) && s == EncodeAll(x + y)
  {
    s := a + b;
    forall x, y | AllScalar(x) && AllScalar(y) && a == EncodeAll(x) && b == EncodeAll(y)
      ensures AllScalar(x + y) && s == EncodeAll(x + y)
    {
      ConcatText(x, y);
    }
  }

  // memcmp of equal lengths, byte by byte.
  method Equal(a: seq<Byte>, b: seq<Byte>) returns (r: bool)
    ensures forall x, y :: AllScalar(x) && AllScalar(y) && a == EncodeAll(x) && b == EncodeAll(y) ==> (r <==> x == y)
  {
    r := |a| == |b|;
    var i := 0;
    while r && i < |a|
      invariant 0 <= i <= |a| && (r ==> |a| == |b| && a[..i] == b[..i]) && (!r ==> a != b)
    {
      if a[i] != b[i] { r := false; }
      i := i + 1;
    }
    if r { assert a[..|a|] == a && b[..|b|] == b; }
    forall x, y | AllScalar(x) && AllScalar(y) && a == EncodeAll(x) && b == EncodeAll(y) ensures r <==> x == y { EqualBytes(x, y); }
  }

  // cl_strings__chars.
  method Chars(b: seq<Byte>) returns (cps: seq<int>)
    ensures cps == DecodeAll(b)
    ensures forall x :: AllScalar(x) && b == EncodeAll(x) ==> cps == x
  {
    hide EncodeAll, DecodeOne, DecodeAll;
    cps := [];
    var i := 0;
    assert b[0..] == b;
    assert [] + DecodeAll(b) == DecodeAll(b);
    while i < |b|
      invariant 0 <= i <= |b| && DecodeAll(b) == cps + DecodeAll(b[i..])
    {
      var (cp, n) := DecodeOne(b[i..]);
      DecodeNext(b[i..]);
      assert b[i..][n..] == b[i + n..];
      assert cps + ([cp] + DecodeAll(b[i + n..])) == cps + [cp] + DecodeAll(b[i + n..]);
      cps := cps + [cp];
      i := i + n;
    }
    DecodeNext(b[i..]);
    assert cps + [] == cps;
    forall x | AllScalar(x) && b == EncodeAll(x) ensures cps == x { RoundTrip(x); }
  }

  // An index past the end means the end.
  function Clamp(i: nat, n: nat): nat { if i < n then i else n }

  function Slice(cps: seq<int>, start: nat, count: nat): seq<int> {
    cps[Clamp(start, |cps|)..Clamp(start + count, |cps|)]
  }

  // Byte offset of codepoint k, or of the end.
  function Offset(cps: seq<int>, k: nat): nat
    requires AllScalar(cps)
  {
    |EncodeAll(cps[..Clamp(k, |cps|)])|
  }

  lemma OffsetStep(cps: seq<int>, k: nat)
    requires AllScalar(cps) && k < |cps|
    ensures Offset(cps, k) < Offset(cps, k + 1) <= |EncodeAll(cps)|
    ensures Offset(cps, k + 1) == Offset(cps, k) + DecodeOne(EncodeAll(cps)[Offset(cps, k)..]).1
  {
    hide DecodeOne, Encode;
    Split(cps, k);
    Split(cps, k + 1);
    OneMore(cps, k);
    EncodeBytes(cps[k]);
    DecodeEncode(cps[k], EncodeAll(cps[k + 1..]));
  }

  lemma Split(cps: seq<int>, k: nat)
    requires AllScalar(cps) && k <= |cps|
    ensures EncodeAll(cps) == EncodeAll(cps[..k]) + EncodeAll(cps[k..]) && Offset(cps, k) == |EncodeAll(cps[..k])|
    ensures EncodeAll(cps)[Offset(cps, k)..] == EncodeAll(cps[k..])
  {
    hide Encode, EncodeAll;
    ConcatText(cps[..k], cps[k..]);
    assert cps[..k] + cps[k..] == cps;
  }

  lemma OneMore(cps: seq<int>, k: nat)
    requires AllScalar(cps) && k < |cps|
    ensures EncodeAll(cps[k..]) == Encode(cps[k]) + EncodeAll(cps[k + 1..])
    ensures EncodeAll(cps[..k + 1]) == EncodeAll(cps[..k]) + Encode(cps[k])
  {
    hide Encode;
    assert cps[k..][1..] == cps[k + 1..] && cps[k..][0] == cps[k];
    ConcatText(cps[..k], [cps[k]]);
    assert cps[..k + 1] == cps[..k] + [cps[k]];
    assert [cps[k]][1..] == [];
    assert EncodeAll([cps[k]]) == Encode(cps[k]) + EncodeAll([]);
    assert Encode(cps[k]) + [] == Encode(cps[k]);
  }

  lemma OffsetEnds(cps: seq<int>, k: nat)
    requires AllScalar(cps)
    ensures Offset(cps, 0) == 0 && (k >= |cps| ==> Offset(cps, k) == |EncodeAll(cps)|)
  {
    assert cps[..0] == [] && cps[..|cps|] == cps;
  }

  // Bytes lo to hi are the text from codepoint i to codepoint j.
  lemma SliceBytes(cps: seq<int>, i: nat, j: nat)
    requires AllScalar(cps)
    ensures i <= j ==>
              var s := cps[Clamp(i, |cps|)..Clamp(j, |cps|)];
              Offset(cps, i) <= Offset(cps, j) <= |EncodeAll(cps)| && EncodeAll(cps)[Offset(cps, i)..Offset(cps, j)] == EncodeAll(s)
  {
    hide Encode, EncodeAll;
    if i <= j {
      Between(cps, Clamp(i, |cps|), Clamp(j, |cps|));
    }
  }

  lemma Between(cps: seq<int>, a: nat, b: nat)
    requires AllScalar(cps) && a <= b <= |cps|
    ensures var x, y := |EncodeAll(cps[..a])|, |EncodeAll(cps[..b])|;
            x <= y <= |EncodeAll(cps)| && EncodeAll(cps)[x..y] == EncodeAll(cps[a..b])
  {
    hide Encode, EncodeAll;
    Parts(cps, a, b);
    Middle(EncodeAll(cps[..a]), EncodeAll(cps[a..b]), EncodeAll(cps[b..]));
  }

  lemma Parts(cps: seq<int>, a: nat, b: nat)
    requires AllScalar(cps) && a <= b <= |cps|
    ensures EncodeAll(cps[..b]) == EncodeAll(cps[..a]) + EncodeAll(cps[a..b])
    ensures EncodeAll(cps) == EncodeAll(cps[..a]) + EncodeAll(cps[a..b]) + EncodeAll(cps[b..])
  {
    hide Encode, EncodeAll, Offset;
    Split(cps, b);
    Prefix(cps, a, b);
  }

  lemma Prefix(cps: seq<int>, a: nat, b: nat)
    requires AllScalar(cps) && a <= b <= |cps|
    ensures EncodeAll(cps[..b]) == EncodeAll(cps[..a]) + EncodeAll(cps[a..b])
  {
    hide Encode, EncodeAll, Offset;
    var s := cps[..b];
    assert s[..a] == cps[..a] && s[a..] == cps[a..b];
    Split(s, a);
  }

  lemma Middle(x: seq<Byte>, y: seq<Byte>, z: seq<Byte>)
    ensures (x + y + z)[|x|..|x + y|] == y && |x| <= |x + y| <= |x + y + z|
  {
    var s := (x + y + z)[|x|..|x + y|];
    forall k | 0 <= k < |y| ensures s[k] == y[k] { assert s[k] == (x + y + z)[|x| + k] == (x + y)[|x| + k]; }
  }

  // cl_strings__substr: the clamped slice, with start + count computed in 64 bits.
  method Substr(b: seq<Byte>, start: nat, count: nat, ghost cps: seq<int>) returns (s: seq<Byte>)
    requires start < Handles.U64 && count < Handles.U64 && |b| < Handles.U64
    requires AllScalar(cps) && b == EncodeAll(cps)
    ensures AllScalar(Slice(cps, start, count)) && s == EncodeAll(Slice(cps, start, count))
  {
    hide Encode, EncodeAll, DecodeOne, Offset, Leads;
    var end := (start + count) % Handles.U64;
    if end < start { end := Handles.U64 - 1; }
    var lo, hi := |b|, |b|;
    if start == 0 { lo := 0; }
    if end == 0 { hi := 0; }
    var cp, i := 0, 0;
    OffsetEnds(cps, 0);
    LengthText(cps);
    LeadsBound(b);
    while i < |b|
      invariant 0 <= cp <= |cps| && i == Offset(cps, cp) <= |b|
      invariant lo == if start <= cp then Offset(cps, start) else |b|
      invariant hi == if end <= cp then Offset(cps, end) else |b|
      decreases |b| - i
    {
      if cp == |cps| { OffsetEnds(cps, cp); }
      OffsetStep(cps, cp);
      var (c, n) := DecodeOne(b[i..]);
      i := i + n;
      cp := cp + 1;
      if cp == start { lo := i; }
      if cp == end { hi := i; }
      SliceBytes(cps, cp, |cps|);
      OffsetEnds(cps, |cps|);
    }
    AllRead(cps, cp);
    CutIs(cps, start, count, end, lo, hi);
    if hi < lo { hi := lo; }
    s := b[lo..hi];
  }

  // From the offsets found, the slice.
  lemma CutIs(cps: seq<int>, start: nat, count: nat, end: nat, lo: nat, hi: nat)
    requires AllScalar(cps) && |cps| < Handles.U64
    requires end == start + count || (start + count >= Handles.U64 && end == Handles.U64 - 1)
    requires lo == if start <= |cps| then Offset(cps, start) else |EncodeAll(cps)|
    requires hi == if end <= |cps| then Offset(cps, end) else |EncodeAll(cps)|
    ensures AllScalar(Slice(cps, start, count)) && lo <= |EncodeAll(cps)| && hi <= |EncodeAll(cps)|
    ensures EncodeAll(cps)[lo..if hi < lo then lo else hi] == EncodeAll(Slice(cps, start, count))
  {
    hide Encode, EncodeAll, Offset;
    OffsetEnds(cps, start);
    OffsetEnds(cps, end);
    SliceBytes(cps, start, start);
    SliceBytes(cps, end, end);
    if start <= end {
      SliceBytes(cps, start, end);
      assert Slice(cps, start, count) == cps[Clamp(start, |cps|)..Clamp(end, |cps|)];
    }
  }

  lemma {:induction false} LeadsBound(b: seq<Byte>)
    ensures Leads(b) <= |b|
    decreases |b|
  {
    if b != [] { LeadsBound(b[1..]); }
  }

  // Nothing left to read: every codepoint has been.
  lemma AllRead(cps: seq<int>, k: nat)
    requires AllScalar(cps) && k <= |cps| && Offset(cps, k) == |EncodeAll(cps)|
    ensures k == |cps|
  {
    if k < |cps| { OffsetStep(cps, k); }
  }
}
