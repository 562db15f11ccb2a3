// Integer literals: the accumulation loop of compiler/lexer.cardinal with its
// sticky overflow flag, and the range check of compiler/checker.cardinal.
module Literals {
  import opened Modular
  import opened Numeric
  import opened Syntax

  const UMAX: int := 0xFFFF_FFFF_FFFF_FFFF

  // An i64's bit pattern read as u64, and an integer stored as i64.
  function AsU64(v: int): nat { v % 0x1_0000_0000_0000_0000 }

  function ToI64(v: int): int { Wrap(v, I64) }

  predicate IsHex(c: char) { IsDigit(c) || 'a' <= c <= 'f' || 'A' <= c <= 'F' }

  function DigitVal(c: char): (d: int)
    ensures IsDigit(c) ==> 0 <= d <= 9
    ensures IsHex(c) ==> 0 <= d <= 15
  {
    if IsDigit(c) then c as int - '0' as int
    else if 'a' <= c <= 'f' then 10 + c as int - 'a' as int
    else if 'A' <= c <= 'F' then 10 + c as int - 'A' as int
    else -1
  }

  // A digit of the literal: in every base but 16 any decimal digit is taken.
  predicate Takes(base: nat, c: char) { if base == 16 then IsHex(c) else IsDigit(c) }

  // The run of digits and underscores at the front.
  function RunLength(cs: seq<char>, base: nat): (n: nat)
    ensures n <= |cs|
  {
    if cs != [] && (cs[0] == '_' || Takes(base, cs[0])) then 1 + RunLength(cs[1..], base) else 0
  }

  // The value the run spells, most significant digit first.
  function Horner(cs: seq<char>, base: nat): nat
    requires forall i :: 0 <= i < |cs| ==> cs[i] == '_' || Takes(base, cs[i])
  {
    if cs == [] then 0
    else
      var c := cs[|cs| - 1];
      var v := Horner(cs[..|cs| - 1], base);
      assert v * base >= 0 && (c == '_' || Takes(base, c));
      if c == '_' then v else v * base + DigitVal(c)
  }

  // acc_overflow_u64.
  predicate AccOverflows(cur: int, base: nat, digit: nat)
    requires base > 0 && digit <= UMAX
  {
    AsU64(cur) > (UMAX - digit) / base
  }

  // The test is exact: it fires when one more digit would pass 2^64 - 1.
  lemma OverflowExact(u: nat, base: nat, digit: nat)
    requires base > 0 && digit <= UMAX
    ensures u > (UMAX - digit) / base <==> u * base + digit > UMAX
  {
    var q := (UMAX - digit) / base;
    assert UMAX - digit == q * base + (UMAX - digit) % base;
    if u > q {
      MulMono(q + 1, u, base);
      assert (q + 1) * base == q * base + base;
    } else {
      MulMono(u, q, base);
    }
  }

  // Storing as i64 changes a value by a multiple of 2^64.
  lemma Stored(v: int) returns (k: int)
    ensures ToI64(v) == v + k * 0x1_0000_0000_0000_0000
  {
    var q := v / 0x1_0000_0000_0000_0000;
    k := if ToI64(v) < 0 then -q - 1 else -q;
  }

  lemma {:induction false} HornerGrowsTo(cs: seq<char>, base: nat, k: nat, n: nat)
    requires base > 0 && k <= n <= |cs| && forall i :: 0 <= i < |cs| ==> cs[i] == '_' || Takes(base, cs[i])
    ensures Horner(cs[..k], base) <= Horner(cs[..n], base)
    decreases n
  {
    if k < n {
      HornerGrowsTo(cs, base, k, n - 1);
      assert cs[..n][..n - 1] == cs[..n - 1];
      MulMono(1, base, Horner(cs[..n - 1], base));
    }
  }

  lemma {:induction false} RunTaken(cs: seq<char>, base: nat)
    ensures var n := RunLength(cs, base);
            && (forall i :: 0 <= i < n ==> cs[i] == '_' || Takes(base, cs[i]))
            && (n < |cs| ==> cs[n] != '_' && !Takes(base, cs[n]))
    decreases |cs|
  {
    if cs != [] && (cs[0] == '_' || Takes(base, cs[0])) {
      RunTaken(cs[1..], base);
      var n := RunLength(cs[1..], base);
      forall i | 0 <= i < n + 1 ensures cs[i] == '_' || Takes(base, cs[i]) { if i > 0 { assert cs[i] == cs[1..][i - 1]; } }
    }
  }

  lemma HornerEmpty(base: nat)
    ensures Horner([], base) == 0 && AsU64(0) == 0
  {
  }

  lemma HornerNext(cs: seq<char>, base: nat, k: nat)
    requires k < |cs| && forall i :: 0 <= i < |cs| ==> cs[i] == '_' || Takes(base, cs[i])
    ensures cs[k] == '_' ==> Horner(cs[..k + 1], base) == Horner(cs[..k], base)
    ensures cs[k] != '_' ==> DigitVal(cs[k]) >= 0 && Horner(cs[..k + 1], base) == Horner(cs[..k], base) * base + DigitVal(cs[k])
  {
    assert cs[..k + 1][..k] == cs[..k];
  }

  // The mantissa loop of scan_number for an integer: the flag says whether the
  // literal exceeds 64 bits; if not, the stored i64 holds its value.
  method ScanDigits(cs: seq<char>, base: nat) returns (value: int, overflowed: bool, next: nat)
    requires base == 2 || base == 8 || base == 10 || base == 16
    ensures next == RunLength(cs, base)
    ensures forall i :: 0 <= i < next ==> cs[i] == '_' || Takes(base, cs[i])
    ensures overflowed <==> Horner(cs[..next], base) > UMAX
    ensures !overflowed ==> AsU64(value) == Horner(cs[..next], base)
  {
    hide ToI64, AsU64, Horner;
    value, overflowed, next := 0, false, 0;
    ghost var n := RunLength(cs, base);
    ghost var run := cs[..n];
    RunTaken(cs, base);
    HornerEmpty(base);
    assert run[..0] == [];
    while next < |cs| && (cs[next] == '_' || Takes(base, cs[next]))
      invariant 0 <= next <= n == |run|
      invariant overflowed <==> Horner(run[..next], base) > UMAX
      invariant !overflowed ==> AsU64(value) == Horner(run[..next], base)
    {
      assert run[..next + 1][..next] == run[..next];
      HornerGrowsTo(run, base, next, next + 1);
      HornerNext(run, base, next);
      if cs[next] != '_' {
        var d := DigitVal(cs[next]);
        if !overflowed { OverflowExact(Horner(run[..next], base), base, d); }
        if AccOverflows(value, base, d) { overflowed := true; }
        if !overflowed { AddDigit(value, base, d); }
        value := ToI64(ToI64(value * base) + d);
      }
      next := next + 1;
    }
    assert run[..next] == cs[..next];
  }

  // The i64 arithmetic of one step, read as u64.
  lemma AddDigit(value: int, base: nat, d: nat)
    requires AsU64(value) * base + d <= UMAX
    ensures AsU64(ToI64(ToI64(value * base) + d)) == AsU64(value) * base + d
  {
    hide ToI64;
    var q := 0x1_0000_0000_0000_0000;
    var k := Stored(value * base);
    var m := Stored(ToI64(value * base) + d);
    var u, p := AsU64(value), value / q;
    assert value == p * q + u;
    OneStep(value, base, d, u, p, k, m);
    ModAddMultiple(u * base + d, p * base + k + m, q);
  }

  lemma OneStep(value: int, base: nat, d: nat, u: nat, p: int, k: int, m: int)
    requires value == p * 0x1_0000_0000_0000_0000 + u
    ensures value * base + k * 0x1_0000_0000_0000_0000 + d + m * 0x1_0000_0000_0000_0000
         == u * base + d + (p * base + k + m) * 0x1_0000_0000_0000_0000
  {
    assert value * base == (p * 0x1_0000_0000_0000_0000) * base + u * base;
    assert (p * 0x1_0000_0000_0000_0000) * base == (p * base) * 0x1_0000_0000_0000_0000;
  }

  // int_fits: the magnitude against the type's largest value.
  function IntFits(value: int, ty: IntTy): bool {
    AsU64(value) <= match ty
                    case I8 => 127
                    case I16 => 32767
                    case I32 => 2147483647
                    case I64 => 9223372036854775807
                    case U8 => 255
                    case U16 => 65535
                    case U32 => 4294967295
                    case U64 => 18446744073709551615
  }

  // A literal of a type is accepted exactly when its value is at most the type's
  // maximum, however many digits it has.
  method Accept(cs: seq<char>, base: nat, ty: IntTy) returns (ok: bool)
    requires base == 2 || base == 8 || base == 10 || base == 16
    ensures var n := RunLength(cs, base);
            && (forall i :: 0 <= i < n ==> cs[i] == '_' || Takes(base, cs[i]))
            && (ok <==> Horner(cs[..n], base) <= ty.Max())
  {
    var value, overflowed, next := ScanDigits(cs, base);
    ok := !overflowed && IntFits(value, ty);
  }

  // ----- reading back what is written -----

  // The digit d as a character, in lower or upper case.
  function Glyph(d: nat, upper: bool): char
    requires d < 16
  {
    if upper then "0123456789ABCDEF"[d] else "0123456789abcdef"[d]
  }

  // n in the given base.
  function Numeral(n: nat, base: nat, upper: bool): (cs: string)
    requires 2 <= base <= 16
    ensures |cs| > 0
    decreases n
  {
    if n < base then [Glyph(n, upper)] else Numeral(n / base, base, upper) + [Glyph(n % base, upper)]
  }

  lemma GlyphRead(d: nat, base: nat, upper: bool)
    requires d < base && (base == 2 || base == 8 || base == 10 || base == 16)
    ensures Takes(base, Glyph(d, upper)) && DigitVal(Glyph(d, upper)) == d && Glyph(d, upper) != '_'
  {
  }

  lemma HornerPush(cs: string, c: char, base: nat)
    requires (forall i :: 0 <= i < |cs| ==> Takes(base, cs[i])) && Takes(base, c) && c != '_'
    ensures forall i :: 0 <= i < |cs + [c]| ==> Takes(base, (cs + [c])[i])
    ensures Horner(cs + [c], base) == Horner(cs, base) * base + DigitVal(c)
  {
    hide Takes, DigitVal;
    assert (cs + [c])[..|cs|] == cs;
  }

  // In every base, and with letters of either case, a numeral is taken whole and
  // reads as its number.
  lemma {:induction false} NumeralRead(n: nat, base: nat, upper: bool)
    requires base == 2 || base == 8 || base == 10 || base == 16
    ensures forall i :: 0 <= i < |Numeral(n, base, upper)| ==> Takes(base, Numeral(n, base, upper)[i])
    ensures Horner(Numeral(n, base, upper), base) == n && RunLength(Numeral(n, base, upper), base) == |Numeral(n, base, upper)|
    decreases n
  {
    hide DigitVal, Takes, Glyph, Horner;
    var cs := Numeral(n, base, upper);
    if n < base {
      GlyphRead(n, base, upper);
      HornerEmpty(base);
      HornerPush([], Glyph(n, upper), base);
      assert cs == [] + [Glyph(n, upper)];
    } else {
      GlyphRead(n % base, base, upper);
      NumeralRead(n / base, base, upper);
      HornerPush(Numeral(n / base, base, upper), Glyph(n % base, upper), base);
      assert n / base * base + n % base == n;
    }
    TakenWhole(cs, base);
  }

  lemma {:induction false} TakenWhole(cs: string, base: nat)
    requires forall i :: 0 <= i < |cs| ==> Takes(base, cs[i])
    ensures RunLength(cs, base) == |cs|
    decreases |cs|
  {
    hide Takes;
    if cs != [] { TakenWhole(cs[1..], base); }
  }

  // Decimal numerals are what int_to_str gives.
  lemma {:induction false} DecimalRead(n: nat)
    ensures forall i :: 0 <= i < |Dec(n)| ==> Takes(10, Dec(n)[i])
    ensures Horner(Dec(n), 10) == n && RunLength(Dec(n), 10) == |Dec(n)|
  {
    NumeralIsDec(n);
    NumeralRead(n, 10, false);
  }

  lemma {:induction false} NumeralIsDec(n: nat)
    ensures Numeral(n, 10, false) == Dec(n)
    decreases n
  {
    if n >= 10 { NumeralIsDec(n / 10); }
  }
}
