// 64-bit registers as naturals below 2^64, and the sized integers they hold:
// sign- or zero-extended, as every frame slot keeps them.
module Words64 {
  import opened Modular
  import opened Numeric

  const Q: int := 0x1_0000_0000_0000_0000

  type Reg = w: int | 0 <= w < 0x1_0000_0000_0000_0000

  // The register holding n in two's complement.
  function Enc(n: int): Reg { n % 0x1_0000_0000_0000_0000 }

  // What a signed instruction reads in a register.
  function Signed64(r: Reg): int { if r < 0x8000_0000_0000_0000 then r else r - 0x1_0000_0000_0000_0000 }

  // movsbq, movzwq, movslq, ...: the low bits, extended to 64.
  function Extend(r: Reg, ty: IntTy): Reg {
    var m := ty.Modulus();
    var low := r % m;
    if ty.Signed() && low >= m / 2 then low - m + 0x1_0000_0000_0000_0000 else low
  }

  // ----- congruence -----

  lemma EncSmall(n: int)
    ensures 0 <= n < Q ==> Enc(n) == n
    ensures -Q <= n < 0 ==> Enc(n) == n + Q
  {
  }

  // A value in a type's range is read back from its register.
  lemma EncReads(n: int, ty: IntTy)
    requires ty.Holds(n)
    ensures ty.Signed() ==> Signed64(Enc(n)) == n
    ensures !ty.Signed() ==> Enc(n) == n
  {
    EncSmall(n);
  }

  // Reducing modulo 2^64 first does not change what is left modulo 2^bits.
  lemma LowBits(n: int, ty: IntTy)
    ensures Enc(n) % ty.Modulus() == n % ty.Modulus()
  {
    var m := ty.Modulus();
    var q := n / Q;
    assert n == q * Q + Enc(n);
    match ty {
      case I8 => ModAddMultiple(Enc(n), q * 0x100_0000_0000_0000, 0x100);
      case U8 => ModAddMultiple(Enc(n), q * 0x100_0000_0000_0000, 0x100);
      case I16 => ModAddMultiple(Enc(n), q * 0x1_0000_0000_0000, 0x1_0000);
      case U16 => ModAddMultiple(Enc(n), q * 0x1_0000_0000_0000, 0x1_0000);
      case I32 => ModAddMultiple(Enc(n), q * 0x1_0000_0000, 0x1_0000_0000);
      case U32 => ModAddMultiple(Enc(n), q * 0x1_0000_0000, 0x1_0000_0000);
      case I64 => ModAddMultiple(Enc(n), q, Q);
      case U64 => ModAddMultiple(Enc(n), q, Q);
    }
  }

  // Extending the raw 64-bit result of an operation whose true value is n leaves
  // n wrapped to the type, again extended.
  lemma ExtendWraps(n: int, ty: IntTy)
    ensures Extend(Enc(n), ty) == Enc(Wrap(n, ty))
  {
    LowBits(n, ty);
    var low := n % ty.Modulus();
    EncSmall(low);
    EncSmall(low - ty.Modulus());
  }

  // ----- the ring instructions -----

  lemma AddRegs(a: int, b: int)
    ensures (Enc(a) + Enc(b)) % Q == Enc(a + b)
    ensures (Enc(a) as int - Enc(b)) % Q == Enc(a - b)
  {
    var p, q := a / Q, b / Q;
    var x: int, y: int := Enc(a), Enc(b);
    assert a == p * Q + x && b == q * Q + y;
    ModAddMultiple(x + y, p + q, Q);
    ModAddMultiple(x - y, p - q, Q);
  }

  lemma MulRegs(a: int, b: int)
    ensures (Enc(a) * Enc(b)) % Q == Enc(a * b)
  {
    var p, q := a / Q, b / Q;
    var x: int, y: int := Enc(a), Enc(b);
    assert a == p * Q + x && b == q * Q + y;
    MulOut(p, q, x, y, Q);
    ModAddMultiple(x * y, p * q * Q + p * y + q * x, Q);
  }

  lemma MulOut(p: int, q: int, x: int, y: int, m: int)
    ensures (p * m + x) * (q * m + y) == x * y + (p * q * m + p * y + q * x) * m
  {
    assert (p * m + x) * (q * m + y) == p * m * (q * m) + p * m * y + x * (q * m) + x * y;
    assert p * m * (q * m) == p * q * m * m;
    assert p * m * y == p * y * m;
    assert x * (q * m) == q * x * m;
    assert (p * q * m + p * y + q * x) * m == p * q * m * m + p * y * m + q * x * m;
  }

  lemma NegRegs(a: int)
    ensures (0 - Enc(a) as int) % Q == Enc(-a)
    ensures Q - 1 - Enc(a) == Enc(-a - 1)
  {
    var p := a / Q;
    var x: int := Enc(a);
    assert a == p * Q + x;
    ModAddMultiple(0 - x, -p, Q);
    ModAddMultiple(Q - 1 - x, -p - 1, Q);
    assert -a - 1 == (Q - 1 - x) + (-p - 1) * Q;
    EncSmall(Q - 1 - x);
  }

  // Results that differ by less than 2^64 share a register only if equal.
  lemma EncInjective(x: int, y: int)
    requires -Q < x - y < Q
    ensures Enc(x) == Enc(y) <==> x == y
  {
    if Enc(x) == Enc(y) {
      var p, q := x / Q, y / Q;
      assert x - y == (p - q) * Q;
      SmallMultiple(p - q, Q);
    }
  }

  // ----- bitwise -----

  // Bit by bit, also at the ends of the recursion.
  lemma BitwiseStep(op: BinOp, x: int, y: int)
    ensures Bitwise(op, x, y) == BitOf(op, x % 2, y % 2) + 2 * Bitwise(op, x / 2, y / 2)
  {
    if -1 <= x <= 0 && -1 <= y <= 0 {
      assert x / 2 == x && y / 2 == y && x % 2 == -x && y % 2 == -y;
    }
  }

  // What or and xor are, by and: bits set in both are counted once, or not at all.
  lemma {:induction false} OrAndXor(x: int, y: int)
    ensures Bitwise(Bor, x, y) + Bitwise(Band, x, y) == x + y
    ensures Bitwise(Bxor, x, y) + 2 * Bitwise(Band, x, y) == x + y
    decreases Magnitude(x) + Magnitude(y)
  {
    hide Bitwise;
    if -1 <= x <= 0 && -1 <= y <= 0 {
      BitPair(x, y);
    } else {
      OrAndXor(x / 2, y / 2);
      BitwiseStep(Bor, x, y);
      BitwiseStep(Bxor, x, y);
      BitwiseStep(Band, x, y);
    }
  }

  lemma BitPair(x: int, y: int)
    requires -1 <= x <= 0 && -1 <= y <= 0
    ensures Bitwise(Bor, x, y) + Bitwise(Band, x, y) == x + y
    ensures Bitwise(Bxor, x, y) + 2 * Bitwise(Band, x, y) == x + y
  {
  }

  // The low n bits of the result are the result on the low n bits.
  lemma {:induction false} BitwiseLow(op: BinOp, x: int, y: int, n: nat)
    ensures Bitwise(op, x % Pow2(n), y % Pow2(n)) == Bitwise(op, x, y) % Pow2(n)
    decreases n
  {
    var p := Pow2(n);
    if n == 0 {
      assert x % 1 == 0 && y % 1 == 0;
    } else {
      var h := Pow2(n - 1);
      BitwiseLow(op, x / 2, y / 2, n - 1);
      BitwiseStep(op, x, y);
      BitwiseStep(op, x % p, y % p);
      LowHalf(x, h);
      LowHalf(y, h);
      var b := BitOf(op, x % 2, y % 2);
      LowDouble(b, Bitwise(op, x / 2, y / 2), h);
    }
  }

  // Masking with a power of two less one is taking the remainder (the map's index).
  lemma {:induction false} MaskIsRemainder(h: nat, k: nat)
    ensures Bitwise(Band, h, Pow2(k) - 1) == h % Pow2(k)
    decreases k, h
  {
    hide Bitwise, Pow2;
    var p := Pow2(k);
    BitwiseStep(Band, h, p - 1);
    PowStep(k);
    if k > 0 {
      MaskIsRemainder(h / 2, k - 1);
      MaskDouble(h, Pow2(k - 1));
    } else if h > 0 {
      MaskIsRemainder(h / 2, 0);
    } else {
      NoBits();
    }
  }

  lemma PowStep(k: nat)
    ensures Pow2(0) == 1 && (k > 0 ==> Pow2(k) == 2 * Pow2(k - 1))
  {
  }

  lemma NoBits()
    ensures Bitwise(Band, 0, 0) == 0
  {
  }

  lemma MaskDouble(h: nat, p: nat)
    requires p > 0
    ensures (2 * p - 1) / 2 == p - 1 && (2 * p - 1) % 2 == 1 && h % (2 * p) == h % 2 + 2 * (h / 2 % p)
  {
    LowHalf(h, p);
  }

  lemma LowHalf(x: int, h: int)
    requires h > 0
    ensures (x % (2 * h)) % 2 == x % 2 && x % (2 * h) / 2 == (x / 2) % h
  {
    var q, r := (x / 2) / h, (x / 2) % h;
    assert x == 2 * (q * h + r) + x % 2;
    assert x == q * (2 * h) + (2 * r + x % 2);
    DivModUnique(x, q, 2 * r + x % 2, 2 * h);
  }

  lemma LowDouble(b: int, z: int, h: int)
    requires 0 <= b <= 1 && h > 0
    ensures (b + 2 * z) % (2 * h) == b + 2 * (z % h)
  {
    var q, r := z / h, z % h;
    assert b + 2 * z == q * (2 * h) + (b + 2 * r);
    DivModUnique(b + 2 * z, q, b + 2 * r, 2 * h);
  }

  lemma Pow64()
    ensures Pow2(64) == Q && Pow2(63) == Q / 2
    ensures Pow2(32) == 0x1_0000_0000 && Pow2(16) == 0x1_0000 && Pow2(8) == 0x100
  {
    Powers();
  }

  // and, or, xor of registers are those of the values.
  lemma BitRegs(op: BinOp, a: int, b: int)
    ensures Bitwise(op, Enc(a), Enc(b)) == Enc(Bitwise(op, a, b))
  {
    Pow64();
    BitwiseLow(op, a, b, 64);
  }
}
