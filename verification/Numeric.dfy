// Sized two's-complement integers and the arithmetic every layer shares: the
// interpreter computes in unbounded integers and wraps, the IR wraps at every
// instruction, and the x86 back end works on 64-bit registers.
module Numeric {
  import opened Modular

  datatype Option<+T> = None | Some(value: T)

  // The eight sized integer types of INT_TYPES.
  datatype IntTy = I8 | I16 | I32 | I64 | U8 | U16 | U32 | U64 {
    function Bits(): nat {
      match this
      case I8 => 8 case I16 => 16 case I32 => 32 case I64 => 64
      case U8 => 8 case U16 => 16 case U32 => 32 case U64 => 64
    }

    predicate Signed() { I8? || I16? || I32? || I64? }

    // 2 to the power Bits(), as a literal.
    function Modulus(): int {
      match this
      case I8 => 0x100 case I16 => 0x1_0000 case I32 => 0x1_0000_0000 case I64 => 0x1_0000_0000_0000_0000
      case U8 => 0x100 case U16 => 0x1_0000 case U32 => 0x1_0000_0000 case U64 => 0x1_0000_0000_0000_0000
    }

    function Min(): int { if Signed() then -(Modulus() / 2) else 0 }

    function Max(): int { if Signed() then Modulus() / 2 - 1 else Modulus() - 1 }

    predicate Holds(v: int) { Min() <= v <= Max() }
  }

  // A type of n bits holds the 2^n values from -2^(n-1), or from 0 to 2^n - 1.
  lemma Ranges(ty: IntTy)
    ensures ty.Bits() >= 8 && ty.Bits() % 8 == 0 && ty.Modulus() == Pow2(ty.Bits())
    ensures ty.Signed() ==> ty.Min() == -Pow2(ty.Bits() - 1) && ty.Max() == Pow2(ty.Bits() - 1) - 1
    ensures !ty.Signed() ==> ty.Min() == 0 && ty.Max() == Pow2(ty.Bits()) - 1
    ensures match ty
            case I8 => ty.Holds(-0x80) && !ty.Holds(0x80)
            case I16 => ty.Holds(-0x8000) && !ty.Holds(0x8000)
            case I32 => ty.Holds(-0x8000_0000) && !ty.Holds(0x8000_0000)
            case I64 => ty.Holds(-0x8000_0000_0000_0000) && !ty.Holds(0x8000_0000_0000_0000)
            case U8 => ty.Holds(0xFF) && !ty.Holds(-1)
            case U16 => ty.Holds(0xFFFF) && !ty.Holds(-1)
            case U32 => ty.Holds(0xFFFF_FFFF) && !ty.Holds(-1)
            case U64 => ty.Holds(0xFFFF_FFFF_FFFF_FFFF) && !ty.Holds(-1)
  {
    hide Pow2;
    Powers();
  }

  lemma Powers()
    ensures Pow2(7) == 0x80 && Pow2(8) == 0x100 && Pow2(15) == 0x8000 && Pow2(16) == 0x1_0000
    ensures Pow2(31) == 0x8000_0000 && Pow2(32) == 0x1_0000_0000
    ensures Pow2(63) == 0x8000_0000_0000_0000 && Pow2(64) == 0x1_0000_0000_0000_0000
  {
    assert Pow2(7) == 0x80;
    Pow2Add(7, 8);
    Pow2Add(8, 8);
    Pow2Add(15, 16);
    Pow2Add(16, 16);
    Pow2Add(31, 32);
    Pow2Add(32, 32);
  }

  lemma {:induction false} Pow2Add(a: nat, b: nat)
    ensures Pow2(a + b) == Pow2(a) * Pow2(b)
    decreases a
  {
    if a > 0 {
      Pow2Add(a - 1, b);
      assert 2 * (Pow2(a - 1) * Pow2(b)) == (2 * Pow2(a - 1)) * Pow2(b);
    }
  }

  // wrap_int without its overflow test: the representative of v modulo 2^bits
  // that the type can hold.
  function Wrap(v: int, ty: IntTy): int {
    var r := v % ty.Modulus();
    if ty.Signed() && r >= ty.Modulus() / 2 then r - ty.Modulus() else r
  }

  // Wrapping lands in the type's range, on a congruent value, and changes
  // nothing that was in range.
  lemma WrapFits(v: int, ty: IntTy)
    ensures ty.Holds(Wrap(v, ty))
    ensures (v - Wrap(v, ty)) % ty.Modulus() == 0
    ensures ty.Holds(v) ==> Wrap(v, ty) == v
  {
    WrapRemainder(v, ty.Modulus());
  }

  // Two integers congruent modulo 2^bits wrap to the same value.
  lemma WrapCongruent(a: int, b: int, ty: IntTy)
    requires (a - b) % ty.Modulus() == 0
    ensures Wrap(a, ty) == Wrap(b, ty)
  {
    var m := ty.Modulus();
    var k := (a - b) / m;
    assert a == b + k * m;
    ModAddMultiple(b, k, m);
  }

  datatype BinOp = Add | Sub | Mul | Div | Mod | Band | Bor | Bxor | Shl | Shr {
    predicate Ring() { Add? || Sub? || Mul? }
  }

  datatype CmpOp = Lt | Le | Gt | Ge | Eq | Ne

  function Compare(c: CmpOp, x: int, y: int): bool {
    match c
    case Lt => x < y case Le => x <= y case Gt => x > y
    case Ge => x >= y case Eq => x == y case Ne => x != y
  }

  function Pow2(n: nat): (r: int)
    ensures r > 0
  {
    if n == 0 then 1 else 2 * Pow2(n - 1)
  }

  function Abs(x: int): nat { if x < 0 then -x else x }

  // Division truncating toward zero, and the remainder that goes with it.
  function TruncDiv(a: int, b: int): int
    requires b != 0
  {
    var q := Abs(a) / Abs(b);
    if (a < 0) != (b < 0) then -q else q
  }

  function TruncMod(a: int, b: int): int
    requires b != 0
  {
    a - TruncDiv(a, b) * b
  }

  // q and r are the quotient truncated toward zero and its remainder: the remainder
  // is smaller than the divisor and has the sign of the dividend.
  predicate IsTruncated(a: int, b: int, q: int, r: int) {
    a == q * b + r && Abs(r) < Abs(b) && (r == 0 || (r < 0 <==> a < 0))
  }

  // TruncDiv and TruncMod are those, and no other pair is.
  lemma TruncExact(a: int, b: int)
    requires b != 0
    ensures IsTruncated(a, b, TruncDiv(a, b), TruncMod(a, b))
    ensures forall q, r :: IsTruncated(a, b, q, r) ==> q == TruncDiv(a, b) && r == TruncMod(a, b)
  {
    hide TruncDiv, TruncMod;
    TruncFits(a, b);
    forall q, r | IsTruncated(a, b, q, r) ensures q == TruncDiv(a, b) && r == TruncMod(a, b) {
      TruncOnly(a, b, q, r, TruncDiv(a, b), TruncMod(a, b));
    }
  }

  lemma TruncFits(a: int, b: int)
    requires b != 0
    ensures IsTruncated(a, b, TruncDiv(a, b), TruncMod(a, b))
  {
    var x, y := Abs(a), Abs(b);
    var u := x / y;
    assert x == u * y + x % y;
    assert TruncDiv(a, b) * b == (if a < 0 then -(u * y) else u * y) by {
      assert (-u) * b == -(u * b) && u * (-b) == -(u * b);
    }
  }

  lemma TruncOnly(a: int, b: int, q: int, r: int, q2: int, r2: int)
    requires b != 0 && IsTruncated(a, b, q, r) && IsTruncated(a, b, q2, r2)
    ensures q == q2 && r == r2
  {
    assert (q - q2) * b == r2 - r;
    if q != q2 { SmallProduct(q - q2, b); }
  }

  lemma SmallProduct(k: int, b: int)
    requires k != 0
    ensures Abs(k * b) >= Abs(b)
  {
    if k > 0 { MulMono(1, k, Abs(b)); } else { MulMono(1, -k, Abs(b)); }
    assert k * b == -((-k) * b) && k * (-b) == -(k * b);
    assert (-k) * (-b) == k * b;
  }

  function BitOf(op: BinOp, a: int, b: int): (r: int)
    requires 0 <= a <= 1 && 0 <= b <= 1
    ensures 0 <= r <= 1
  {
    match op
    case Band => a * b
    case Bor => a + b - a * b
    case _ => (a + b) % 2
  }

  function Magnitude(x: int): nat { if x < 0 then -x - 1 else x }

  // Bitwise and/or/xor of two unbounded two's-complement integers, bit by bit.
  function Bitwise(op: BinOp, x: int, y: int): int
    decreases Magnitude(x) + Magnitude(y)
  {
    if -1 <= x <= 0 && -1 <= y <= 0 then
      -BitOf(op, -x, -y)
    else
      BitOf(op, x % 2, y % 2) + 2 * Bitwise(op, x / 2, y / 2)
  }

  // The outcome of one binary operator on unbounded integers. Undefined is a
  // negative shift count, which the interpreter's host rejects.
  datatype Math = Num(n: int) | DivZero | Undefined

  function RingMath(op: BinOp, x: int, y: int): int
    requires op.Ring()
  {
    match op
    case Add => x + y
    case Sub => x - y
    case Mul => x * y
  }

  function BinMath(op: BinOp, x: int, y: int): Math {
    match op
    case Div => if y == 0 then DivZero else Num(TruncDiv(x, y))
    case Mod => if y == 0 then DivZero else Num(TruncMod(x, y))
    case Shl => if y < 0 then Undefined else Num(x * Pow2(y))
    case Shr => if y < 0 then Undefined else Num(x / Pow2(y))
    case Band => Num(Bitwise(op, x, y))
    case Bor => Num(Bitwise(op, x, y))
    case Bxor => Num(Bitwise(op, x, y))
    case _ => Num(RingMath(op, x, y))
  }

  // Left fold of a ring operator in unbounded integers (the interpreter's arith).
  function FoldMath(op: BinOp, acc: int, xs: seq<int>): int
    requires op.Ring()
    decreases xs
  {
    if xs == [] then acc else FoldMath(op, RingMath(op, acc, xs[0]), xs[1..])
  }

  // The same fold wrapping after every step (the lowering's chain of IBin).
  function FoldWrapped(op: BinOp, acc: int, xs: seq<int>, ty: IntTy): int
    requires op.Ring()
    decreases xs
  {
    if xs == [] then acc else FoldWrapped(op, Wrap(RingMath(op, acc, xs[0]), ty), xs[1..], ty)
  }

  // A multiple of m added to one operand adds a multiple of m to the result.
  lemma RingShift(op: BinOp, w: int, k: int, m: int, x: int)
    requires op.Ring() && m > 0
    ensures (RingMath(op, w + k * m, x) - RingMath(op, w, x)) % m == 0
  {
    var kx := if op.Mul? then k * x else k;
    assert RingMath(op, w + k * m, x) - RingMath(op, w, x) == 0 + kx * m by {
      if op.Mul? {
        assert (w + k * m) * x == w * x + (k * m) * x;
        assert (k * m) * x == (k * x) * m;
      }
    }
    ModAddMultiple(0, kx, m);
  }

  // Wrapping one operand first does not change the wrapped result.
  lemma WrapStep(op: BinOp, a: int, x: int, ty: IntTy)
    requires op.Ring()
    ensures Wrap(RingMath(op, Wrap(a, ty), x), ty) == Wrap(RingMath(op, a, x), ty)
  {
    var m := ty.Modulus();
    var w := Wrap(a, ty);
    WrapFits(a, ty);
    var k := (a - w) / m;
    assert a == w + k * m;
    RingShift(op, w, k, m, x);
    WrapCongruent(RingMath(op, a, x), RingMath(op, w, x), ty);
  }

  // Wrap-at-every-step equals wrap-once-at-the-end, for every width, signedness
  // and argument list.
  lemma {:induction false} FoldWrapsOnce(op: BinOp, a: int, xs: seq<int>, ty: IntTy)
    requires op.Ring()
    ensures FoldWrapped(op, Wrap(a, ty), xs, ty) == Wrap(FoldMath(op, a, xs), ty)
    decreases xs
  {
    if xs != [] {
      WrapStep(op, a, xs[0], ty);
      FoldWrapsOnce(op, RingMath(op, a, xs[0]), xs[1..], ty);
    }
  }
}
