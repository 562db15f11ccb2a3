// The x86 sequences compute what the IR's arithmetic says: from operands extended
// in their slots, the wrapped result extended again, or the panic.
module X86Refine {
  import opened Modular
  import opened Numeric
  import opened Syntax
  import opened Words64
  import opened X86Code
  import M = Machine
  import IR = Ir

  // Running straight-line code before other code.
  lemma {:induction false} RunJoin(a: List<Ins>, b: List<Ins>, r: Regs)
    requires Straight(a) && Run(a, r).Done?
    ensures Run(Join(a, b), r) == Run(b, Run(a, r).r)
    decreases a
  {
    match a
    case Nil =>
    case Cons(i, rest) =>
      assert Run(a, r) == Run(rest, Apply(i, r).value);
      RunJoin(rest, b, Apply(i, r).value);
      assert Run(Join(a, b), r) == Run(Join(rest, b), Apply(i, r).value);
  }

  predicate Straight(code: List<Ins>) {
    match code
    case Nil => true
    case Cons(i, rest) => !i.Jmp? && !i.Jcc? && !i.CallPanic? && Straight(rest)
  }

  // One instruction that is not a jump.
  lemma RunIns(i: Ins, rest: List<Ins>, r: Regs)
    requires !i.Jmp? && !i.Jcc? && !i.CallPanic? && Apply(i, r).Some?
    ensures Run(Cons(i, rest), r) == Run(rest, Apply(i, r).value)
  {
  }

  lemma RunCond(c: Cond, l: string, rest: List<Ins>, r: Regs)
    ensures Run(Cons(Jcc(c, l), rest), r) == Run(if Taken(c, r.left, r.right) then Jump(rest, l) else rest, r)
  {
  }

  lemma RunJump(l: string, rest: List<Ins>, r: Regs)
    ensures Run(Cons(Jmp(l), rest), r) == Run(Jump(rest, l), r)
  {
  }

  lemma RunNone(r: Regs)
    ensures Run(Nil, r) == Done(r)
  {
  }

  // ----- + - * band bor bxor -----

  // The raw 64-bit result of the operation.
  lemma RingAlu(b: BinOp, ty: IntTy, x: int, y: int, r: Regs)
    requires b.Add? || b.Sub? || b.Mul? || b.Band? || b.Bor? || b.Bxor?
    requires r.a == Enc(x) && r.c == Enc(y)
    ensures BinMath(b, x, y).Num?
    ensures Run(AluCode(b, ty), r) == Done(r.(a := Enc(BinMath(b, x, y).n))) && Straight(AluCode(b, ty))
  {
    hide Bitwise, Run, Apply;
    var ins := AluCode(b, ty).head;
    ApplyAlu(b, ins, x, y, r);
    RunIns(ins, Nil, r);
    RunNone(r.(a := Enc(BinMath(b, x, y).n)));
  }

  lemma ApplyAlu(b: BinOp, i: Ins, x: int, y: int, r: Regs)
    requires (b.Add? && i == AddQ) || (b.Sub? && i == SubQ) || (b.Mul? && i == ImulQ) || (b.Band? && i == AndQ) || (b.Bor? && i == OrQ)
             || (b.Bxor? && i == XorQ)
    requires r.a == Enc(x) && r.c == Enc(y)
    ensures BinMath(b, x, y).Num? && Apply(i, r) == Some(r.(a := Enc(BinMath(b, x, y).n)))
  {
    hide Bitwise, Enc;
    match b {
      case Add => AddRegs(x, y);
      case Sub => AddRegs(x, y);
      case Mul => MulRegs(x, y);
      case _ =>
        BitRegs(b, x, y);
        EncTwice(Bitwise(b, x, y));
    }
  }

  lemma EncTwice(n: int)
    ensures Enc(Enc(n)) == Enc(n)
  {
  }

  // ----- the tail: narrowing, and the overflow test -----

  lemma TailPlain(ty: IntTy, n: int, r: Regs)
    requires r.a == Enc(n)
    ensures Run(TailCode(ty, false), r) == Done(r.(a := Enc(Wrap(n, ty))))
  {
    ExtendWraps(n, ty);
    RunNone(r.(a := Enc(Wrap(n, ty))));
  }

  // The test compares the raw register with the narrowed one.
  lemma TailChecked(ty: IntTy, n: int, r: Regs)
    requires r.a == Enc(n)
    ensures if Enc(n) == Enc(Wrap(n, ty)) then Run(TailCode(ty, true), r).Done? && Run(TailCode(ty, true), r).r.a == Enc(n)
            else Run(TailCode(ty, true), r) == Panicked
  {
    hide Enc, Extend, Wrap, Jump, Run;
    ExtendWraps(n, ty);
    var r1 := r.(d := r.a);
    var r2 := r1.(a := Enc(Wrap(n, ty)));
    var r3 := r2.(left := r2.d, right := r2.a);
    var c4 := Cons(CallPanic, One(Lab("ovok")));
    RunIns(MoveAD, Cons(Ext(ty), Cons(CmpAD, Cons(Jcc(E, "ovok"), c4))), r);
    RunIns(Ext(ty), Cons(CmpAD, Cons(Jcc(E, "ovok"), c4)), r1);
    RunIns(CmpAD, Cons(Jcc(E, "ovok"), c4), r2);
    RunCond(E, "ovok", c4, r3);
    PastPanic(r3);
    RunNone(r3);
  }

  lemma PastPanic(r: Regs)
    ensures var c := Cons(CallPanic, One(Lab("ovok"))); Jump(c, "ovok") == Nil && Run(c, r) == Panicked
  {
    assert Jump(One(Lab("ovok")), "ovok") == Nil;
  }

  // Below 64 bits the raw result of + - * is exact enough for the test to fire
  // exactly on overflow.
  lemma TrapExact(b: BinOp, ty: IntTy, x: int, y: int)
    requires b.Ring() && ty.Bits() < 64 && ty.Holds(x) && ty.Holds(y)
    ensures var n := RingMath(b, x, y); Enc(n) == Enc(Wrap(n, ty)) <==> ty.Holds(n)
  {
    var n := RingMath(b, x, y);
    WrapFits(n, ty);
    var w := Wrap(n, ty);
    if b.Mul? { ProductBound(x, y, ty); }
    EncInjective(n, w);
  }

  lemma ProductBound(x: int, y: int, ty: IntTy)
    requires ty.Bits() < 64 && ty.Holds(x) && ty.Holds(y)
    ensures ty.Signed() ==> -0x4000_0000_0000_0000 <= x * y <= 0x4000_0000_0000_0000
    ensures !ty.Signed() ==> 0 <= x * y <= 0xFFFF_FFFF * 0xFFFF_FFFF
  {
    var m := if ty.Signed() then 0x8000_0000 else 0xFFFF_FFFF;
    assert -m <= x <= m && -m <= y <= m;
    SquareBound(x, y, m);
  }

  lemma SquareBound(x: int, y: int, m: int)
    requires -m <= x <= m && -m <= y <= m
    ensures -(m * m) <= x * y <= m * m
    ensures x >= 0 && y >= 0 ==> x * y >= 0
  {
    assert (m - x) * (m + y) >= 0 && (m + x) * (m - y) >= 0;
    assert (m - x) * (m - y) >= 0 && (m + x) * (m + y) >= 0;
    assert (m - x) * (m + y) + (m + x) * (m - y) == 2 * (m * m) - 2 * (x * y);
    assert (m - x) * (m - y) + (m + x) * (m + y) == 2 * (m * m) + 2 * (x * y);
  }

  // ----- shifts -----

  // The raw result of a shift by fewer places than the width, and by more.
  lemma ShiftIn(b: BinOp, ty: IntTy, x: int, y: int, r: Regs)
    requires (b.Shl? || b.Shr?) && ty.Holds(x) && 0 <= y < ty.Bits() && r.a == Enc(x) && r.c == Enc(y)
    ensures var i := if b.Shl? then ShlQ else if ty.Signed() then SarQ else ShrQ;
            Apply(i, r) == Some(r.(a := Enc(BinMath(b, x, y).n)))
  {
    EncSmall(y);
    EncReads(x, ty);
    var p := Pow2(y);
    assert r.c % 64 == y;
    if b.Shl? { MulRegOne(x, p); }
  }

  lemma MulRegOne(x: int, p: int)
    ensures Enc(Enc(x) * p) == Enc(x * p)
  {
    var q, e: int := x / Q, Enc(x);
    assert x == q * Q + e;
    assert x * p == e * p + (q * p) * Q;
    ModAddMultiple(e * p, q * p, Q);
  }

  lemma ShiftOut(b: BinOp, ty: IntTy, x: int, y: int, r: Regs) returns (n: int)
    requires (b.Shl? || b.Shr?) && ty.Holds(x) && y >= ty.Bits() && r.a == Enc(x)
    ensures var i := if b.Shr? && ty.Signed() then Sar63 else ZeroA;
            Apply(i, r) == Some(r.(a := Enc(n))) && Wrap(n, ty) == Wrap(BinMath(b, x, y).n, ty)
  {
    hide Wrap, Pow2, Apply, Bitwise;
    if b.Shl? {
      n := 0;
      ShiftedOut(ty, x, y);
      assert Apply(ZeroA, r) == Some(r.(a := Enc(0))) by { ZeroA0(r); }
    } else {
      n := if x < 0 then -1 else 0;
      PowAtLeast(ty, y);
      FloorSign(x, Pow2(y));
      if ty.Signed() { SarAll(ty, x, r); } else { ZeroA0(r); }
    }
  }

  lemma ZeroA0(r: Regs)
    ensures Apply(ZeroA, r) == Some(r.(a := Enc(0)))
  {
  }

  lemma SarAll(ty: IntTy, x: int, r: Regs)
    requires ty.Signed() && ty.Holds(x) && r.a == Enc(x)
    ensures Apply(Sar63, r) == Some(r.(a := Enc(if x < 0 then -1 else 0)))
  {
    EncReads(x, ty);
    Pow64();
    FloorSign(x, Pow2(63));
  }

  // Nothing is left of a value shifted out on the left.
  lemma ShiftedOut(ty: IntTy, x: int, y: int)
    requires y >= ty.Bits()
    ensures Wrap(x * Pow2(y), ty) == Wrap(0, ty)
  {
    PowAtLeast(ty, y);
    var m, p := ty.Modulus(), Pow2(y - ty.Bits());
    MulSwap(x, m, p);
    ModAddMultiple(0, x * p, m);
  }

  lemma MulSwap(x: int, m: int, p: int)
    ensures x * (m * p) == 0 + (x * p) * m
  {
  }

  lemma PowAtLeast(ty: IntTy, y: int)
    requires y >= ty.Bits()
    ensures Pow2(y) == ty.Modulus() * Pow2(y - ty.Bits()) && Pow2(y) >= ty.Modulus()
  {
    Pow64();
    Pow2Add(ty.Bits(), y - ty.Bits());
    MulMono(1, Pow2(y - ty.Bits()), ty.Modulus());
  }

  lemma FloorSign(x: int, p: int)
    requires p > 0 && -p <= x < p
    ensures x / p == if x < 0 then -1 else 0
  {
  }

  lemma RunShift(b: BinOp, ty: IntTy, x: int, y: int, r: Regs)
    requires (b.Shl? || b.Shr?) && ty.Holds(x) && ty.Holds(y) && y >= 0 && r.a == Enc(x) && r.c == Enc(y)
    ensures BinMath(b, x, y).Num?
    ensures var o := Run(Join(AluCode(b, ty), TailCode(ty, false)), r); o.Done? && o.r.a == Enc(Wrap(BinMath(b, x, y).n, ty))
  {
    hide Run, Apply, Enc, Wrap, Pow2, BinMath, Join, AluCode, TailCode, Jump;
    ShiftDefined(b, x, y);
    var n := BinMath(b, x, y).n;
    var tail := TailCode(ty, false);
    var shift := if b.Shl? then ShlQ else if ty.Signed() then SarQ else ShrQ;
    var big := if b.Shr? && ty.Signed() then Sar63 else ZeroA;
    var c6 := Cons(Lab("shaf"), tail);
    var c5 := Cons(big, c6);
    var c4 := Cons(Lab("shb"), c5);
    var c3 := Cons(Jmp("shaf"), c4);
    var c2 := Cons(shift, c3);
    var c1 := Cons(Jcc(AE, "shb"), c2);
    ShiftShape(b, ty, tail);
    var r1 := r.(left := r.c, right := Enc(ty.Bits()));
    CmpApplies(ty.Bits(), r);
    RunIns(CmpC(ty.Bits()), c1, r);
    RunCond(AE, "shb", c2, r1);
    Counted(y, ty);
    if y < ty.Bits() {
      ShiftIn(b, ty, x, y, r1);
      RunIns(shift, c3, r1);
      var r2 := r1.(a := Enc(n));
      RunJump("shaf", c4, r2);
      JumpPast("shaf", "shb", big, c6);
      TailPlain(ty, n, r2);
    } else {
      JumpTo("shb", shift, Jmp("shaf"), c5);
      var k := ShiftOut(b, ty, x, y, r1);
      RunIns(big, c6, r1);
      LabApplies("shaf", r1.(a := Enc(k)));
      RunIns(Lab("shaf"), tail, r1.(a := Enc(k)));
      TailPlain(ty, k, r1.(a := Enc(k)));
    }
  }

  lemma ShiftDefined(b: BinOp, x: int, y: int)
    requires (b.Shl? || b.Shr?) && y >= 0
    ensures BinMath(b, x, y).Num?
  {
  }

  lemma ShiftShape(b: BinOp, ty: IntTy, tail: List<Ins>)
    requires b.Shl? || b.Shr?
    ensures var shift := if b.Shl? then ShlQ else if ty.Signed() then SarQ else ShrQ;
            var big := if b.Shr? && ty.Signed() then Sar63 else ZeroA;
            Join(AluCode(b, ty), tail) == Cons(CmpC(ty.Bits()), Cons(Jcc(AE, "shb"), Cons(shift, Cons(Jmp("shaf"), Cons(Lab("shb"),
              Cons(big, Cons(Lab("shaf"), tail)))))))
  {
    var shift := if b.Shl? then ShlQ else if ty.Signed() then SarQ else ShrQ;
    var big := if b.Shr? && ty.Signed() then Sar63 else ZeroA;
    var s1 := One(Lab("shaf"));
    var s2 := Cons(big, s1);
    var s3 := Cons(Lab("shb"), s2);
    var s4 := Cons(Jmp("shaf"), s3);
    var s5 := Cons(shift, s4);
    var s6 := Cons(Jcc(AE, "shb"), s5);
    assert AluCode(b, ty) == Cons(CmpC(ty.Bits()), s6);
    JoinCons(Lab("shaf"), Nil, tail);
    JoinCons(big, s1, tail);
    JoinCons(Lab("shb"), s2, tail);
    JoinCons(Jmp("shaf"), s3, tail);
    JoinCons(shift, s4, tail);
    JoinCons(Jcc(AE, "shb"), s5, tail);
    JoinCons(CmpC(ty.Bits()), s6, tail);
  }

  lemma JoinCons(i: Ins, a: List<Ins>, b: List<Ins>)
    ensures Join(Cons(i, a), b) == Cons(i, Join(a, b)) && Join(Nil, b) == b
  {
  }

  lemma CmpApplies(imm: int, r: Regs)
    ensures Apply(CmpC(imm), r) == Some(r.(left := r.c, right := Enc(imm)))
  {
  }

  lemma LabApplies(l: string, r: Regs)
    ensures Apply(Lab(l), r) == Some(r)
  {
  }

  // A non-negative count compares with the width as itself.
  lemma Counted(y: int, ty: IntTy)
    requires ty.Holds(y) && y >= 0
    ensures Enc(y) == y && Enc(ty.Bits()) == ty.Bits()
  {
    EncSmall(y);
    EncSmall(ty.Bits());
  }

  lemma JumpPast(l: string, m: string, i: Ins, tail: List<Ins>)
    requires l != m && !i.Lab? && tail.Cons? && tail.head == Lab(l)
    ensures Jump(Cons(Lab(m), Cons(i, tail)), l) == tail.tail
  {
    assert Jump(Cons(i, tail), l) == Jump(tail, l);
  }

  lemma JumpTo(l: string, i: Ins, j: Ins, tail: List<Ins>)
    requires !i.Lab? && !j.Lab?
    ensures Jump(Cons(i, Cons(j, Cons(Lab(l), tail))), l) == tail
  {
    assert Jump(Cons(j, Cons(Lab(l), tail)), l) == Jump(Cons(Lab(l), tail), l);
  }

  // ----- division and remainder -----

  // From the divisor test to the narrowing.
  lemma RunDiv(b: BinOp, ty: IntTy, x: int, y: int, r: Regs)
    requires (b.Div? || b.Mod?) && ty.Holds(x) && ty.Holds(y) && r.a == Enc(x) && r.c == Enc(y)
    ensures y == 0 ==> Run(DivCode(b, ty), r) == Panicked
    ensures y != 0 ==> BinMath(b, x, y).Num? && Run(DivCode(b, ty), r).Done? && Run(DivCode(b, ty), r).r.a == Enc(Wrap(BinMath(b, x, y).n, ty))
  {
    hide Run, Enc, Wrap, BinMath, TruncDiv, TruncMod;
    var code := DivCode(b, ty);
    var div := code.tail.tail.tail.tail;
    var r1 := r.(left := r.c, right := 0);
    assert Apply(TestC, r) == Some(r1);
    RunIns(TestC, code.tail, r);
    RunCond(NE, "divok", code.tail.tail, r1);
    EncZero(y, ty);
    if y == 0 {
      PanicNow(code.tail.tail.tail, r1);
    } else {
      JumpHere("divok", code.tail.tail, div);
      if ty.Signed() { RunSignedDiv(b, ty, x, y, r1); } else { RunUnsignedDiv(b, ty, x, y, r1); }
    }
  }

  lemma EncZero(y: int, ty: IntTy)
    requires ty.Holds(y)
    ensures Enc(y) == 0 <==> y == 0
    ensures ty.Signed() ==> (Enc(y) == Enc(-1) <==> y == -1)
  {
    EncSmall(y);
  }

  lemma PanicNow(rest: List<Ins>, r: Regs)
    ensures Run(Cons(CallPanic, rest), r) == Panicked
  {
  }

  lemma JumpHere(l: string, code: List<Ins>, tail: List<Ins>)
    requires code == Cons(CallPanic, Cons(Lab(l), tail))
    ensures Jump(code, l) == tail
  {
    assert Jump(Cons(Lab(l), tail), l) == tail;
  }

  function DivTail(b: BinOp, ty: IntTy): List<Ins> { Join(if b.Mod? then One(MoveDA) else Nil, One(Ext(ty))) }

  // With quotient and remainder in %rax and %rdx.
  lemma RunDivTail(b: BinOp, ty: IntTy, q: int, m: int, r: Regs)
    requires (b.Div? || b.Mod?) && r.a == Enc(q) && r.d == Enc(m)
    ensures Run(DivTail(b, ty), r).Done? && Run(DivTail(b, ty), r).r.a == Enc(Wrap(if b.Div? then q else m, ty))
  {
    hide Run, Enc, Wrap, Extend;
    ExtendWraps(if b.Div? then q else m, ty);
    var r1 := if b.Mod? then r.(a := r.d) else r;
    if b.Mod? {
      assert DivTail(b, ty) == Cons(MoveDA, One(Ext(ty))) by { assert Join(Nil, One(Ext(ty))) == One(Ext(ty)); }
      RunIns(MoveDA, One(Ext(ty)), r);
    }
    RunIns(Ext(ty), Nil, r1);
    RunNone(r1.(a := Extend(r1.a, ty)));
  }

  lemma RunUnsignedDiv(b: BinOp, ty: IntTy, x: int, y: int, r: Regs)
    requires (b.Div? || b.Mod?) && !ty.Signed() && ty.Holds(x) && ty.Holds(y) && y != 0 && r.a == Enc(x) && r.c == Enc(y)
    ensures BinMath(b, x, y).Num?
    ensures var o := Run(Cons(ZeroD, Cons(DivQ, DivTail(b, ty))), r); o.Done? && o.r.a == Enc(Wrap(BinMath(b, x, y).n, ty))
  {
    hide Run, Wrap;
    var r1 := r.(d := 0);
    RunIns(ZeroD, Cons(DivQ, DivTail(b, ty)), r);
    EncReads(x, ty);
    EncReads(y, ty);
    QuotientSmall(x, y);
    RunIns(DivQ, DivTail(b, ty), r1);
    RunDivTail(b, ty, x / y, x % y, r1.(a := Enc(x / y), d := Enc(x % y)));
  }

  lemma QuotientSmall(x: nat, y: nat)
    requires y > 0
    ensures 0 <= x / y <= x && TruncDiv(x, y) == x / y && TruncMod(x, y) == x % y
  {
    MulMono(1, y, x / y);
  }

  lemma RunSignedDiv(b: BinOp, ty: IntTy, x: int, y: int, r: Regs)
    requires (b.Div? || b.Mod?) && ty.Signed() && ty.Holds(x) && ty.Holds(y) && y != 0 && r.a == Enc(x) && r.c == Enc(y)
    ensures BinMath(b, x, y).Num?
    ensures var o := Run(SignedDiv(DivTail(b, ty)), r); o.Done? && o.r.a == Enc(Wrap(BinMath(b, x, y).n, ty))
  {
    hide Run, Wrap, Enc, TruncDiv, TruncMod, Apply, Jump, DivTail;
    var tail := DivTail(b, ty);
    var c5 := Cons(Lab("dvn1"), Cons(Cqto, Cons(IdivQ, Cons(Lab("dvaf"), tail))));
    var c2 := Cons(NegQ, Cons(ZeroD, Cons(Jmp("dvaf"), c5)));
    CmpApplies(-1, r);
    RunIns(CmpC(-1), Cons(Jcc(NE, "dvn1"), c2), r);
    var r1 := r.(left := r.c, right := Enc(-1));
    RunCond(NE, "dvn1", c2, r1);
    EncZero(y, ty);
    if y == -1 {
      NegApplies(x, r1);
      var r2 := r1.(a := Enc(-x));
      RunIns(NegQ, c2.tail, r1);
      ZeroApplies(r2);
      var r3 := r2.(d := Enc(0));
      RunIns(ZeroD, c2.tail.tail, r2);
      RunJump("dvaf", c5, r3);
      JumpOver(tail);
      ByMinusOne(x);
      RunDivTail(b, ty, -x, 0, r3);
    } else {
      JumpIn(c5.tail);
      IdivApplies(ty, x, y, r1);
      var r2 := Apply(Cqto, r1).value;
      RunIns(Cqto, c5.tail.tail, r1);
      RunIns(IdivQ, c5.tail.tail.tail, r2);
      var r3 := Apply(IdivQ, r2).value;
      LabApplies("dvaf", r3);
      RunIns(Lab("dvaf"), tail, r3);
      RunDivTail(b, ty, TruncDiv(x, y), TruncMod(x, y), r3);
    }
  }

  function SignedDiv(tail: List<Ins>): List<Ins> {
    Cons(CmpC(-1), Cons(Jcc(NE, "dvn1"), Cons(NegQ, Cons(ZeroD, Cons(Jmp("dvaf"),
    Cons(Lab("dvn1"), Cons(Cqto, Cons(IdivQ, Cons(Lab("dvaf"), tail)))))))))
  }

  lemma NegApplies(x: int, r: Regs)
    requires r.a == Enc(x)
    ensures Apply(NegQ, r) == Some(r.(a := Enc(-x)))
  {
    NegRegs(x);
  }

  lemma ZeroApplies(r: Regs)
    ensures Apply(ZeroD, r) == Some(r.(d := Enc(0)))
  {
  }

  lemma JumpOver(tail: List<Ins>)
    ensures Jump(Cons(Lab("dvn1"), Cons(Cqto, Cons(IdivQ, Cons(Lab("dvaf"), tail)))), "dvaf") == tail
  {
    assert Jump(Cons(Lab("dvaf"), tail), "dvaf") == tail;
    assert Jump(Cons(IdivQ, Cons(Lab("dvaf"), tail)), "dvaf") == tail;
    assert Jump(Cons(Cqto, Cons(IdivQ, Cons(Lab("dvaf"), tail))), "dvaf") == tail;
  }

  lemma JumpIn(tail: List<Ins>)
    ensures Jump(Cons(NegQ, Cons(ZeroD, Cons(Jmp("dvaf"), Cons(Lab("dvn1"), tail)))), "dvn1") == tail
  {
    assert Jump(Cons(Lab("dvn1"), tail), "dvn1") == tail;
    assert Jump(Cons(Jmp("dvaf"), Cons(Lab("dvn1"), tail)), "dvn1") == tail;
    assert Jump(Cons(ZeroD, Cons(Jmp("dvaf"), Cons(Lab("dvn1"), tail))), "dvn1") == tail;
  }

  lemma ByMinusOne(x: int)
    ensures TruncDiv(x, -1) == -x && TruncMod(x, -1) == 0
  {
  }

  // With -1 out of the way the hardware division cannot fault.
  lemma IdivApplies(ty: IntTy, x: int, y: int, r: Regs)
    requires ty.Signed() && ty.Holds(x) && ty.Holds(y) && y != 0 && y != -1 && r.a == Enc(x) && r.c == Enc(y)
    ensures Apply(Cqto, r).Some?
    ensures var r2 := Apply(Cqto, r).value;
            && Apply(IdivQ, r2).Some? && Apply(IdivQ, r2).value.a == Enc(TruncDiv(x, y)) && Apply(IdivQ, r2).value.d == Enc(TruncMod(x, y))
  {
    hide TruncMod;
    EncReads(x, ty);
    EncReads(y, ty);
    EncSmall(x);
    var r2 := Apply(Cqto, r).value;
    assert WideSigned(r2) == x;
    QuotientFits(x, y, ty);
    TruncExact(x, y);
    assert IdivGives(r2, TruncDiv(x, y), TruncMod(x, y));
  }

  lemma QuotientFits(x: int, y: int, ty: IntTy)
    requires ty.Signed() && ty.Holds(x) && ty.Holds(y) && y != 0 && y != -1
    ensures -0x8000_0000_0000_0000 <= TruncDiv(x, y) < 0x8000_0000_0000_0000
  {
    QuotientSmall(Abs(x), Abs(y));
    if Abs(y) > 1 { HalfQuotient(Abs(x), Abs(y)); }
  }

  lemma HalfQuotient(x: nat, y: nat)
    requires y >= 2
    ensures 2 * (x / y) <= x
  {
    MulMono(2, y, x / y);
  }

  // ----- comparisons -----

  lemma RunCmp(c: CmpOp, ty: IntTy, x: int, y: int, r: Regs)
    requires ty.Holds(x) && ty.Holds(y) && r.a == Enc(x) && r.c == Enc(y)
    ensures var o := Run(BinCode(Cmp(c), ty, false), r); o.Done? && o.r.a == if Compare(c, x, y) then 1 else 0
  {
    hide Run, Enc;
    var r1 := r.(left := r.a, right := r.c);
    var code := One(Set(CondOf(c, ty.Signed())));
    assert Apply(CmpCA, r) == Some(r1);
    RunIns(CmpCA, code, r);
    EncReads(x, ty);
    EncReads(y, ty);
    EncSame(x, y, ty);
    RunIns(Set(CondOf(c, ty.Signed())), Nil, r1);
    RunNone(r1.(a := if Compare(c, x, y) then 1 else 0));
  }

  lemma EncSame(x: int, y: int, ty: IntTy)
    requires ty.Holds(x) && ty.Holds(y)
    ensures Enc(x) == Enc(y) <==> x == y
  {
    EncInjective(x, y);
  }

  // ----- the theorem -----

  // emit_bin against the IR's arithmetic, for all eight widths: the result in an
  // extended register, or a panic, exactly as AluBin says. The overflow test is
  // for + - * below 64 bits.
  lemma BinRefines(op: Op, ty: IntTy, chk: bool, x: int, y: int, r: Regs)
    requires ty.Holds(x) && ty.Holds(y) && r.a == Enc(x) && r.c == Enc(y)
    requires op.Cmp? || op.Bin?
    requires op.Bin? && (op.b.Shl? || op.b.Shr?) ==> y >= 0
    requires chk ==> op.Bin? && op.b.Ring() && ty.Bits() < 64
    ensures var o := Run(BinCode(op, ty, chk), r);
            match M.AluBin(op, M.MInt(x), M.MInt(y), ty, chk)
            case Result(m) => o.Done? && (m.MInt? ==> ty.Holds(m.n) && o.r.a == Enc(m.n)) && (m.MBool? ==> o.r.a == if m.b then 1 else 0)
            case Trap => o == Panicked
            case Bad => false
  {
    hide Run, Enc, Wrap, Bitwise;
    if op.Cmp? {
      RunCmp(op.c, ty, x, y, r);
    } else if op.b.Div? || op.b.Mod? {
      RunDiv(op.b, ty, x, y, r);
      if y != 0 { WrapFits(BinMath(op.b, x, y).n, ty); }
    } else if op.b.Shl? || op.b.Shr? {
      RunShift(op.b, ty, x, y, r);
      WrapFits(BinMath(op.b, x, y).n, ty);
    } else {
      RingAlu(op.b, ty, x, y, r);
      var n := BinMath(op.b, x, y).n;
      var r1 := r.(a := Enc(n));
      RunJoin(AluCode(op.b, ty), TailCode(ty, chk), r);
      WrapFits(n, ty);
      if chk {
        TailChecked(ty, n, r1);
        TrapExact(op.b, ty, x, y);
      } else {
        TailPlain(ty, n, r1);
      }
    }
  }

  // At 64 bits the test compares the raw register with itself: it never fires,
  // whatever the operands. So the panic agrees exactly when nothing overflows.
  lemma Checked64(b: BinOp, ty: IntTy, x: int, y: int, r: Regs)
    requires b.Ring() && ty.Bits() == 64 && r.a == Enc(x) && r.c == Enc(y)
    ensures var o := Run(BinCode(Bin(b), ty, true), r); o.Done? && o.r.a == Enc(Wrap(RingMath(b, x, y), ty))
    ensures (M.AluBin(Bin(b), M.MInt(x), M.MInt(y), ty, true).Trap? <==> Run(BinCode(Bin(b), ty, true), r) == Panicked)
            <==> ty.Holds(RingMath(b, x, y))
  {
    hide Run, Bitwise;
    RingAlu(b, ty, x, y, r);
    var n := RingMath(b, x, y);
    RunJoin(AluCode(b, ty), TailCode(ty, true), r);
    ExtendWraps(n, ty);
    TailChecked(ty, n, r.(a := Enc(n)));
  }

  // emit_un and the cast.
  lemma UnRefines(ty: IntTy, x: int, r: Regs)
    requires r.a == Enc(x)
    ensures Run(NegCode(ty), r).Done? && Run(NegCode(ty), r).r.a == Enc(Wrap(-x, ty))
    ensures Run(BnotCode(ty), r).Done? && Run(BnotCode(ty), r).r.a == Enc(Wrap(-x - 1, ty))
    ensures Run(CastCode(ty), r).Done? && Run(CastCode(ty), r).r.a == Enc(Wrap(x, ty))
  {
    hide Run, Enc, Wrap, Extend;
    NegApplies(x, r);
    NotApplies(x, r);
    RunIns(NegQ, One(Ext(ty)), r);
    RunIns(NotQ, One(Ext(ty)), r);
    RunExt(-x, ty, r.(a := Enc(-x)));
    RunExt(-x - 1, ty, r.(a := Enc(-x - 1)));
    RunExt(x, ty, r);
  }

  // Boolean `not`.
  lemma NotRefines(b: bool, r: Regs)
    requires r.a == if b then 1 else 0
    ensures M.AluUn(IR.LNot, M.MBool(b), U8, false) == M.Result(M.MBool(!b))
    ensures var o := Run(NotCode(), r); o.Done? && o.r.a == if !b then 1 else 0
  {
    RunIns(TestA, One(Set(E)), r);
  }

  lemma NotApplies(x: int, r: Regs)
    requires r.a == Enc(x)
    ensures Apply(NotQ, r) == Some(r.(a := Enc(-x - 1)))
  {
    NegRegs(x);
  }

  lemma RunExt(n: int, ty: IntTy, r: Regs)
    requires r.a == Enc(n)
    ensures Run(One(Ext(ty)), r) == Done(r.(a := Enc(Wrap(n, ty))))
  {
    hide Run, Enc, Wrap, Extend;
    ExtendWraps(n, ty);
    RunIns(Ext(ty), Nil, r);
    RunNone(r.(a := Extend(r.a, ty)));
  }
}
