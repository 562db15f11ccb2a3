// The integer instruction sequences of compiler/backend_x86.cardinal as data, and
// a machine that runs them on %rax, %rcx and %rdx. Jumps only go forward.
module X86Code {
  import opened Numeric
  import opened Syntax
  import opened Words64

  datatype Cond = E | NE | L | LE | G | GE | B | BE | A | AE

  datatype Ins =
    | AddQ | SubQ | ImulQ | AndQ | OrQ | XorQ          // %rcx into %rax
    | NegQ | NotQ                                       // %rax
    | ShlQ | ShrQ | SarQ                                // %rax by %cl
    | Sar63                                             // sarq $63, %rax
    | ZeroA | ZeroD                                     // xorl %eax, %eax; xorl %edx, %edx
    | MoveDA                                            // movq %rdx, %rax
    | MoveAD                                            // movq %rax, %rdx
    | Cqto | IdivQ | DivQ                               // %rdx:%rax by %rcx
    | TestC                                             // testq %rcx, %rcx
    | TestA                                             // testq %rax, %rax
    | CmpC(imm: int)                                    // cmpq $imm, %rcx
    | CmpCA                                             // cmpq %rcx, %rax
    | CmpAD                                             // cmpq %rax, %rdx
    | Set(c: Cond)                                      // set<c> %al; movzbq %al, %rax
    | Jcc(c: Cond, l: string)
    | Jmp(l: string)
    | Lab(l: string)
    | Ext(ty: IntTy)                                    // extend_rax
    | CallPanic

  // `left` and `right` are what the flags compare.
  datatype Regs = Regs(a: Reg, c: Reg, d: Reg, left: Reg, right: Reg)

  // Fault is the hardware's divide error.
  datatype Outcome = Done(r: Regs) | Panicked | Fault | Lost

  predicate Taken(c: Cond, x: Reg, y: Reg) {
    match c
    case E => x == y case NE => x != y
    case L => Signed64(x) < Signed64(y) case LE => Signed64(x) <= Signed64(y)
    case G => Signed64(x) > Signed64(y) case GE => Signed64(x) >= Signed64(y)
    case B => x < y case BE => x <= y case A => x > y case AE => x >= y
  }

  function Jump(code: List<Ins>, l: string): List<Ins> {
    match code
    case Nil => Nil
    case Cons(i, rest) => if i == Lab(l) then rest else Jump(rest, l)
  }

  lemma {:induction false} JumpShrinks(code: List<Ins>, l: string)
    ensures Length(Jump(code, l)) <= Length(code)
    decreases code
  {
    if code.Cons? { JumpShrinks(code.tail, l); }
  }

  // The 128-bit dividend, unsigned and signed.
  function Wide(r: Regs): int { r.d * 0x1_0000_0000_0000_0000 + r.a }

  function WideSigned(r: Regs): int { Signed64(r.d) * 0x1_0000_0000_0000_0000 + r.a }

  // idivq: the truncated quotient and the remainder, if the quotient fits. With a
  // zero divisor there is none.
  predicate IdivGives(r: Regs, q: int, m: int) {
    IsTruncated(WideSigned(r), Signed64(r.c), q, m) && -0x8000_0000_0000_0000 <= q < 0x8000_0000_0000_0000
  }

  // What one instruction that is not a jump does; None is the divide error.
  ghost function Apply(i: Ins, r: Regs): Option<Regs> {
    match i
    case AddQ => Some(r.(a := (r.a + r.c) % 0x1_0000_0000_0000_0000))
    case SubQ => Some(r.(a := (r.a as int - r.c) % 0x1_0000_0000_0000_0000))
    case ImulQ => Some(r.(a := (r.a * r.c) % 0x1_0000_0000_0000_0000))
    case AndQ => Some(r.(a := Enc(Bitwise(Band, r.a, r.c))))
    case OrQ => Some(r.(a := Enc(Bitwise(Bor, r.a, r.c))))
    case XorQ => Some(r.(a := Enc(Bitwise(Bxor, r.a, r.c))))
    case NegQ => Some(r.(a := (0 - r.a as int) % 0x1_0000_0000_0000_0000))
    case NotQ => Some(r.(a := 0xFFFF_FFFF_FFFF_FFFF - r.a))
    case ShlQ => Some(r.(a := Enc(r.a * Pow2(r.c % 64))))
    case ShrQ => Some(r.(a := Enc(r.a / Pow2(r.c % 64))))
    case SarQ => Some(r.(a := Enc(Signed64(r.a) / Pow2(r.c % 64))))
    case Sar63 => Some(r.(a := Enc(Signed64(r.a) / Pow2(63))))
    case ZeroA => Some(r.(a := 0))
    case ZeroD => Some(r.(d := 0))
    case MoveDA => Some(r.(a := r.d))
    case MoveAD => Some(r.(d := r.a))
    case Cqto => Some(r.(d := if Signed64(r.a) < 0 then 0xFFFF_FFFF_FFFF_FFFF else 0))
    case DivQ =>
      if r.c == 0 || Wide(r) / r.c >= 0x1_0000_0000_0000_0000 then None
      else Some(r.(a := Enc(Wide(r) / r.c), d := Enc(Wide(r) % r.c)))
    case IdivQ =>
      if exists q, m :: IdivGives(r, q, m) then
        var q, m :| IdivGives(r, q, m);
        Some(r.(a := Enc(q), d := Enc(m)))
      else None
    case TestC => Some(r.(left := r.c, right := 0))
    case TestA => Some(r.(left := r.a, right := 0))
    case CmpC(imm) => Some(r.(left := r.c, right := Enc(imm)))
    case CmpCA => Some(r.(left := r.a, right := r.c))
    case CmpAD => Some(r.(left := r.d, right := r.a))
    case Set(c) => Some(r.(a := if Taken(c, r.left, r.right) then 1 else 0))
    case Ext(ty) => Some(r.(a := Extend(r.a, ty)))
    case _ => Some(r)
  }

  ghost function Run(code: List<Ins>, r: Regs): Outcome
    decreases Length(code)
  {
    match code
    case Nil => Done(r)
    case Cons(i, rest) =>
      JumpShrinks(rest, if i.Jcc? || i.Jmp? then i.l else "");
      if i.CallPanic? then Panicked
      else if i.Jmp? then Run(Jump(rest, i.l), r)
      else if i.Jcc? then Run(if Taken(i.c, r.left, r.right) then Jump(rest, i.l) else rest, r)
      else
        match Apply(i, r)
        case Some(r2) => Run(rest, r2)
        case None => Fault
  }

  // ----- the code generator -----

  function Join(a: List<Ins>, b: List<Ins>): List<Ins> {
    match a
    case Nil => b
    case Cons(i, rest) => Cons(i, Join(rest, b))
  }

  // cmp_setcc.
  function CondOf(c: CmpOp, signed: bool): Cond {
    match c
    case Eq => E
    case Ne => NE
    case Lt => if signed then L else B
    case Le => if signed then LE else BE
    case Gt => if signed then G else A
    case Ge => if signed then GE else AE
  }

  function One(i: Ins): List<Ins> { Cons(i, Nil) }

  // The quotient or remainder, with the divisor tested first.
  function DivCode(b: BinOp, ty: IntTy): List<Ins> {
    var tail := Join(if b.Mod? then One(MoveDA) else Nil, One(Ext(ty)));
    var div :=
      if ty.Signed() then
        Cons(CmpC(-1), Cons(Jcc(NE, "dvn1"), Cons(NegQ, Cons(ZeroD, Cons(Jmp("dvaf"),
        Cons(Lab("dvn1"), Cons(Cqto, Cons(IdivQ, Cons(Lab("dvaf"), tail)))))))))
      else Cons(ZeroD, Cons(DivQ, tail));
    Cons(TestC, Cons(Jcc(NE, "divok"), Cons(CallPanic, Cons(Lab("divok"), div))))
  }

  // A count of at least the width is handled apart: x86 uses its low 6 bits only.
  function ShiftCode(b: BinOp, ty: IntTy): List<Ins> {
    var shift := if b.Shl? then ShlQ else if ty.Signed() then SarQ else ShrQ;
    var big := if b.Shr? && ty.Signed() then Sar63 else ZeroA;
    Cons(CmpC(ty.Bits()), Cons(Jcc(AE, "shb"), Cons(shift, Cons(Jmp("shaf"), Cons(Lab("shb"), Cons(big, One(Lab("shaf"))))))))
  }

  function AluCode(b: BinOp, ty: IntTy): List<Ins> {
    match b
    case Add => One(AddQ)
    case Sub => One(SubQ)
    case Mul => One(ImulQ)
    case Band => One(AndQ)
    case Bor => One(OrQ)
    case Bxor => One(XorQ)
    case _ => ShiftCode(b, ty)
  }

  // Narrow the result; under `checked`, panic if that changes it.
  function TailCode(ty: IntTy, chk: bool): List<Ins> {
    if chk then Cons(MoveAD, Cons(Ext(ty), Cons(CmpAD, Cons(Jcc(E, "ovok"), Cons(CallPanic, One(Lab("ovok")))))))
    else One(Ext(ty))
  }

  // emit_bin for integers.
  function BinCode(op: Op, ty: IntTy, chk: bool): List<Ins> {
    match op
    case Cmp(c) => Cons(CmpCA, One(Set(CondOf(c, ty.Signed()))))
    case Bin(b) => if b.Div? || b.Mod? then DivCode(b, ty) else Join(AluCode(b, ty), TailCode(ty, chk))
    case _ => Nil
  }

  // emit_un for integers, and the int-to-int cast.
  function NotCode(): List<Ins> { Cons(TestA, One(Set(E))) }

  function BnotCode(ty: IntTy): List<Ins> { Cons(NotQ, One(Ext(ty))) }

  function NegCode(ty: IntTy): List<Ins> { Cons(NegQ, One(Ext(ty))) }

  function CastCode(ty: IntTy): List<Ins> { One(Ext(ty)) }
}
