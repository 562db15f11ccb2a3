// Meaning of the IR: a program-counter machine over blocks, with a stack of
// frames and a heap of boxes and environment arrays.
module Machine {
  import opened Numeric
  import opened Syntax
  import opened Ir

  datatype MVal =
    | MInt(n: int)
    | MBool(b: bool)
    | MUnit
    | MNull
    | MBox(addr: nat)
    | MEnv(addr: nat)
    | MClo(fn: string, env: MVal)

  datatype HObj = HBox(v: MVal) | HEnv(slots: seq<MVal>)

  datatype Regs = Regs(temps: map<nat, MVal>, locals: map<string, MVal>)

  // `dst` is the caller's temp that receives the result.
  datatype Frame = Frame(fn: IRFunc, blk: nat, pc: nat, rg: Regs, dst: Option<nat>)

  datatype Conf =
    | Run(fr: Frame, rest: List<Frame>, heap: seq<HObj>)
    | Halt(v: MVal, heap: seq<HObj>)
    | Panicked
    | Stuck

  type IRProgram = map<string, IRFunc>

  function ValOf(rg: Regs, v: IVal): Option<MVal> {
    match v
    case Temp(id, _) => if id in rg.temps then Some(rg.temps[id]) else None
    case Local(n, _) => if n in rg.locals then Some(rg.locals[n]) else None
    case ImmInt(n, _) => Some(MInt(n))
    case ImmBool(b) => Some(MBool(b))
    case ImmUnit => Some(MUnit)
    case ImmNull => Some(MNull)
  }

  function ValsOf(rg: Regs, vs: seq<IVal>): Option<seq<MVal>> {
    if vs == [] then Some([])
    else
      match (ValOf(rg, vs[0]), ValsOf(rg, vs[1..]))
      case (Some(m), Some(ms)) => Some([m] + ms)
      case _ => None
  }

  // The first block with that label.
  function FindLabel(blocks: seq<Block>, l: string, from: nat): Option<nat>
    decreases |blocks| - from
  {
    if from >= |blocks| then None
    else if blocks[from].lbl == l then Some(from)
    else FindLabel(blocks, l, from + 1)
  }

  function SetTemp(rg: Regs, t: nat, m: MVal): Regs { rg.(temps := rg.temps[t := m]) }

  function SetLocal(rg: Regs, n: string, m: MVal): Regs { rg.(locals := rg.locals[n := m]) }

  // One integer or comparison instruction; only + - * test for overflow.
  datatype Alu = Result(v: MVal) | Trap | Bad

  function AluBin(op: Op, a: MVal, b: MVal, ty: IntTy, chk: bool): Alu {
    match op
    case Cmp(c) =>
      if a.MInt? && b.MInt? then Result(MBool(Compare(c, a.n, b.n)))
      else if a.MBool? && b.MBool? && c.Eq? then Result(MBool(a.b == b.b))
      else if a.MBool? && b.MBool? && c.Ne? then Result(MBool(a.b != b.b))
      else Bad
    case Bin(o) =>
      if !(a.MInt? && b.MInt?) then Bad
      else
        (match BinMath(o, a.n, b.n)
         case Num(n) => if chk && o.Ring() && !ty.Holds(n) then Trap else Result(MInt(Wrap(n, ty)))
         case DivZero => Trap
         case Undefined => Bad)
    case _ => Bad
  }

  function AluUn(op: UnOp, a: MVal, ty: IntTy, chk: bool): Alu {
    match op
    case LNot => if a.MBool? then Result(MBool(!a.b)) else Bad
    case BNot => if a.MInt? then Result(MInt(Wrap(-a.n - 1, ty))) else Bad
    case Neg =>
      if !a.MInt? then Bad
      else if chk && !ty.Holds(-a.n) then Trap
      else Result(MInt(Wrap(-a.n, ty)))
  }

  function BindArgs(ps: List<IRParam>, args: seq<MVal>): map<string, MVal>
    requires |args| == Length(ps)
  {
    match ps
    case Nil => map[]
    case Cons(p, rest) => BindArgs(rest, args[1..])[p.name := args[0]]
  }

  // Enter a function at its first block; the top of the stack resumes after it.
  function Enter(q: IRProgram, name: string, args: seq<MVal>, dst: Option<nat>, stack: List<Frame>,
                 heap: seq<HObj>): Conf
  {
    if name in q && |args| == Length(q[name].params)
    then Run(Frame(q[name], 0, 0, Regs(map[], BindArgs(q[name].params, args)), dst), stack, heap)
    else Stuck
  }

  function Leave(m: MVal, dst: Option<nat>, rest: List<Frame>, heap: seq<HObj>): Conf {
    match rest
    case Nil => Halt(m, heap)
    case Cons(fr, below) =>
      Run(if dst.Some? then fr.(rg := SetTemp(fr.rg, dst.value, m)) else fr, below, heap)
  }

  function Jump(fr: Frame, l: string, rest: List<Frame>, heap: seq<HObj>): Conf {
    match FindLabel(fr.fn.blocks, l, 0)
    case None => Stuck
    case Some(i) => Run(fr.(blk := i, pc := 0), rest, heap)
  }

  function Next(fr: Frame, rg: Regs): Frame { fr.(pc := fr.pc + 1, rg := rg) }

  function AfterAlu(r: Alu, dst: nat, fr: Frame, rest: List<Frame>, heap: seq<HObj>): Conf {
    match r
    case Result(m) => Run(Next(fr, SetTemp(fr.rg, dst, m)), rest, heap)
    case Trap => Panicked
    case Bad => Stuck
  }

  function Exec(q: IRProgram, i: Instr, fr: Frame, rest: List<Frame>, heap: seq<HObj>): Conf {
    match i
    case IBin(dst, op, l, r, ty, chk) =>
      (match (ValOf(fr.rg, l), ValOf(fr.rg, r))
       case (Some(a), Some(b)) => AfterAlu(AluBin(op, a, b, ty, chk), dst, fr, rest, heap)
       case _ => Stuck)
    case IUn(dst, op, v, ty, chk) =>
      (match ValOf(fr.rg, v)
       case Some(a) => AfterAlu(AluUn(op, a, ty, chk), dst, fr, rest, heap)
       case None => Stuck)
    case ICast(dst, v, ty) =>
      (match ValOf(fr.rg, v)
       case Some(MInt(n)) => Run(Next(fr, SetTemp(fr.rg, dst, MInt(Wrap(n, ty)))), rest, heap)
       case _ => Stuck)
    case IAssign(place, src) =>
      (match ValOf(fr.rg, src)
       case Some(m) => Store(place, m, fr, rest, heap)
       case None => Stuck)
    case ICall(res, callee, args) =>
      (match ValsOf(fr.rg, args)
       case Some(ms) => Enter(q, callee, ms, res, Cons(Next(fr, fr.rg), rest), heap)
       case None => Stuck)
    case IAlloc(dst) => Run(Next(fr, SetTemp(fr.rg, dst, MBox(|heap|))), rest, heap + [HBox(MNull)])
    case ILoad(dst, ptr) =>
      (match ValOf(fr.rg, ptr)
       case Some(MBox(a)) =>
         if a < |heap| && heap[a].HBox? then Run(Next(fr, SetTemp(fr.rg, dst, heap[a].v)), rest, heap) else Stuck
       case _ => Stuck)
    case IEnvNew(dst, n) =>
      Run(Next(fr, SetTemp(fr.rg, dst, MEnv(|heap|))), rest, heap + [HEnv(seq(n, _ => MNull))])
    case IEnvStore(env, idx, ptr) =>
      (match (ValOf(fr.rg, env), ValOf(fr.rg, ptr))
       case (Some(MEnv(a)), Some(m)) =>
         if a < |heap| && heap[a].HEnv? && idx < |heap[a].slots|
         then Run(Next(fr, fr.rg), rest, heap[a := HEnv(heap[a].slots[idx := m])]) else Stuck
       case _ => Stuck)
    case IEnvLoad(dst, env, idx) =>
      (match ValOf(fr.rg, env)
       case Some(MEnv(a)) =>
         if a < |heap| && heap[a].HEnv? && idx < |heap[a].slots|
         then Run(Next(fr, SetTemp(fr.rg, dst, heap[a].slots[idx])), rest, heap) else Stuck
       case _ => Stuck)
    case IMakeClosure(dst, fn, env) =>
      (match ValOf(fr.rg, env)
       case Some(m) => Run(Next(fr, SetTemp(fr.rg, dst, MClo(fn, m))), rest, heap)
       case None => Stuck)
    case ICallClosure(res, clos, args) =>
      (match (ValOf(fr.rg, clos), ValsOf(fr.rg, args))
       case (Some(MClo(fn, env)), Some(ms)) => Enter(q, fn, [env] + ms, res, Cons(Next(fr, fr.rg), rest), heap)
       case _ => Stuck)
    case IBr(l) => Jump(fr, l, rest, heap)
    case ICondBr(c, t, e) =>
      (match ValOf(fr.rg, c)
       case Some(MBool(b)) => Jump(fr, if b then t else e, rest, heap)
       case _ => Stuck)
    case IRet(v) =>
      (match ValOf(fr.rg, v)
       case Some(m) => Leave(m, fr.dst, rest, heap)
       case None => Stuck)
    case IPanic => Panicked
  }

  function Store(place: IPlace, m: MVal, fr: Frame, rest: List<Frame>, heap: seq<HObj>): Conf {
    match place
    case PLocal(n) => Run(Next(fr, SetLocal(fr.rg, n, m)), rest, heap)
    case PDeref(ptr) =>
      match ValOf(fr.rg, ptr)
      case Some(MBox(a)) =>
        if a < |heap| && heap[a].HBox? then Run(Next(fr, fr.rg), rest, heap[a := HBox(m)]) else Stuck
      case _ => Stuck
  }

  function Step(q: IRProgram, c: Conf): Conf {
    match c
    case Run(fr, rest, heap) =>
      if fr.blk < |fr.fn.blocks| && fr.pc < |fr.fn.blocks[fr.blk].instrs|
      then Exec(q, fr.fn.blocks[fr.blk].instrs[fr.pc], fr, rest, heap)
      else Stuck
    case _ => c
  }

  function StepN(q: IRProgram, c: Conf, n: nat): Conf
    decreases n
  {
    if n == 0 then c else StepN(q, Step(q, c), n - 1)
  }

  lemma {:induction false} StepsCompose(q: IRProgram, c: Conf, m: nat, n: nat)
    ensures StepN(q, StepN(q, c, m), n) == StepN(q, c, m + n)
    decreases m
  {
    if m > 0 {
      StepsCompose(q, Step(q, c), m - 1, n);
    }
  }

  // A machine that has stopped stays as it is.
  lemma {:induction false} StoppedStays(q: IRProgram, c: Conf, n: nat)
    requires !c.Run?
    ensures StepN(q, c, n) == c
    decreases n
  {
    if n > 0 {
      StoppedStays(q, c, n - 1);
    }
  }
}
