// The lowered code simulates the interpreter, construct by construct. Each lemma
// returns the witness: the world and registers reached, the value computed, and
// the number of machine steps.
module Simulation {
  import opened Numeric
  import opened Syntax
  import opened Ir
  import opened Names
  import opened Lowering
  import opened Machine
  import opened Growth
  import opened Relation
  import opened Restrict
  import opened Steps
  import opened SimBase
  import opened Entry
  import opened Capture
  import opened Flow
  import opened Variables
  import opened ForLoop
  import I = Interp

  // ----- expressions -----

  lemma {:induction false} SimExpr(k: Act, fuel: nat, cx: Cx, ls: LS, vs: Scope, w: World, rg: Regs, env: int,
                                   vars: map<nat, string>, e: Expr)
    returns (w2: World, rg2: Regs, m: MVal, n: nat)
    requires Ready(k, cx, ls, vs, w, rg, env, vars)
    requires Able(k, cx, vs, w, env, CapturedE(e), LowerExpr(cx, ls, vs, e).0)
    requires OkE(k.code.src.Keys, vs.Keys, cx.chk, e)
    ensures ExprSim(k, ls, LowerExpr(cx, ls, vs, e), I.Eval(k.code.prog(), fuel, w.st, env, cx.chk, e), fuel, w, rg,
                    w2, rg2, m, n)
    decreases fuel, e, 2
  {
    hide StepN, Step, Grows, Extends, Exec, FuncAt, LamAt;
    match e
    case EInt(_, _) => w2, rg2, m, n := SimLiteral(k, fuel, cx, ls, vs, w, rg, env, vars, e);
    case EBool(_) => w2, rg2, m, n := SimLiteral(k, fuel, cx, ls, vs, w, rg, env, vars, e);
    case EName(x) => w2, rg2, m, n := SimName(k, fuel, cx, ls, vs, w, rg, env, vars, x);
    case EOp(op, args, t) => w2, rg2, m, n := SimOp(k, fuel, cx, ls, vs, w, rg, env, vars, op, args, t);
    case ECast(_, _) => w2, rg2, m, n := SimCast(k, fuel, cx, ls, vs, w, rg, env, vars, e);
    case ECall(_, _, _) =>
      if Direct(vs, e) {
        w2, rg2, m, n := SimDirect(k, fuel, cx, ls, vs, w, rg, env, vars, e);
      } else {
        w2, rg2, m, n := SimIndirect(k, fuel, cx, ls, vs, w, rg, env, vars, e);
      }
    case EFunc(_, _, _) => w2, rg2, m, n := SimFunc(k, fuel, cx, ls, vs, w, rg, env, vars, e);
    case EPanic => w2, rg2, m, n := SimLiteral(k, fuel, cx, ls, vs, w, rg, env, vars, e);
  }

  lemma SimLiteral(k: Act, fuel: nat, cx: Cx, ls: LS, vs: Scope, w: World, rg: Regs, env: int,
                   vars: map<nat, string>, e: Expr)
    returns (w2: World, rg2: Regs, m: MVal, n: nat)
    requires Ready(k, cx, ls, vs, w, rg, env, vars) && Placed(k, LowerExpr(cx, ls, vs, e).0)
    requires (e.EInt? && e.ity.Holds(e.value)) || e.EBool? || e.EPanic?
    ensures ExprSim(k, ls, LowerExpr(cx, ls, vs, e), I.Eval(k.code.prog(), fuel, w.st, env, cx.chk, e), fuel, w, rg,
                    w2, rg2, m, n)
  {
    hide StepN, Step, LamAt, FuncAt, Live, ScopeRel, Inv, RegsKept, Moves, CodeIn, Linked;
    w2, rg2, m, n := w, rg, MUnit, 0;
    if e.EPanic? {
      FetchPlaced(k, ls, IPanic, rg, w.heap);
      n := 1;
      NoSteps(k.code.ir, At(k, ls.b, rg, w.heap));
      OneMore(k.code.ir, At(k, ls.b, rg, w.heap), 0, At(k, ls.b, rg, w.heap));
    } else {
      ReadyEnv(k, cx, ls, vs, w, rg, env, vars);
      NoSteps(k.code.ir, At(k, ls.b, rg, w.heap));
      KeptRefl(rg, ls.b.tc, ls.uq);
      MovesRefl(w, {}, -1);
      m := if e.EInt? then MInt(e.value) else MBool(e.b);
    }
  }

  lemma {:induction false} SimCast(k: Act, fuel: nat, cx: Cx, ls: LS, vs: Scope, w: World, rg: Regs, env: int,
                                   vars: map<nat, string>, e: Expr)
    returns (w2: World, rg2: Regs, m: MVal, n: nat)
    requires e.ECast?
    requires Ready(k, cx, ls, vs, w, rg, env, vars)
    requires Able(k, cx, vs, w, env, CapturedE(e), LowerExpr(cx, ls, vs, e).0)
    requires OkE(k.code.src.Keys, vs.Keys, cx.chk, e)
    ensures ExprSim(k, ls, LowerExpr(cx, ls, vs, e), I.Eval(k.code.prog(), fuel, w.st, env, cx.chk, e), fuel, w, rg,
                    w2, rg2, m, n)
    decreases fuel, e, 0
  {
    hide RegsKept, ScopeRel, Moves, Inv, Live, CodeIn, Linked, StepN, Step, Grows, Extends, FuncAt, LamAt;
    var e1, t := e.e, e.cty;
    var r1 := LowerExpr(cx, ls, vs, e1);
    ExprGrows(cx, ls, vs, e1);
    var i := ICast(r1.0.b.tc, r1.1, t);
    TmpPutGrows(r1.0, IntT(t), i);
    PlacedEarlier(k, r1.0, Put(Tmp(r1.0, IntT(t)).0, i));
    w2, rg2, m, n := SimExpr(k, fuel, cx, ls, vs, w, rg, env, vars, e1);
    var out := I.Eval(k.code.prog(), fuel, w.st, env, cx.chk, e1);
    if out.Ok? && out.v.VInt? {
      m := MInt(Wrap(out.v.n, t));
      WrapFits(out.v.n, t);
      rg2 := AppendTmp(k, ls, r1.0, IntT(t), i, w, rg, w2, rg2, n, m);
      n := n + 1;
    }
  }

  // A name is its local, or a load from its box.
  lemma SimName(k: Act, fuel: nat, cx: Cx, ls: LS, vs: Scope, w: World, rg: Regs, env: int, vars: map<nat, string>,
                x: string)
    returns (w2: World, rg2: Regs, m: MVal, n: nat)
    requires Ready(k, cx, ls, vs, w, rg, env, vars) && x in vs
    requires Placed(k, LowerName(ls, vs, x).0)
    ensures ExprSim(k, ls, LowerName(ls, vs, x), I.EvalName(k.code.prog(), w.st, env, x), fuel, w, rg, w2, rg2, m, n)
  {
    hide VRel, Emit, LowerExpr, OkE, CapturedE, CodeOk, StepN, Step, Grows, Extends, Exec, FuncAt, LamAt;
    w2, rg2, m, n := w, rg, MUnit, 0;
    MovesRefl(w, {}, -1);
    var c := I.Lookup(w.st.envs, env, x).value;
    assert NameAt(w, c, vs[x], vars, rg, ls.b.tc);
    if Boxed(vs[x]) {
      assert BoxRel(k.code, w, c);
      m := w.heap[w.boxes[c]].v;
      GrowsRefl(ls);
      ExecLoad(k, ls.b.tc, vs[x], HereFrame(k, ls.b, rg), w.heap, w.boxes[c]);
      NoSteps(k.code.ir, At(k, ls.b, rg, w.heap));
      rg2 := AppendTmp(k, ls, ls, Inner(vs[x].ty), ILoad(ls.b.tc, vs[x]), w, rg, w, rg, 0, m);
      n := 1;
    } else {
      assert LiveCell(k.code, w, c, vars[c], rg, ls.uq);
      m := rg.locals[vs[x].name];
      NoSteps(k.code.ir, At(k, ls.b, rg, w.heap));
    }
  }

  lemma ExecLoad(k: Act, dst: nat, ptr: IVal, fr: Frame, heap: seq<HObj>, a: nat)
    requires ValOf(fr.rg, ptr) == Some(MBox(a)) && a < |heap| && heap[a].HBox?
    ensures Exec(k.code.ir, ILoad(dst, ptr), fr, k.rest, heap) == Run(Next(fr, SetTemp(fr.rg, dst, heap[a].v)), k.rest, heap)
  {
  }

  // ----- operators -----

  predicate One(args: List<Expr>) { args.Cons? && args.tail.Nil? }

  predicate Two(args: List<Expr>) { args.Cons? && args.tail.Cons? && args.tail.tail.Nil? }

  lemma Arity(args: List<Expr>)
    ensures Length(args) == 1 ==> One(args)
    ensures Length(args) == 2 ==> Two(args)
  {
    if args.Cons? && args.tail.Cons? && args.tail.tail.Cons? {
      assert Length(args.tail) == 2 + Length(args.tail.tail.tail);
    }
  }

  lemma {:induction false} SimOp(k: Act, fuel: nat, cx: Cx, ls: LS, vs: Scope, w: World, rg: Regs, env: int,
                                 vars: map<nat, string>, op: Op, args: List<Expr>, t: IntTy)
    returns (w2: World, rg2: Regs, m: MVal, n: nat)
    requires Ready(k, cx, ls, vs, w, rg, env, vars)
    requires Able(k, cx, vs, w, env, CapturedEs(args), LowerOp(cx, ls, vs, op, args, t).0)
    requires OkShape(cx.chk, op, args) && OkEs(k.code.src.Keys, vs.Keys, cx.chk, args)
    ensures ExprSim(k, ls, LowerOp(cx, ls, vs, op, args, t),
                    I.EvalOp(k.code.prog(), fuel, w.st, env, cx.chk, op, args, t), fuel, w, rg, w2, rg2, m, n)
    decreases fuel, args, 3
  {
    hide StepN, Step, Grows, Extends, Exec, FuncAt, LamAt;
    Arity(args);
    if op.And? || op.Or? {
      w2, rg2, m, n := SimAndOr(k, fuel, cx, ls, vs, w, rg, env, vars, args, op.Or?);
    } else if op.Cmp? {
      w2, rg2, m, n := SimCmp(k, fuel, cx, ls, vs, w, rg, env, vars, op, args, t);
    } else if op.Not? {
      w2, rg2, m, n := SimNot(k, fuel, cx, ls, vs, w, rg, env, vars, op, args, t);
    } else if op.Bnot? || (op.b.Sub? && args.tail.Nil?) {
      w2, rg2, m, n := SimNeg(k, fuel, cx, ls, vs, w, rg, env, vars, op, args, t);
    } else {
      w2, rg2, m, n := SimArith(k, fuel, cx, ls, vs, w, rg, env, vars, op, args, t);
    }
  }

  // The single operand of a unary operator.
  lemma {:induction false} SimOperand(k: Act, fuel: nat, cx: Cx, ls: LS, vs: Scope, w: World, rg: Regs, env: int,
                                      vars: map<nat, string>, args: List<Expr>, ty: IRType, i: Instr)
    returns (w2: World, rg2: Regs, m: MVal, n: nat)
    requires args.Cons?
    requires Ready(k, cx, ls, vs, w, rg, env, vars)
    requires Able(k, cx, vs, w, env, CapturedEs(args), Put(Tmp(LowerExpr(cx, ls, vs, args.head).0, ty).0, i))
    requires OkEs(k.code.src.Keys, vs.Keys, cx.chk, args)
    ensures ExprSim(k, ls, LowerExpr(cx, ls, vs, args.head),
                    I.Eval(k.code.prog(), fuel, w.st, env, cx.chk, args.head), fuel, w, rg, w2, rg2, m, n)
    ensures Grows(ls, LowerExpr(cx, ls, vs, args.head).0)
    decreases fuel, args, 0
  {
    hide StepN, Step, Grows, Extends, Exec, FuncAt, LamAt, LowerExpr, LowerOp, OkE, CapturedE, I.Eval;
    var r1 := LowerExpr(cx, ls, vs, args.head);
    ExprGrows(cx, ls, vs, args.head);
    TmpPutGrows(r1.0, ty, i);
    PlacedEarlier(k, r1.0, Put(Tmp(r1.0, ty).0, i));
    w2, rg2, m, n := SimExpr(k, fuel, cx, ls, vs, w, rg, env, vars, args.head);
  }

  lemma {:induction false} SimNot(k: Act, fuel: nat, cx: Cx, ls: LS, vs: Scope, w: World, rg: Regs, env: int,
                                  vars: map<nat, string>, op: Op, args: List<Expr>, t: IntTy)
    returns (w2: World, rg2: Regs, m: MVal, n: nat)
    requires op.Not? && One(args)
    requires Ready(k, cx, ls, vs, w, rg, env, vars)
    requires Able(k, cx, vs, w, env, CapturedEs(args), LowerOp(cx, ls, vs, op, args, t).0)
    requires OkEs(k.code.src.Keys, vs.Keys, cx.chk, args)
    ensures ExprSim(k, ls, LowerOp(cx, ls, vs, op, args, t),
                    I.EvalOp(k.code.prog(), fuel, w.st, env, cx.chk, op, args, t), fuel, w, rg, w2, rg2, m, n)
    decreases fuel, args, 1
  {
    hide StepN, Step, Grows, Extends, Exec, FuncAt, LamAt, LowerOp, I.EvalOp, LowerExpr, OkE, CapturedE, I.Eval;
    EvalNot(k.code.prog(), fuel, w.st, env, cx.chk, op, args, t);
    LowerNot(cx, ls, vs, op, args, t);
    var r1 := LowerExpr(cx, ls, vs, args.head);
    var i := IUn(r1.0.b.tc, LNot, r1.1, t, false);
    w2, rg2, m, n := SimOperand(k, fuel, cx, ls, vs, w, rg, env, vars, args, BOOL, i);
    var out := I.Eval(k.code.prog(), fuel, w.st, env, cx.chk, args.head);
    if out.Ok? && out.v.VBool? {
      m := MBool(!out.v.b);
      ExecNot(k, r1.0.b.tc, r1.1, t, HereFrame(k, r1.0.b, rg2), w2.heap, out.v.b);
      rg2 := AppendTmp(k, ls, r1.0, BOOL, i, w, rg, w2, rg2, n, m);
      n := n + 1;
    }
  }

  lemma EvalNot(p: I.Program, fuel: nat, st: I.Store, env: int, chk: bool, op: Op, args: List<Expr>, t: IntTy)
    requires op.Not? && One(args)
    ensures args.Cons?
    ensures I.EvalOp(p, fuel, st, env, chk, op, args, t) ==
              match I.Eval(p, fuel, st, env, chk, args.head)
              case Ok(v, st1) => if v.VBool? then I.Ok(I.VBool(!v.b), st1) else I.Err(I.Mistyped)
              case r => r
  {
    AllOne(p, fuel, st, env, chk, args);
  }

  lemma AllOne(p: I.Program, fuel: nat, st: I.Store, env: int, chk: bool, args: List<Expr>)
    requires One(args)
    ensures I.EvalAll(p, fuel, st, env, chk, args) ==
              match I.Eval(p, fuel, st, env, chk, args.head)
              case Ok(v, st1) => I.Ok([v], st1)
              case Panic => I.Panic
              case Err(why) => I.Err(why)
              case NoFuel => I.NoFuel
  {
    assert forall v: I.Value :: [v] + [] == [v];
  }

  lemma LowerNot(cx: Cx, ls: LS, vs: Scope, op: Op, args: List<Expr>, t: IntTy)
    requires op.Not? && args.Cons?
    ensures var r1 := LowerExpr(cx, ls, vs, args.head);
            LowerOp(cx, ls, vs, op, args, t) == (Put(Tmp(r1.0, BOOL).0, IUn(r1.0.b.tc, LNot, r1.1, t, false)), Tmp(r1.0, BOOL).1)
  {
  }

  lemma ExecNot(k: Act, dst: nat, v: IVal, t: IntTy, fr: Frame, heap: seq<HObj>, x: bool)
    requires ValOf(fr.rg, v) == Some(MBool(x))
    ensures Exec(k.code.ir, IUn(dst, LNot, v, t, false), fr, k.rest, heap)
         == Run(Next(fr, SetTemp(fr.rg, dst, MBool(!x))), k.rest, heap)
  {
  }

  // bnot and unary minus.
  lemma {:induction false} SimNeg(k: Act, fuel: nat, cx: Cx, ls: LS, vs: Scope, w: World, rg: Regs, env: int,
                                  vars: map<nat, string>, op: Op, args: List<Expr>, t: IntTy)
    returns (w2: World, rg2: Regs, m: MVal, n: nat)
    requires !cx.chk && (op.Bnot? || op == Bin(Sub)) && One(args)
    requires Ready(k, cx, ls, vs, w, rg, env, vars)
    requires Able(k, cx, vs, w, env, CapturedEs(args), LowerOp(cx, ls, vs, op, args, t).0)
    requires OkEs(k.code.src.Keys, vs.Keys, cx.chk, args)
    ensures ExprSim(k, ls, LowerOp(cx, ls, vs, op, args, t),
                    I.EvalOp(k.code.prog(), fuel, w.st, env, cx.chk, op, args, t), fuel, w, rg, w2, rg2, m, n)
    decreases fuel, args, 1
  {
    hide Wrap, OkEs, CurTerminated, Placed, Inv, Live, ScopeRel, StepN, Step, Grows, Extends, Exec, FuncAt, LamAt,
         LowerOp, I.EvalOp, LowerExpr, OkE, CapturedE, I.Eval;
    EvalNeg(k.code.prog(), fuel, w.st, env, op, args, t);
    LowerNeg(cx, ls, vs, op, args, t);
    var r1 := LowerExpr(cx, ls, vs, args.head);
    var u := if op.Bnot? then BNot else Neg;
    var i := IUn(r1.0.b.tc, u, r1.1, t, false);
    w2, rg2, m, n := SimOperand(k, fuel, cx, ls, vs, w, rg, env, vars, args, IntT(t), i);
    var out := I.Eval(k.code.prog(), fuel, w.st, env, cx.chk, args.head);
    if out.Ok? && out.v.VInt? && out.v.ty == t {
      m := MInt(Wrap(if op.Bnot? then -out.v.n - 1 else -out.v.n, t));
      WrapFits(if op.Bnot? then -out.v.n - 1 else -out.v.n, t);
      ExecUn(k, u, r1.0.b.tc, r1.1, t, HereFrame(k, r1.0.b, rg2), w2.heap, out.v.n);
      rg2 := AppendTmp(k, ls, r1.0, IntT(t), i, w, rg, w2, rg2, n, m);
      n := n + 1;
    }
  }

  lemma EvalNeg(p: I.Program, fuel: nat, st: I.Store, env: int, op: Op, args: List<Expr>, t: IntTy)
    requires (op.Bnot? || op == Bin(Sub)) && One(args)
    ensures args.Cons? && args.tail.Nil?
    ensures I.EvalOp(p, fuel, st, env, false, op, args, t) ==
              match I.Eval(p, fuel, st, env, false, args.head)
              case Ok(v, st1) =>
                if v.VInt? && v.ty == t then I.Ok(I.VInt(Wrap(if op.Bnot? then -v.n - 1 else -v.n, t), t), st1) else I.Err(I.Mistyped)
              case r => r
  {
    EvalIntsOne(p, fuel, st, env, false, args, t);
  }

  lemma EvalIntsOne(p: I.Program, fuel: nat, st: I.Store, env: int, chk: bool, args: List<Expr>, t: IntTy)
    requires One(args)
    ensures args.Cons?
    ensures I.EvalInts(p, fuel, st, env, chk, args, t) ==
              match I.Eval(p, fuel, st, env, chk, args.head)
              case Ok(v, st1) => if v.VInt? && v.ty == t then I.Ok([v.n], st1) else I.Err(I.Mistyped)
              case Panic => I.Panic
              case Err(why) => I.Err(why)
              case NoFuel => I.NoFuel
  {
    assert forall n: int :: [n] + [] == [n];
  }

  lemma LowerNeg(cx: Cx, ls: LS, vs: Scope, op: Op, args: List<Expr>, t: IntTy)
    requires !cx.chk && (op.Bnot? || op == Bin(Sub)) && args.Cons? && args.tail.Nil?
    ensures var r1 := LowerExpr(cx, ls, vs, args.head);
            LowerOp(cx, ls, vs, op, args, t) ==
              (Put(Tmp(r1.0, IntT(t)).0, IUn(r1.0.b.tc, if op.Bnot? then BNot else Neg, r1.1, t, false)), Tmp(r1.0, IntT(t)).1)
  {
  }

  lemma ExecUn(k: Act, u: UnOp, dst: nat, v: IVal, t: IntTy, fr: Frame, heap: seq<HObj>, x: int)
    requires !u.LNot? && ValOf(fr.rg, v) == Some(MInt(x))
    ensures Exec(k.code.ir, IUn(dst, u, v, t, false), fr, k.rest, heap)
         == Run(Next(fr, SetTemp(fr.rg, dst, MInt(Wrap(if u.BNot? then -x - 1 else -x, t)))), k.rest, heap)
  {
  }

  // Two operands in sequence, both values at hand afterwards.
  ghost predicate PairSim(k: Act, ls: LS, a: IVal, r: (LS, IVal), out1: I.Out<I.Value>, out2: I.Out<I.Value>, fuel: nat,
                          w: World, rg: Regs, w2: World, rg2: Regs, m1: MVal, m2: MVal, n: nat)
  {
    var c := StepN(k.code.ir, At(k, ls.b, rg, w.heap), n);
    if out1.Ok? then
      match out2
      case Ok(v, st) =>
        && w2.st == st && ExprDone(k, ls, r, w, rg, w2, rg2, m2) && VRel(k.code, w2, v, m2)
        && ValOf(rg2, a) == Some(m1) && VRel(k.code, w2, out1.v, m1)
        && c == At(k, r.0.b, rg2, w2.heap)
      case Panic => c == Panicked
      case NoFuel => n >= fuel && c.Run?
      case Err(_) => true
    else if out1.Panic? then c == Panicked
    else if out1.NoFuel? then n >= fuel && c.Run?
    else true
  }

  lemma {:induction false} SimTwo(k: Act, fuel: nat, cx: Cx, ls: LS, vs: Scope, w: World, rg: Regs, env: int,
                                  vars: map<nat, string>, args: List<Expr>)
    returns (w2: World, rg2: Regs, m1: MVal, m2: MVal, n: nat)
    requires Two(args)
    requires Ready(k, cx, ls, vs, w, rg, env, vars)
    requires var r1 := LowerExpr(cx, ls, vs, args.head);
             Able(k, cx, vs, w, env, CapturedEs(args), LowerExpr(cx, r1.0, vs, args.tail.head).0)
    requires OkEs(k.code.src.Keys, vs.Keys, cx.chk, args)
    ensures var r1 := LowerExpr(cx, ls, vs, args.head);
            var r2 := LowerExpr(cx, r1.0, vs, args.tail.head);
            var out1 := I.Eval(k.code.prog(), fuel, w.st, env, cx.chk, args.head);
            var out2 := if out1.Ok? then I.Eval(k.code.prog(), fuel, out1.st, env, cx.chk, args.tail.head) else I.Err(I.Mistyped);
            PairSim(k, ls, r1.1, r2, out1, out2, fuel, w, rg, w2, rg2, m1, m2, n)
    ensures var r1 := LowerExpr(cx, ls, vs, args.head);
            Grows(ls, r1.0) && Grows(ls, LowerExpr(cx, r1.0, vs, args.tail.head).0)
    decreases fuel, args, 0
  {
    hide StepN, Step, Grows, Extends, Exec, FuncAt, LamAt, CodeIn, Linked, LowerExpr, LowerOp, OkE, CapturedE, I.Eval;
    var r1 := LowerExpr(cx, ls, vs, args.head);
    var r2 := LowerExpr(cx, r1.0, vs, args.tail.head);
    ExprGrows(cx, ls, vs, args.head);
    ExprGrows(cx, r1.0, vs, args.tail.head);
    Trans(ls, r1.0, r2.0);
    PlacedEarlier(k, r1.0, r2.0);
    m2 := MUnit;
    w2, rg2, m1, n := SimExpr(k, fuel, cx, ls, vs, w, rg, env, vars, args.head);
    var out1 := I.Eval(k.code.prog(), fuel, w.st, env, cx.chk, args.head);
    if out1.Ok? {
      ReadyAfter(k, cx, ls, r1, vs, w, rg, env, vars, w2, rg2, m1);
      SettledAllKept(w, w2, env, CapturedE(args.tail.head), vs);
      var w1, rg1, n1 := w2, rg2, n;
      w2, rg2, m2, n := SimExpr(k, fuel, cx, r1.0, vs, w1, rg1, env, vars, args.tail.head);
      var out2 := I.Eval(k.code.prog(), fuel, out1.st, env, cx.chk, args.tail.head);
      Chain(k.code.ir, At(k, ls.b, rg, w.heap), n1, At(k, r1.0.b, rg1, w1.heap), n);
      n := n1 + n;
      if out2.Ok? {
        ExprThen(k, ls, r1, r2, w, rg, w1, rg1, m1, w2, rg2, m2, out1.v);
      }
    }
  }

  lemma {:induction false} SimCmp(k: Act, fuel: nat, cx: Cx, ls: LS, vs: Scope, w: World, rg: Regs, env: int,
                                  vars: map<nat, string>, op: Op, args: List<Expr>, t: IntTy)
    returns (w2: World, rg2: Regs, m: MVal, n: nat)
    requires op.Cmp? && Two(args)
    requires Ready(k, cx, ls, vs, w, rg, env, vars)
    requires Able(k, cx, vs, w, env, CapturedEs(args), LowerOp(cx, ls, vs, op, args, t).0)
    requires OkEs(k.code.src.Keys, vs.Keys, cx.chk, args)
    ensures ExprSim(k, ls, LowerOp(cx, ls, vs, op, args, t),
                    I.EvalOp(k.code.prog(), fuel, w.st, env, cx.chk, op, args, t), fuel, w, rg, w2, rg2, m, n)
    decreases fuel, args, 1
  {
    hide StepN, Step, Grows, Extends, Exec, FuncAt, LamAt, LowerOp, I.EvalOp, LowerExpr, OkE, CapturedE, I.Eval;
    EvalCmp(k.code.prog(), fuel, w.st, env, cx.chk, op, args, t);
    LowerPair(cx, ls, vs, op, args, t);
    var r1 := LowerExpr(cx, ls, vs, args.head);
    var r2 := LowerExpr(cx, r1.0, vs, args.tail.head);
    var i := IBin(r2.0.b.tc, op, r1.1, r2.1, t, false);
    TmpPutGrows(r2.0, BOOL, i);
    PlacedEarlier(k, r2.0, Put(Tmp(r2.0, BOOL).0, i));
    var m1;
    w2, rg2, m1, m, n := SimTwo(k, fuel, cx, ls, vs, w, rg, env, vars, args);
    var out1 := I.Eval(k.code.prog(), fuel, w.st, env, cx.chk, args.head);
    if out1.Ok? {
      var out2 := I.Eval(k.code.prog(), fuel, out1.st, env, cx.chk, args.tail.head);
      if out2.Ok? {
        var res := I.CompareValues(op.c, out1.v, out2.v, out2.st);
        if res.Ok? {
          ExecCmp(k, op, r2.0.b.tc, r1.1, r2.1, t, HereFrame(k, r2.0.b, rg2), w2.heap, out1.v, out2.v, m1, m, w2,
                  out2.st);
          m := MBool(res.v.b);
          rg2 := AppendTmp(k, ls, r2.0, BOOL, i, w, rg, w2, rg2, n, m);
          n := n + 1;
        }
      }
    }
  }

  lemma ExecCmp(k: Act, op: Op, dst: nat, l: IVal, r: IVal, t: IntTy, fr: Frame, heap: seq<HObj>,
                a: I.Value, b: I.Value, ma: MVal, mb: MVal, w: World, st: I.Store)
    requires op.Cmp? && ValOf(fr.rg, l) == Some(ma) && ValOf(fr.rg, r) == Some(mb)
    requires VRel(k.code, w, a, ma) && VRel(k.code, w, b, mb)
    requires I.CompareValues(op.c, a, b, st).Ok?
    ensures I.CompareValues(op.c, a, b, st).v.VBool? && I.CompareValues(op.c, a, b, st).st == st
    ensures Exec(k.code.ir, IBin(dst, op, l, r, t, false), fr, k.rest, heap)
         == Run(Next(fr, SetTemp(fr.rg, dst, MBool(I.CompareValues(op.c, a, b, st).v.b))), k.rest, heap)
  {
  }

  lemma EvalCmp(p: I.Program, fuel: nat, st: I.Store, env: int, chk: bool, op: Op, args: List<Expr>, t: IntTy)
    requires op.Cmp? && Two(args)
    ensures I.EvalOp(p, fuel, st, env, chk, op, args, t) ==
              match I.Eval(p, fuel, st, env, chk, args.head)
              case Ok(a, st1) =>
                (match I.Eval(p, fuel, st1, env, chk, args.tail.head)
                 case Ok(b, st2) => I.CompareValues(op.c, a, b, st2)
                 case r => r)
              case r => r
  {
    var out := I.Eval(p, fuel, st, env, chk, args.head);
    if out.Ok? { AllOne(p, fuel, out.st, env, chk, args.tail); }
  }

  lemma LowerPair(cx: Cx, ls: LS, vs: Scope, op: Op, args: List<Expr>, t: IntTy)
    requires (op.Cmp? || op.Bin?) && Two(args)
    ensures var r1 := LowerExpr(cx, ls, vs, args.head);
            var r2 := LowerExpr(cx, r1.0, vs, args.tail.head);
            var ty := if op.Cmp? then BOOL else IntT(t);
            LowerOp(cx, ls, vs, op, args, t) ==
              (Put(Tmp(r2.0, ty).0, IBin(r2.0.b.tc, op, r1.1, r2.1, t, op.Bin? && cx.chk)), Tmp(r2.0, ty).1)
  {
    if op.Bin? {
      var r1 := LowerExpr(cx, ls, vs, args.head);
      LowerRing(cx, ls, vs, op, args, t);
      var r2 := LowerExpr(cx, r1.0, vs, args.tail.head);
      var (ls3, dst) := Tmp(r2.0, IntT(t));
      var ls4 := Put(ls3, IBin(dst.id, op, r1.1, r2.1, t, cx.chk));
      assert LowerFold(cx, ls4, vs, op, args.tail.tail, t, dst) == (ls4, dst);
    }
  }

  lemma {:induction false} SimArith(k: Act, fuel: nat, cx: Cx, ls: LS, vs: Scope, w: World, rg: Regs, env: int,
                                    vars: map<nat, string>, op: Op, args: List<Expr>, t: IntTy)
    returns (w2: World, rg2: Regs, m: MVal, n: nat)
    requires op.Bin? && args.Cons? && !(op.b.Sub? && args.tail.Nil?) && OkShape(cx.chk, op, args)
    requires Ready(k, cx, ls, vs, w, rg, env, vars)
    requires Able(k, cx, vs, w, env, CapturedEs(args), LowerOp(cx, ls, vs, op, args, t).0)
    requires OkEs(k.code.src.Keys, vs.Keys, cx.chk, args)
    ensures ExprSim(k, ls, LowerOp(cx, ls, vs, op, args, t),
                    I.EvalOp(k.code.prog(), fuel, w.st, env, cx.chk, op, args, t), fuel, w, rg, w2, rg2, m, n)
    decreases fuel, args, 2
  {
    hide StepN, Step, Grows, Extends, Exec, FuncAt, LamAt;
    Arity(args);
    if cx.chk || !op.b.Ring() {
      w2, rg2, m, n := SimBin2(k, fuel, cx, ls, vs, w, rg, env, vars, op, args, t);
    } else {
      w2, rg2, m, n := SimRing(k, fuel, cx, ls, vs, w, rg, env, vars, op, args, t);
    }
  }

  // Exactly two integer operands; + - * may be checked.
  lemma {:induction false} SimBin2(k: Act, fuel: nat, cx: Cx, ls: LS, vs: Scope, w: World, rg: Regs, env: int,
                                   vars: map<nat, string>, op: Op, args: List<Expr>, t: IntTy)
    returns (w2: World, rg2: Regs, m: MVal, n: nat)
    requires op.Bin? && Two(args) && (cx.chk ==> op.b.Ring())
    requires Ready(k, cx, ls, vs, w, rg, env, vars)
    requires Able(k, cx, vs, w, env, CapturedEs(args), LowerOp(cx, ls, vs, op, args, t).0)
    requires OkEs(k.code.src.Keys, vs.Keys, cx.chk, args)
    ensures ExprSim(k, ls, LowerOp(cx, ls, vs, op, args, t),
                    I.EvalOp(k.code.prog(), fuel, w.st, env, cx.chk, op, args, t), fuel, w, rg, w2, rg2, m, n)
    decreases fuel, args, 1
  {
    hide StepN, Step, Grows, Extends, Exec, FuncAt, LamAt, LowerOp, I.EvalOp, I.Arith, Wrap, BinMath, LowerExpr, OkE,
         CapturedE, I.Eval;
    EvalBin2(k.code.prog(), fuel, w.st, env, cx.chk, op, args, t);
    LowerPair(cx, ls, vs, op, args, t);
    var r1 := LowerExpr(cx, ls, vs, args.head);
    var r2 := LowerExpr(cx, r1.0, vs, args.tail.head);
    var i := IBin(r2.0.b.tc, op, r1.1, r2.1, t, cx.chk);
    TmpPutGrows(r2.0, IntT(t), i);
    PlacedEarlier(k, r2.0, Put(Tmp(r2.0, IntT(t)).0, i));
    var m1;
    w2, rg2, m1, m, n := SimTwo(k, fuel, cx, ls, vs, w, rg, env, vars, args);
    var out1 := I.Eval(k.code.prog(), fuel, w.st, env, cx.chk, args.head);
    if out1.Ok? && I.HasTy(out1.v, TInt(t)) {
      var out2 := I.Eval(k.code.prog(), fuel, out1.st, env, cx.chk, args.tail.head);
      if out2.Ok? && I.HasTy(out2.v, TInt(t)) {
        var fr := HereFrame(k, r2.0.b, rg2);
        ExecBin(k, op.b, r2.0.b.tc, r1.1, r2.1, t, cx.chk, fr, w2.heap, out1.v.n, out2.v.n, out2.st);
        var res := I.Arith(op.b, [out1.v.n, out2.v.n], t, cx.chk, out2.st);
        if res.Ok? {
          m := MInt(res.v.n);
          rg2 := AppendTmp(k, ls, r2.0, IntT(t), i, w, rg, w2, rg2, n, m);
          n := n + 1;
        } else if res.Panic? {
          RunTrap(k, r2.0, IntT(t), i, rg2, w2.heap);
          OneMore(k.code.ir, At(k, ls.b, rg, w.heap), n, At(k, r2.0.b, rg2, w2.heap));
          n := n + 1;
        }
      }
    }
  }

  lemma EvalBin2(p: I.Program, fuel: nat, st: I.Store, env: int, chk: bool, op: Op, args: List<Expr>, t: IntTy)
    requires op.Bin? && Two(args)
    ensures I.EvalOp(p, fuel, st, env, chk, op, args, t) ==
              match I.Eval(p, fuel, st, env, chk, args.head)
              case Ok(a, st1) =>
                if !I.HasTy(a, TInt(t)) then I.Err(I.Mistyped)
                else
                  (match I.Eval(p, fuel, st1, env, chk, args.tail.head)
                   case Ok(b, st2) => if I.HasTy(b, TInt(t)) then I.Arith(op.b, [a.n, b.n], t, chk, st2) else I.Err(I.Mistyped)
                   case r => r)
              case r => r
  {
    hide I.Arith;
    var out := I.Eval(p, fuel, st, env, chk, args.head);
    if out.Ok? {
      EvalIntsOne(p, fuel, out.st, env, chk, args.tail, t);
      var out2 := I.Eval(p, fuel, out.st, env, chk, args.tail.head);
      if I.HasTy(out.v, TInt(t)) && out2.Ok? && I.HasTy(out2.v, TInt(t)) {
        assert [out.v.n] + [out2.v.n] == [out.v.n, out2.v.n];
      }
    }
  }

  // One IBin against the interpreter's arithmetic on two operands.
  lemma ExecBin(k: Act, b: BinOp, dst: nat, l: IVal, r: IVal, t: IntTy, chk: bool, fr: Frame, heap: seq<HObj>,
                x: int, y: int, st: I.Store)
    requires ValOf(fr.rg, l) == Some(MInt(x)) && ValOf(fr.rg, r) == Some(MInt(y))
    requires chk ==> b.Ring()
    ensures var res := I.Arith(b, [x, y], t, chk, st);
            var c := Exec(k.code.ir, IBin(dst, Bin(b), l, r, t, chk), fr, k.rest, heap);
            match res
            case Ok(v, st2) => st2 == st && v.VInt? && v.ty == t && t.Holds(v.n)
                               && c == Run(Next(fr, SetTemp(fr.rg, dst, MInt(v.n))), k.rest, heap)
            case Panic => c == Panicked
            case Err(_) => true
            case NoFuel => false
  {
    var mth := BinMath(b, x, y);
    ArithTwo(b, x, y, t, chk, st);
    if mth.Num? { WrapFits(mth.n, t); }
  }

  lemma ArithTwo(b: BinOp, x: int, y: int, t: IntTy, chk: bool, st: I.Store)
    ensures I.Arith(b, [x, y], t, chk, st) ==
              match BinMath(b, x, y)
              case Num(n) => I.WrapInt(n, t, chk, st)
              case DivZero => I.Panic
              case Undefined => I.Err(I.NegativeShift)
  {
    if b.Ring() {
      assert [x, y][1..] == [y];
      assert FoldMath(b, x, [y]) == FoldMath(b, RingMath(b, x, y), [y][1..]);
    }
  }

  // Unchecked n-ary + - *.
  lemma {:induction false} SimRing(k: Act, fuel: nat, cx: Cx, ls: LS, vs: Scope, w: World, rg: Regs, env: int,
                                   vars: map<nat, string>, op: Op, args: List<Expr>, t: IntTy)
    returns (w2: World, rg2: Regs, m: MVal, n: nat)
    requires op.Bin? && op.b.Ring() && !cx.chk && args.Cons? && !(op.b.Sub? && args.tail.Nil?)
    requires Ready(k, cx, ls, vs, w, rg, env, vars)
    requires Able(k, cx, vs, w, env, CapturedEs(args), LowerOp(cx, ls, vs, op, args, t).0)
    requires OkEs(k.code.src.Keys, vs.Keys, cx.chk, args)
    ensures ExprSim(k, ls, LowerOp(cx, ls, vs, op, args, t),
                    I.EvalOp(k.code.prog(), fuel, w.st, env, cx.chk, op, args, t), fuel, w, rg, w2, rg2, m, n)
    decreases fuel, args, 1
  {
    hide LowerFold, IsTerminator, CurTerminated, Live, ScopeRel, StepN, Step, Grows, Extends, Exec, FuncAt, LamAt,
         I.EvalOp, LowerOp, Wrap, I.Arith, CodeIn, Linked, LowerExpr, OkE, CapturedE, I.Eval;
    var r1 := LowerExpr(cx, ls, vs, args.head);
    var r2 := LowerFold(cx, r1.0, vs, op, args.tail, t, r1.1);
    LowerRing(cx, ls, vs, op, args, t);
    EvalRing(k.code.prog(), fuel, w.st, env, op, args, t);
    ExprGrows(cx, ls, vs, args.head);
    FoldGrows(cx, r1.0, vs, op, args.tail, t, r1.1);
    PlacedEarlier(k, r1.0, r2.0);
    w2, rg2, m, n := SimExpr(k, fuel, cx, ls, vs, w, rg, env, vars, args.head);
    var out1 := I.Eval(k.code.prog(), fuel, w.st, env, cx.chk, args.head);
    if out1.Ok? && I.HasTy(out1.v, TInt(t)) {
      ReadyAfter(k, cx, ls, r1, vs, w, rg, env, vars, w2, rg2, m);
      SettledAllKept(w, w2, env, CapturedEs(args.tail), vs);
      WrapFits(out1.v.n, t);
      var w1, rg1, m1, n1 := w2, rg2, m, n;
      w2, rg2, m, n := SimFold(k, fuel, cx, r1.0, vs, w1, rg1, env, vars, op, args.tail, t, r1.1, out1.v.n);
      var out2 := I.EvalInts(k.code.prog(), fuel, w1.st, env, false, args.tail, t);
      Chain(k.code.ir, At(k, ls.b, rg, w.heap), n1, At(k, r1.0.b, rg1, w1.heap), n);
      n := n1 + n;
      if out2.Ok? {
        WrapFits(FoldMath(op.b, out1.v.n, out2.v), t);
        MovesTrans(w, w1, w2, {}, -1, {});
        KeptGrows(ls, r1.0, rg, rg1, rg2);
      }
    }
  }

  lemma LowerRing(cx: Cx, ls: LS, vs: Scope, op: Op, args: List<Expr>, t: IntTy)
    requires op.Bin? && args.Cons? && !(op.b.Sub? && args.tail.Nil?)
    ensures var r1 := LowerExpr(cx, ls, vs, args.head);
            LowerOp(cx, ls, vs, op, args, t) == LowerFold(cx, r1.0, vs, op, args.tail, t, r1.1)
  {
  }

  lemma EvalRing(p: I.Program, fuel: nat, st: I.Store, env: int, op: Op, args: List<Expr>, t: IntTy)
    requires op.Bin? && op.b.Ring() && args.Cons? && !(op.b.Sub? && args.tail.Nil?)
    ensures I.EvalOp(p, fuel, st, env, false, op, args, t) ==
              match I.Eval(p, fuel, st, env, false, args.head)
              case Ok(a, st1) =>
                if !I.HasTy(a, TInt(t)) then I.Err(I.Mistyped)
                else
                  (match I.EvalInts(p, fuel, st1, env, false, args.tail, t)
                   case Ok(ns, st2) => I.Ok(I.VInt(Wrap(FoldMath(op.b, a.n, ns), t), t), st2)
                   case Panic => I.Panic
                   case Err(why) => I.Err(why)
                   case NoFuel => I.NoFuel)
              case r => r
  {
    hide Wrap, FoldMath;
    var out1 := I.Eval(p, fuel, st, env, false, args.head);
    if out1.Ok? && I.HasTy(out1.v, TInt(t)) {
      var out2 := I.EvalInts(p, fuel, out1.st, env, false, args.tail, t);
      if out2.Ok? {
        IntsCount(p, fuel, out1.st, env, false, args.tail, t);
        assert ([out1.v.n] + out2.v)[1..] == out2.v;
      }
    }
  }

  lemma {:induction false} IntsCount(p: I.Program, fuel: nat, st: I.Store, env: int, chk: bool, args: List<Expr>,
                                     t: IntTy)
    ensures I.EvalInts(p, fuel, st, env, chk, args, t).Ok? ==>
              |I.EvalInts(p, fuel, st, env, chk, args, t).v| == Length(args)
    decreases args
  {
    match args
    case Nil =>
    case Cons(e, rest) =>
      var out := I.Eval(p, fuel, st, env, chk, e);
      if out.Ok? { IntsCount(p, fuel, out.st, env, chk, rest, t); }
  }

  // From an accumulator holding the wrapped value of A.
  lemma {:induction false} SimFold(k: Act, fuel: nat, cx: Cx, ls: LS, vs: Scope, w: World, rg: Regs, env: int,
                                   vars: map<nat, string>, op: Op, args: List<Expr>, t: IntTy, acc: IVal, A: int)
    returns (w2: World, rg2: Regs, m: MVal, n: nat)
    requires op.Bin? && op.b.Ring() && !cx.chk
    requires Ready(k, cx, ls, vs, w, rg, env, vars)
    requires Able(k, cx, vs, w, env, CapturedEs(args), LowerFold(cx, ls, vs, op, args, t, acc).0)
    requires OkEs(k.code.src.Keys, vs.Keys, cx.chk, args)
    requires ValOf(rg, acc) == Some(MInt(Wrap(A, t))) && Steady(acc, ls.b.tc, ls.uq)
    ensures FoldSim(k, ls, LowerFold(cx, ls, vs, op, args, t, acc), I.EvalInts(k.code.prog(), fuel, w.st, env, false, args, t),
                    fuel, op.b, A, t, w, rg, w2, rg2, m, n)
    decreases fuel, args, 1
  {
    hide IsTerminator, CurTerminated, Live, ScopeRel, StepN, Step, Grows, Extends, Exec, FuncAt, LamAt, Wrap, CodeIn,
         Linked, FoldMath, Evolves, RegsKept, LowerExpr, LowerOp, OkE, CapturedE, I.Eval;
    w2, rg2, m, n := w, rg, MInt(Wrap(A, t)), 0;
    match args
    case Nil =>
      MovesRefl(w, {}, -1);
      KeptRefl(rg, ls.b.tc, ls.uq);
      NoSteps(k.code.ir, At(k, ls.b, rg, w.heap));
      FoldNone(op.b, A);
    case Cons(e, rest) =>
      var (ls2, dst) := FoldOne(cx, ls, vs, op, e, t, acc);
      FoldGrows(cx, ls2, vs, op, rest, t, dst);
      PlacedEarlier(k, ls2, LowerFold(cx, ls, vs, op, args, t, acc).0);
      w2, rg2, n := SimFoldStep(k, fuel, cx, ls, vs, w, rg, env, vars, op, e, t, acc, A);
      var out1 := I.Eval(k.code.prog(), fuel, w.st, env, false, e);
      if out1.Ok? && I.HasTy(out1.v, TInt(t)) {
        var A1 := RingMath(op.b, A, out1.v.n);
        SettledAllKept(w, w2, env, CapturedEs(rest), vs);
        var w1, rg1, n1 := w2, rg2, n;
        w2, rg2, m, n := SimFold(k, fuel, cx, ls2, vs, w1, rg1, env, vars, op, rest, t, dst, A1);
        FoldJoin(k, ls, ls2, LowerFold(cx, ls, vs, op, args, t, acc), fuel, op.b, A, out1.v.n, t,
                 I.EvalInts(k.code.prog(), fuel, w1.st, env, false, rest, t), w, rg, w1, rg1, n1, w2, rg2, m, n);
        n := n1 + n;
      }
  }

  function FoldOne(cx: Cx, ls: LS, vs: Scope, op: Op, e: Expr, t: IntTy, acc: IVal): (LS, IVal) {
    var r1 := LowerExpr(cx, ls, vs, e);
    var (ls2, dst) := Tmp(r1.0, IntT(t));
    (Put(ls2, IBin(dst.id, op, acc, r1.1, t, cx.chk)), dst)
  }

  // One argument and its IBin.
  lemma {:induction false} SimFoldStep(k: Act, fuel: nat, cx: Cx, ls: LS, vs: Scope, w: World, rg: Regs, env: int,
                                       vars: map<nat, string>, op: Op, e: Expr, t: IntTy, acc: IVal, A: int)
    returns (w2: World, rg2: Regs, n: nat)
    requires op.Bin? && op.b.Ring() && !cx.chk
    requires Ready(k, cx, ls, vs, w, rg, env, vars)
    requires Able(k, cx, vs, w, env, CapturedE(e), FoldOne(cx, ls, vs, op, e, t, acc).0)
    requires OkE(k.code.src.Keys, vs.Keys, cx.chk, e)
    requires ValOf(rg, acc) == Some(MInt(Wrap(A, t))) && Steady(acc, ls.b.tc, ls.uq)
    ensures Grows(ls, FoldOne(cx, ls, vs, op, e, t, acc).0)
    ensures var r := FoldOne(cx, ls, vs, op, e, t, acc);
            var c := StepN(k.code.ir, At(k, ls.b, rg, w.heap), n);
            match I.Eval(k.code.prog(), fuel, w.st, env, false, e)
            case Ok(v, st) => v.VInt? && v.ty == t ==>
              && w2.st == st && ExprDone(k, ls, r, w, rg, w2, rg2, MInt(Wrap(RingMath(op.b, A, v.n), t)))
              && Ready(k, cx, r.0, vs, w2, rg2, env, vars) && c == At(k, r.0.b, rg2, w2.heap)
            case Panic => c == Panicked
            case NoFuel => n >= fuel && c.Run?
            case Err(_) => true
    decreases fuel, e, 3
  {
    hide StepN, Step, Grows, Extends, Exec, FuncAt, LamAt, Wrap, CodeIn, Linked, LowerExpr, LowerOp, OkE, CapturedE,
         I.Eval;
    var r1 := LowerExpr(cx, ls, vs, e);
    var i := IBin(r1.0.b.tc, op, acc, r1.1, t, false);
    var ls2 := Put(Tmp(r1.0, IntT(t)).0, i);
    ExprGrows(cx, ls, vs, e);
    TmpPutGrows(r1.0, IntT(t), i);
    Trans(ls, r1.0, ls2);
    PlacedEarlier(k, r1.0, ls2);
    var m;
    w2, rg2, m, n := SimExpr(k, fuel, cx, ls, vs, w, rg, env, vars, e);
    var out1 := I.Eval(k.code.prog(), fuel, w.st, env, false, e);
    if out1.Ok? && I.HasTy(out1.v, TInt(t)) {
      SteadyKept(acc, rg, rg2, ls.b.tc, ls.uq);
      ExecRing(k, op, r1.0.b.tc, acc, r1.1, t, HereFrame(k, r1.0.b, rg2), w2.heap, A, out1.v.n);
      var m1 := MInt(Wrap(RingMath(op.b, A, out1.v.n), t));
      rg2 := AppendTmp(k, ls, r1.0, IntT(t), i, w, rg, w2, rg2, n, m1);
      ReadyAfter(k, cx, ls, FoldOne(cx, ls, vs, op, e, t, acc), vs, w, rg, env, vars, w2, rg2, m1);
      n := n + 1;
    }
  }

  lemma FoldJoin(k: Act, ls: LS, ls2: LS, r: (LS, IVal), fuel: nat, b: BinOp, A: int, x: int, t: IntTy,
                 out: I.Out<seq<int>>,
                 w: World, rg: Regs, w1: World, rg1: Regs, n1: nat, w2: World, rg2: Regs, m: MVal, n: nat)
    requires b.Ring() && Grows(ls, ls2)
    requires Moves(w, w1, {}, -1) && RegsKept(rg, rg1, ls.b.tc, ls.uq, {})
    requires StepN(k.code.ir, At(k, ls.b, rg, w.heap), n1) == At(k, ls2.b, rg1, w1.heap)
    requires FoldSim(k, ls2, r, out, fuel, b, RingMath(b, A, x), t, w1, rg1, w2, rg2, m, n)
    ensures FoldSim(k, ls, r, (match out case Ok(ns, st) => I.Ok([x] + ns, st) case o => o),
                    fuel, b, A, t, w, rg, w2, rg2, m, n1 + n)
  {
    hide StepN, Step, Grows, Extends, FuncAt, LamAt, Wrap, FoldMath;
    Chain(k.code.ir, At(k, ls.b, rg, w.heap), n1, At(k, ls2.b, rg1, w1.heap), n);
    if out.Ok? {
      MovesTrans(w, w1, w2, {}, -1, {});
      KeptGrows(ls, ls2, rg, rg1, rg2);
      FoldSome(b, A, x, out.v);
    }
  }

  ghost predicate FoldSim(k: Act, ls: LS, r: (LS, IVal), out: I.Out<seq<int>>, fuel: nat, b: BinOp, A: int, t: IntTy,
                          w: World, rg: Regs, w2: World, rg2: Regs, m: MVal, n: nat)
    requires b.Ring()
  {
    var c := StepN(k.code.ir, At(k, ls.b, rg, w.heap), n);
    match out
    case Ok(ns, st) =>
      w2.st == st && ExprDone(k, ls, r, w, rg, w2, rg2, m) && m == MInt(Wrap(FoldMath(b, A, ns), t))
      && c == At(k, r.0.b, rg2, w2.heap)
    case Panic => c == Panicked
    case NoFuel => n >= fuel && c.Run?
    case Err(_) => true
  }

  lemma FoldNone(b: BinOp, a: int)
    requires b.Ring()
    ensures FoldMath(b, a, []) == a
  {
  }

  lemma FoldSome(b: BinOp, a: int, x: int, xs: seq<int>)
    requires b.Ring()
    ensures FoldMath(b, a, [x] + xs) == FoldMath(b, RingMath(b, a, x), xs)
  {
    assert ([x] + xs)[1..] == xs;
  }

  lemma ExecRing(k: Act, op: Op, dst: nat, l: IVal, r: IVal, t: IntTy, fr: Frame, heap: seq<HObj>, A: int, x: int)
    requires op.Bin? && op.b.Ring() && ValOf(fr.rg, l) == Some(MInt(Wrap(A, t))) && ValOf(fr.rg, r) == Some(MInt(x))
    ensures Exec(k.code.ir, IBin(dst, op, l, r, t, false), fr, k.rest, heap)
         == Run(Next(fr, SetTemp(fr.rg, dst, MInt(Wrap(RingMath(op.b, A, x), t)))), k.rest, heap)
  {
    WrapStep(op.b, A, x, t);
  }

  // ----- short circuit -----

  // The state a jump to endl leaves, with the outcome in the local un.
  ghost predicate TestSim(k: Act, ls: LS, un: string, endl: string, out: I.Out<I.Value>, fuel: nat,
                          w: World, rg: Regs, w2: World, rg2: Regs, n: nat)
  {
    var c := StepN(k.code.ir, At(k, ls.b, rg, w.heap), n);
    match out
    case Ok(v, st) =>
      && w2.st == st && Inv(k.code, w2) && Moves(w, w2, {}, -1) && RegsKept(rg, rg2, ls.b.tc, ls.uq, {un})
      && v.VBool? && un in rg2.locals && rg2.locals[un] == MBool(v.b)
      && c == AtLabel(k, endl, rg2, w2.heap)
    case Panic => c == Panicked
    case NoFuel => n >= fuel && c.Run?
    case Err(_) => true
  }

  // One argument of and/or: evaluate, record, branch to the next test or the end.
  function TestOne(cx: Cx, ls: LS, vs: Scope, e: Expr, short: bool, un: string, endl: string): LS {
    var (ls1, v) := LowerExpr(cx, ls, vs, e);
    var (ls3, nxt) := Lbl(Put(ls1, IAssign(PLocal(un), v)), "sc_nx");
    Block0(Put(ls3, if short then ICondBr(v, endl, nxt) else ICondBr(v, nxt, endl)), nxt)
  }

  // Appending the recording and the branch to a simulation of the argument.
  lemma TestTail(k: Act, cx: Cx, ls: LS, r1: (LS, IVal), vs: Scope, env: int, vars: map<nat, string>, short: bool,
                 un: string, endl: string,
                 w: World, rg: Regs, w1: World, rg1: Regs, m: MVal, n: nat, b: bool)
    returns (rg2: Regs)
    requires Ready(k, cx, ls, vs, w, rg, env, vars) && Grows(ls, r1.0)
    requires ExprDone(k, ls, r1, w, rg, w1, rg1, m) && m == MBool(b)
    requires StepN(k.code.ir, At(k, ls.b, rg, w.heap), n) == At(k, r1.0.b, rg1, w1.heap)
    requires var (ls3, nxt) := Lbl(Put(r1.0, IAssign(PLocal(un), r1.1)), "sc_nx");
             Placed(k, Block0(Put(ls3, if short then ICondBr(r1.1, endl, nxt) else ICondBr(r1.1, nxt, endl)), nxt))
    requires forall c :: c in vars ==> vars[c] != un
    ensures RegsKept(rg, rg2, ls.b.tc, ls.uq, {un}) && un in rg2.locals && rg2.locals[un] == m
    ensures var (ls3, nxt) := Lbl(Put(r1.0, IAssign(PLocal(un), r1.1)), "sc_nx");
            var ls4 := Block0(Put(ls3, if short then ICondBr(r1.1, endl, nxt) else ICondBr(r1.1, nxt, endl)), nxt);
            && (b == short ==> StepN(k.code.ir, At(k, ls.b, rg, w.heap), n + 2) == AtLabel(k, endl, rg2, w1.heap))
            && (b != short ==>
                  && StepN(k.code.ir, At(k, ls.b, rg, w.heap), n + 2) == At(k, ls4.b, rg2, w1.heap)
                  && Ready(k, cx, ls4, vs, w1, rg2, env, vars))
  {
    hide FindLabel, Jump, CodeOk, RegsKept, ScopeRel, Inv, Moves, VRel, Live, CodeIn, StepN, Step, FuncAt, LamAt,
         Linked, Extends;
    var i := IAssign(PLocal(un), r1.1);
    var ls2 := Put(r1.0, i);
    var (ls3, nxt) := Lbl(ls2, "sc_nx");
    var br := if short then ICondBr(r1.1, endl, nxt) else ICondBr(r1.1, nxt, endl);
    var ls4 := Block0(Put(ls3, br), nxt);
    PlacedBack2(k, r1.0, i, ls3, br, nxt);
    rg2 := SetLocal(rg1, un, m);
    KeptWiden(ls, rg, rg1, rg2, un, m);
    Fetch(k, r1.0, i, rg1, w1.heap);
    Fetch(k, ls3, br, rg2, w1.heap);
    OneMore(k.code.ir, At(k, ls.b, rg, w.heap), n, At(k, r1.0.b, rg1, w1.heap));
    assert At(k, ls2.b, rg2, w1.heap) == At(k, ls3.b, rg2, w1.heap);
    OneMore(k.code.ir, At(k, ls.b, rg, w.heap), n + 1, At(k, ls3.b, rg2, w1.heap));
    JumpIsLabel(k, HereFrame(k, ls3.b, rg2), if b == short then endl else nxt, rg2, w1.heap);
    if b != short {
      LabelHere(k, Put(ls3, br), nxt, rg2, w1.heap);
      GrowsCount(ls, r1.0);
      ReadyMoved(k, cx, ls, ls4, vs, w, rg, env, vars, w1, rg2, {un});
    }
  }

  lemma {:induction false} SimTests(k: Act, fuel: nat, cx: Cx, ls: LS, vs: Scope, w: World, rg: Regs, env: int,
                                    vars: map<nat, string>, args: List<Expr>, short: bool, un: string, endl: string)
    returns (w2: World, rg2: Regs, n: nat)
    requires Ready(k, cx, ls, vs, w, rg, env, vars)
    requires Able(k, cx, vs, w, env, CapturedEs(args), Put(LowerTests(cx, ls, vs, args, short, un, endl), IBr(endl)))
    requires OkEs(k.code.src.Keys, vs.Keys, cx.chk, args)
    requires 0 < Stamp(un) <= ls.uq && forall c :: c in vars ==> vars[c] != un
    requires args.Nil? ==> un in rg.locals && rg.locals[un] == MBool(!short)
    ensures TestSim(k, ls, un, endl, I.EvalAndOr(k.code.prog(), fuel, w.st, env, cx.chk, args, short), fuel, w, rg, w2, rg2, n)
    decreases fuel, args, 0
  {
    hide VRel, CodeIn, RegsKept, ScopeRel, Live, StepN, Step, Exec, FuncAt, LamAt, Linked, Extends, Grows, I.EvalAndOr,
         LowerTests, LowerExpr, LowerOp, OkE, CapturedE, I.Eval, TestOne;
    AndOrUnfold(k.code.prog(), fuel, w.st, env, cx.chk, args, short);
    w2, rg2, n := w, rg, 0;
    match args
    case Nil =>
      TestsNone(cx, ls, vs, short, un, endl);
      TestsEnd(k, ls, endl, un, rg, w);
      MovesRefl(w, {}, -1);
      n := 1;
    case Cons(e, rest) =>
      var ls4 := TestOne(cx, ls, vs, e, short, un, endl);
      var after := Put(LowerTests(cx, ls, vs, args, short, un, endl), IBr(endl));
      TestPlaced(k, cx, ls, vs, e, rest, short, un, endl, after);
      w2, rg2, n := SimTest(k, fuel, cx, ls, vs, w, rg, env, vars, e, short, un, endl);
      var out := I.Eval(k.code.prog(), fuel, w.st, env, cx.chk, e);
      if out.Ok? && out.v.VBool? && out.v.b != short {
        SettledAllKept(w, w2, env, CapturedEs(rest), vs);
        var w1, rg1, n1 := w2, rg2, n;
        TestOneGrows(cx, ls, vs, e, short, un, endl);
        GrowsCount(ls, ls4);
        w2, rg2, n := SimTests(k, fuel, cx, ls4, vs, w1, rg1, env, vars, rest, short, un, endl);
        TestJoin(k, ls, ls4, un, endl, I.EvalAndOr(k.code.prog(), fuel, w1.st, env, cx.chk, rest, short), fuel,
                 w, rg, w1, rg1, n1, w2, rg2, n);
        n := n1 + n;
      }
  }

  lemma AndOrUnfold(p: I.Program, fuel: nat, st: I.Store, env: int, chk: bool, args: List<Expr>, stop: bool)
    ensures args.Nil? ==> I.EvalAndOr(p, fuel, st, env, chk, args, stop) == I.Ok(I.VBool(!stop), st)
    ensures args.Cons? ==>
              var o := I.Eval(p, fuel, st, env, chk, args.head);
              I.EvalAndOr(p, fuel, st, env, chk, args, stop) ==
                if !o.Ok? then o
                else if !o.v.VBool? then I.Err(I.Mistyped)
                else if o.v.b == stop then o
                else I.EvalAndOr(p, fuel, o.st, env, chk, args.tail, stop)
  {
  }

  lemma TestsNone(cx: Cx, ls: LS, vs: Scope, short: bool, un: string, endl: string)
    ensures LowerTests(cx, ls, vs, Nil, short, un, endl) == ls
  {
  }

  lemma TestsEnd(k: Act, ls: LS, endl: string, un: string, rg: Regs, w: World)
    requires !CurTerminated(ls.b) && Placed(k, Put(ls, IBr(endl)))
    ensures StepN(k.code.ir, At(k, ls.b, rg, w.heap), 1) == AtLabel(k, endl, rg, w.heap)
    ensures RegsKept(rg, rg, ls.b.tc, ls.uq, {un})
  {
    hide StepN, Step, FuncAt, LamAt;
    Fetch(k, ls, IBr(endl), rg, w.heap);
    NoSteps(k.code.ir, At(k, ls.b, rg, w.heap));
    OneMore(k.code.ir, At(k, ls.b, rg, w.heap), 0, At(k, ls.b, rg, w.heap));
    JumpIsLabel(k, HereFrame(k, ls.b, rg), endl, rg, w.heap);
  }

  lemma TestOneGrows(cx: Cx, ls: LS, vs: Scope, e: Expr, short: bool, un: string, endl: string)
    ensures Grows(ls, TestOne(cx, ls, vs, e, short, un, endl))
  {
    hide Extends;
    var r1 := LowerExpr(cx, ls, vs, e);
    ExprGrows(cx, ls, vs, e);
    TestTailGrows(r1.0, r1.1, short, un, endl);
    Trans(ls, r1.0, TestOne(cx, ls, vs, e, short, un, endl));
  }

  lemma TestPlaced(k: Act, cx: Cx, ls: LS, vs: Scope, e: Expr, rest: List<Expr>, short: bool, un: string, endl: string,
                   after: LS)
    requires after == Put(LowerTests(cx, ls, vs, Cons(e, rest), short, un, endl), IBr(endl)) && Placed(k, after)
    ensures LowerTests(cx, ls, vs, Cons(e, rest), short, un, endl)
         == LowerTests(cx, TestOne(cx, ls, vs, e, short, un, endl), vs, rest, short, un, endl)
    ensures Placed(k, TestOne(cx, ls, vs, e, short, un, endl))
  {
    hide Extends, Grows, Placed;
    var ls4 := TestOne(cx, ls, vs, e, short, un, endl);
    var ls5 := LowerTests(cx, ls4, vs, rest, short, un, endl);
    TestsGrows(cx, ls4, vs, rest, short, un, endl);
    PutGrows(ls5, IBr(endl));
    Trans(ls4, ls5, after);
    PlacedEarlier(k, ls4, after);
  }

  lemma {:induction false} SimTest(k: Act, fuel: nat, cx: Cx, ls: LS, vs: Scope, w: World, rg: Regs, env: int,
                                   vars: map<nat, string>, e: Expr, short: bool, un: string, endl: string)
    returns (w2: World, rg2: Regs, n: nat)
    requires Ready(k, cx, ls, vs, w, rg, env, vars)
    requires Able(k, cx, vs, w, env, CapturedE(e), TestOne(cx, ls, vs, e, short, un, endl))
    requires OkE(k.code.src.Keys, vs.Keys, cx.chk, e)
    requires 0 < Stamp(un) <= ls.uq && forall c :: c in vars ==> vars[c] != un
    ensures var ls4 := TestOne(cx, ls, vs, e, short, un, endl);
            var c := StepN(k.code.ir, At(k, ls.b, rg, w.heap), n);
            match I.Eval(k.code.prog(), fuel, w.st, env, cx.chk, e)
            case Ok(v, st) => v.VBool? ==>
              && w2.st == st && Inv(k.code, w2) && Moves(w, w2, {}, -1) && RegsKept(rg, rg2, ls.b.tc, ls.uq, {un})
              && un in rg2.locals && rg2.locals[un] == MBool(v.b)
              && (if v.b == short then c == AtLabel(k, endl, rg2, w2.heap)
                  else c == At(k, ls4.b, rg2, w2.heap) && Ready(k, cx, ls4, vs, w2, rg2, env, vars))
            case Panic => c == Panicked
            case NoFuel => n >= fuel && c.Run?
            case Err(_) => true
    decreases fuel, e, 3
  {
    hide StepN, Step, Exec, FuncAt, LamAt, Linked, Extends, Grows, LowerExpr, LowerOp, OkE, CapturedE, I.Eval;
    var r1 := LowerExpr(cx, ls, vs, e);
    ExprGrows(cx, ls, vs, e);
    TestTailGrows(r1.0, r1.1, short, un, endl);
    PlacedEarlier(k, r1.0, TestOne(cx, ls, vs, e, short, un, endl));
    var m;
    w2, rg2, m, n := SimExpr(k, fuel, cx, ls, vs, w, rg, env, vars, e);
    var out := I.Eval(k.code.prog(), fuel, w.st, env, cx.chk, e);
    if out.Ok? && out.v.VBool? {
      rg2 := TestTail(k, cx, ls, r1, vs, env, vars, short, un, endl, w, rg, w2, rg2, m, n, out.v.b);
      n := n + 2;
    }
  }

  lemma TestTailGrows(ls: LS, v: IVal, short: bool, un: string, endl: string)
    ensures var (ls3, nxt) := Lbl(Put(ls, IAssign(PLocal(un), v)), "sc_nx");
            Grows(ls, Block0(Put(ls3, if short then ICondBr(v, endl, nxt) else ICondBr(v, nxt, endl)), nxt))
  {
    hide Extends;
    var ls2 := Put(ls, IAssign(PLocal(un), v));
    var (ls3, nxt) := Lbl(ls2, "sc_nx");
    var br := if short then ICondBr(v, endl, nxt) else ICondBr(v, nxt, endl);
    PutGrows(ls, IAssign(PLocal(un), v));
    LblGrows(ls2, "sc_nx");
    PutBlockGrows(ls3, br, nxt);
    Trans(ls, ls2, ls3);
    Trans(ls, ls3, Block0(Put(ls3, br), nxt));
  }

  lemma TestJoin(k: Act, ls: LS, ls4: LS, un: string, endl: string, out: I.Out<I.Value>, fuel: nat,
                 w: World, rg: Regs, w1: World, rg1: Regs, n1: nat, w2: World, rg2: Regs, n: nat)
    requires Grows(ls, ls4) && Moves(w, w1, {}, -1) && RegsKept(rg, rg1, ls.b.tc, ls.uq, {un})
    requires StepN(k.code.ir, At(k, ls.b, rg, w.heap), n1) == At(k, ls4.b, rg1, w1.heap)
    requires TestSim(k, ls4, un, endl, out, fuel, w1, rg1, w2, rg2, n)
    ensures TestSim(k, ls, un, endl, out, fuel, w, rg, w2, rg2, n1 + n)
  {
    hide StepN, Step, FuncAt, LamAt;
    Chain(k.code.ir, At(k, ls.b, rg, w.heap), n1, At(k, ls4.b, rg1, w1.heap), n);
    if out.Ok? {
      MovesTrans(w, w1, w2, {}, -1, {});
      KeptTrans(rg, rg1, rg2, ls.b.tc, ls.uq, {un}, ls4.b.tc, ls4.uq, {un});
    }
  }

  lemma {:induction false} SimAndOr(k: Act, fuel: nat, cx: Cx, ls: LS, vs: Scope, w: World, rg: Regs, env: int,
                                    vars: map<nat, string>, args: List<Expr>, short: bool)
    returns (w2: World, rg2: Regs, m: MVal, n: nat)
    requires args.Cons?
    requires Ready(k, cx, ls, vs, w, rg, env, vars)
    requires Able(k, cx, vs, w, env, CapturedEs(args), LowerAndOr(cx, ls, vs, args, short).0)
    requires OkEs(k.code.src.Keys, vs.Keys, cx.chk, args)
    ensures ExprSim(k, ls, LowerAndOr(cx, ls, vs, args, short),
                    I.EvalAndOr(k.code.prog(), fuel, w.st, env, cx.chk, args, short), fuel, w, rg, w2, rg2, m, n)
    decreases fuel, args, 1
  {
    hide Stamp, Emit, Live, StepN, Step, Exec, FuncAt, LamAt, Linked, Extends, Grows, I.EvalAndOr, LowerExpr,
         LowerTests, OkE, OkEs, CapturedE, CapturedEs;
    var (ls1, res) := Loc(ls, "sc", BOOL);
    var un := res.name;
    StampOfUniq("sc", ls.uq + 1);
    var (ls2, endl) := Lbl(ls1, "sc_end");
    var ls3 := LowerTests(cx, ls2, vs, args, short, un, endl);
    var fin := Block0(Put(ls3, IBr(endl)), endl);
    BlockGrows(Put(ls3, IBr(endl)), endl);
    PlacedEarlier(k, Put(ls3, IBr(endl)), fin);
    KeptRefl(rg, ls.b.tc, ls.uq);
    MovesRefl(w, {}, -1);
    ReadyMoved(k, cx, ls, ls2, vs, w, rg, env, vars, w, rg, {});
    LiveNames(k.code, w, vars, rg, ls.uq, un);
    w2, rg2, n := SimTests(k, fuel, cx, ls2, vs, w, rg, env, vars, args, short, un, endl);
    m := MUnit;
    assert At(k, ls.b, rg, w.heap) == At(k, ls2.b, rg, w.heap);
    var out := I.EvalAndOr(k.code.prog(), fuel, w.st, env, cx.chk, args, short);
    if out.Ok? {
      m := MBool(out.v.b);
      LabelHere(k, Put(ls3, IBr(endl)), endl, rg2, w2.heap);
      AndOrGrows(cx, ls, vs, args, short);
      AndOrTail(cx, ls2, vs, args, short, un, endl);
      GrowsCount(ls2, fin);
      KeptUn(ls, ls2, rg, rg2, un);
    }
  }

  lemma AndOrTail(cx: Cx, ls: LS, vs: Scope, args: List<Expr>, short: bool, un: string, endl: string)
    ensures Grows(ls, Block0(Put(LowerTests(cx, ls, vs, args, short, un, endl), IBr(endl)), endl))
  {
    hide Extends;
    var ls3 := LowerTests(cx, ls, vs, args, short, un, endl);
    TestsGrows(cx, ls, vs, args, short, un, endl);
    PutBlockGrows(ls3, IBr(endl), endl);
    Trans(ls, ls3, Block0(Put(ls3, IBr(endl)), endl));
  }

  lemma KeptUn(ls: LS, ls2: LS, a: Regs, b: Regs, un: string)
    requires RegsKept(a, b, ls2.b.tc, ls2.uq, {un}) && ls.b.tc <= ls2.b.tc && ls.uq < Stamp(un) && ls.uq <= ls2.uq
    ensures RegsKept(a, b, ls.b.tc, ls.uq, {})
  {
  }

  lemma LiveNames(code: Code, w: World, vars: map<nat, string>, rg: Regs, uq: nat, un: string)
    requires Live(code, w, vars, rg, uq) && Stamp(un) > uq
    ensures forall c :: c in vars ==> vars[c] != un
  {
    hide LamAt;
    forall c | c in vars ensures vars[c] != un {
      assert LiveCell(code, w, c, vars[c], rg, uq);
    }
  }

  // ----- calls -----

  // A list of arguments, all values at hand afterwards.
  ghost predicate ExprsSim(k: Act, ls: LS, r: (LS, seq<IVal>), out: I.Out<seq<I.Value>>, fuel: nat,
                           w: World, rg: Regs, w2: World, rg2: Regs, ms: seq<MVal>, n: nat)
  {
    var c := StepN(k.code.ir, At(k, ls.b, rg, w.heap), n);
    match out
    case Ok(vs, st) =>
      && w2.st == st && ExprsDone(k, ls, r, w, rg, w2, rg2, ms) && VRels(k.code, w2, vs, ms)
      && c == At(k, r.0.b, rg2, w2.heap)
    case Panic => c == Panicked
    case NoFuel => n >= fuel && c.Run?
    case Err(_) => true
  }

  ghost predicate ExprsDone(k: Act, ls: LS, r: (LS, seq<IVal>), w: World, rg: Regs, w2: World, rg2: Regs,
                            ms: seq<MVal>) {
    && Inv(k.code, w2) && Moves(w, w2, {}, -1) && RegsKept(rg, rg2, ls.b.tc, ls.uq, {})
    && ValsOf(rg2, r.1) == Some(ms) && !CurTerminated(r.0.b)
  }

  lemma {:induction false} SimExprs(k: Act, fuel: nat, cx: Cx, ls: LS, vs: Scope, w: World, rg: Regs, env: int,
                                    vars: map<nat, string>, es: List<Expr>)
    returns (w2: World, rg2: Regs, ms: seq<MVal>, n: nat)
    requires Ready(k, cx, ls, vs, w, rg, env, vars)
    requires Able(k, cx, vs, w, env, CapturedEs(es), LowerExprs(cx, ls, vs, es).0)
    requires OkEs(k.code.src.Keys, vs.Keys, cx.chk, es)
    ensures ExprsSim(k, ls, LowerExprs(cx, ls, vs, es), I.EvalAll(k.code.prog(), fuel, w.st, env, cx.chk, es), fuel, w,
                     rg, w2, rg2, ms, n)
    decreases fuel, es, 2
  {
    hide StepN, Step, Exec, FuncAt, LamAt, CodeIn, Linked, Extends, Grows, LowerExpr, OkE, CapturedE, I.Eval;
    w2, rg2, ms, n := w, rg, [], 0;
    match es
    case Nil =>
      MovesRefl(w, {}, -1);
      KeptRefl(rg, ls.b.tc, ls.uq);
      NoSteps(k.code.ir, At(k, ls.b, rg, w.heap));
    case Cons(e, rest) =>
      var r1 := LowerExpr(cx, ls, vs, e);
      var r2 := LowerExprs(cx, r1.0, vs, rest);
      ExprGrows(cx, ls, vs, e);
      ExprsGrows(cx, r1.0, vs, rest);
      PlacedEarlier(k, r1.0, r2.0);
      var m;
      w2, rg2, m, n := SimExpr(k, fuel, cx, ls, vs, w, rg, env, vars, e);
      var out1 := I.Eval(k.code.prog(), fuel, w.st, env, cx.chk, e);
      if out1.Ok? {
        ReadyAfter(k, cx, ls, r1, vs, w, rg, env, vars, w2, rg2, m);
        SettledAllKept(w, w2, env, CapturedEs(rest), vs);
        var w1, rg1, n1 := w2, rg2, n;
        w2, rg2, ms, n := SimExprs(k, fuel, cx, r1.0, vs, w1, rg1, env, vars, rest);
        ArgsJoin(k, ls, r1, r2, fuel, out1.v, I.EvalAll(k.code.prog(), fuel, w1.st, env, cx.chk, rest), w, rg, w1, rg1,
                 m, n1, w2, rg2, ms, n);
        ms, n := [m] + ms, n1 + n;
      }
  }

  lemma ArgsJoin(k: Act, ls: LS, r1: (LS, IVal), r2: (LS, seq<IVal>), fuel: nat, v: I.Value, out: I.Out<seq<I.Value>>,
                 w: World, rg: Regs, w1: World, rg1: Regs, m: MVal, n1: nat, w2: World, rg2: Regs, ms: seq<MVal>, n: nat)
    requires Grows(ls, r1.0) && ExprDone(k, ls, r1, w, rg, w1, rg1, m) && VRel(k.code, w1, v, m)
    requires StepN(k.code.ir, At(k, ls.b, rg, w.heap), n1) == At(k, r1.0.b, rg1, w1.heap)
    requires ExprsSim(k, r1.0, r2, out, fuel, w1, rg1, w2, rg2, ms, n)
    ensures ExprsSim(k, ls, (r2.0, [r1.1] + r2.1), (match out case Ok(vs, st) => I.Ok([v] + vs, st) case o => o),
                     fuel, w, rg, w2, rg2, [m] + ms, n1 + n)
  {
    hide StepN, Step, FuncAt, LamAt;
    Chain(k.code.ir, At(k, ls.b, rg, w.heap), n1, At(k, r1.0.b, rg1, w1.heap), n);
    if out.Ok? {
      MovesTrans(w, w1, w2, {}, -1, {});
      KeptGrows(ls, r1.0, rg, rg1, rg2);
      SteadyKept(r1.1, rg1, rg2, r1.0.b.tc, r1.0.uq);
      VRelKept(k.code, w1, w2, v, m);
      assert ([r1.1] + r2.1)[1..] == r2.1;
    }
  }

  // ----- invoking a function value -----

  function CallOut(p: I.Program, fuel: nat, st: I.Store, f: I.Value, vals: seq<I.Value>, rty: Ty): I.Out<I.Value> {
    if !f.VClo? || f.ret != rty then I.Err(I.Mistyped)
    else if fuel == 0 then I.NoFuel
    else I.Apply(p, fuel - 1, st, f, vals)
  }

  // The call instruction and its result.
  function CallCode(ls: LS, rty: Ty, none: Instr, some: Instr): (LS, IVal) {
    if rty == TUnit then (Put(ls, none), ImmUnit) else (Put(Tmp(ls, TyOf(rty)).0, some), Tmp(ls, TyOf(rty)).1)
  }

  function CallDst(ls: LS, rty: Ty): Option<nat> { if rty == TUnit then None else Some(ls.b.tc) }

  // The call instruction, run with its operands at hand.
  lemma FetchCall(k: Act, ls: LS, rty: Ty, none: Instr, some: Instr, rg: Regs, heap: seq<HObj>)
    requires !CurTerminated(ls.b) && Placed(k, CallCode(ls, rty, none, some).0) && !IsTerminator(none) && !IsTerminator(some)
    ensures Step(k.code.ir, At(k, ls.b, rg, heap))
         == Exec(k.code.ir, if rty == TUnit then none else some, HereFrame(k, ls.b, rg), k.rest, heap)
    ensures forall rg2, heap2 :: At(k, CallCode(ls, rty, none, some).0.b, rg2, heap2)
                              == Run(Next(HereFrame(k, ls.b, rg), rg2), k.rest, heap2)
    ensures !CurTerminated(CallCode(ls, rty, none, some).0.b)
  {
    hide Step, Exec, FuncAt, LamAt, Linked;
    if rty == TUnit {
      Fetch(k, ls, none, rg, heap);
    } else {
      var ls1 := Tmp(ls, TyOf(rty)).0;
      Fetch(k, ls1, some, rg, heap);
      assert At(k, ls.b, rg, heap) == At(k, ls1.b, rg, heap);
      assert HereFrame(k, ls.b, rg) == HereFrame(k, ls1.b, rg);
    }
  }

  // The result of a call is of the callee's return type.
  lemma ApplyTyped(p: I.Program, fuel: nat, st: I.Store, f: I.Value, vals: seq<I.Value>)
    requires f.VClo?
    ensures I.Apply(p, fuel, st, f, vals).Ok? ==> I.HasTy(I.Apply(p, fuel, st, f, vals).v, f.ret)
  {
    hide I.ExecBlock, I.BindParams;
  }

  lemma {:induction false} SimInvoke(k: Act, fuel: nat, ls: LS, ls1: LS, rty: Ty, none: Instr, some: Instr, f: I.Value,
                                     fn: string,
                                     extra: seq<MVal>, vals: seq<I.Value>, ms: seq<MVal>, w: World, rg: Regs, w1: World, rg1: Regs, n1: nat,
                                     args: List<Expr>)
    returns (w2: World, rg2: Regs, m: MVal, n: nat)
    requires CodeOk(k.code) && Grows(ls, ls1) && !CurTerminated(ls1.b) && Placed(k, CallCode(ls1, rty, none, some).0)
    requires !IsTerminator(none) && !IsTerminator(some)
    requires Inv(k.code, w1) && Moves(w, w1, {}, -1) && RegsKept(rg, rg1, ls.b.tc, ls.uq, {})
    requires StepN(k.code.ir, At(k, ls.b, rg, w.heap), n1) == At(k, ls1.b, rg1, w1.heap)
    requires f.VClo? ==> IsCallee(k.code, w1, f, fn, extra)
    requires VRels(k.code, w1, vals, ms)
    requires var fr := HereFrame(k, ls1.b, rg1);
             f.VClo? ==>
               Exec(k.code.ir, if rty == TUnit then none else some, fr, k.rest, w1.heap)
               == Enter(k.code.ir, fn, extra + ms, CallDst(ls1, rty), Cons(Next(fr, rg1), k.rest), w1.heap)
    ensures ExprSim(k, ls, CallCode(ls1, rty, none, some), CallOut(k.code.prog(), fuel, w1.st, f, vals, rty), fuel, w,
                    rg, w2, rg2, m, n)
    decreases fuel, args, 0
  {
    hide StepN, Step, Exec, FuncAt, LamAt, CodeIn, Linked, Extends, Grows, I.Apply, Inv, Evolves, VRel, Enter, IsCallee,
         VRels, Moves, RegsKept;
    w2, rg2, m, n := w1, rg1, MUnit, n1;
    if f.VClo? && f.ret == rty && fuel > 0 {
      var fr := HereFrame(k, ls1.b, rg1);
      var start := Enter(k.code.ir, fn, extra + ms, CallDst(ls1, rty), Cons(Next(fr, rg1), k.rest), w1.heap);
      FetchCall(k, ls1, rty, none, some, rg1, w1.heap);
      OneMore(k.code.ir, At(k, ls.b, rg, w.heap), n1, At(k, ls1.b, rg1, w1.heap));
      ApplyTyped(k.code.prog(), fuel - 1, w1.st, f, vals);
      var n2;
      w2, m, n2 := SimApply(k.code, fuel - 1, w1, f, vals, ms, fn, extra, CallDst(ls1, rty),
                            Cons(Next(fr, rg1), k.rest));
      Chain(k.code.ir, At(k, ls.b, rg, w.heap), n1 + 1, start, n2);
      n := n1 + 1 + n2;
      var out := I.Apply(k.code.prog(), fuel - 1, w1.st, f, vals);
      if out.Ok? {
        rg2 := if rty == TUnit then rg1 else SetTemp(rg1, ls1.b.tc, m);
        MovesTrans(w, w1, w2, {}, -1, {});
        InvokeKept(k.code, ls, ls1, rty, rg, rg1, rg2, w2, out.v, m);
      }
    }
  }

  lemma InvokeKept(code: Code, ls: LS, ls1: LS, rty: Ty, rg: Regs, rg1: Regs, rg2: Regs, w2: World, v: I.Value, m: MVal)
    requires Grows(ls, ls1) && RegsKept(rg, rg1, ls.b.tc, ls.uq, {})
    requires rg2 == if rty == TUnit then rg1 else SetTemp(rg1, ls1.b.tc, m)
    requires I.HasTy(v, rty) && VRel(code, w2, v, m)
    ensures RegsKept(rg, rg2, ls.b.tc, ls.uq, {})
    ensures rty == TUnit ==> m == MUnit
    ensures rty != TUnit ==> ValOf(rg2, Temp(ls1.b.tc, TyOf(rty))) == Some(m)
  {
    hide LamAt;
    GrowsCount(ls, ls1);
  }

  // How an interpreter function value appears to the machine.
  ghost predicate IsCallee(code: Code, w: World, f: I.Value, fn: string, extra: seq<MVal>) {
    && f.VClo?
    && if f.env == -1 then
         extra == [] && exists d: FuncDecl :: d.name in code.src && code.src[d.name] == d
                                              && f == I.VClo(d.params, d.ret, d.body, -1) && fn == Mangle(code.mod, d.name)
       else |extra| == 1 && VRel(code, w, f, MClo(fn, extra[0]))
  }

  // Calling f: from the machine's entry into fn to its return.
  ghost predicate ApplySim(code: Code, out: I.Out<I.Value>, fuel: nat, start: Conf, w: World, w2: World, m: MVal,
                           dst: Option<nat>, rest: List<Frame>, n: nat)
  {
    var c := StepN(code.ir, start, n);
    match out
    case Ok(v, st) =>
      w2.st == st && Inv(code, w2) && Moves(w, w2, {}, -1) && VRel(code, w2, v, m) && c == Leave(m, dst, rest, w2.heap)
    case Panic => c == Panicked
    case NoFuel => n >= fuel && c.Run?
    case Err(_) => true
  }

  lemma {:induction false} SimApply(code: Code, fuel: nat, w: World, f: I.Value, vals: seq<I.Value>, ms: seq<MVal>,
                                    fn: string, extra: seq<MVal>, dst: Option<nat>, stack: List<Frame>)
    returns (w2: World, m: MVal, n: nat)
    requires CodeOk(code) && Inv(code, w) && IsCallee(code, w, f, fn, extra) && VRels(code, w, vals, ms)
    ensures ApplySim(code, I.Apply(code.prog(), fuel, w.st, f, vals), fuel,
                     Enter(code.ir, fn, extra + ms, dst, stack, w.heap), w, w2, m, dst, stack, n)
    decreases fuel, f.body, 6
  {
    hide Inv, Moves, VRel, VRels, LowerExpr, OkE, CapturedE, I.Eval, StepN, Step, Exec, CodeIn, Linked, Extends, Grows;
    w2, m, n := w, MUnit, 0;
    var bound := I.BindParams(I.NewEnv(w.st, f.env), |w.st.envs|, f.params, vals);
    if bound.Some? {
      if f.env == -1 {
        w2, m, n := SimApplyFunc(code, fuel, w, f, vals, ms, fn, dst, stack);
        assert [] + ms == ms;
      } else {
        w2, m, n := SimApplyLambda(code, fuel, w, f, vals, ms, fn, extra[0], dst, stack);
        assert extra == [extra[0]];
      }
    }
  }

  // What a function body's outcome means to the caller.
  function BodyResult(out: I.Out<I.Flow>, ret: Ty): I.Out<I.Value> {
    match out
    case Ok(Return(v), st) => if I.HasTy(v, ret) then I.Ok(v, st) else I.Err(I.Mistyped)
    case Ok(Normal, st) => if ret == TUnit then I.Ok(I.VUnit, st) else I.Panic
    case Ok(_, _) => I.Err(I.Mistyped)
    case Panic => I.Panic
    case Err(why) => I.Err(why)
    case NoFuel => I.NoFuel
  }

  lemma {:induction false} SimApplyLambda(code: Code, fuel: nat, w: World, f: I.Value, vals: seq<I.Value>,
                                          ms: seq<MVal>,
                                          fn: string, menv: MVal, dst: Option<nat>, stack: List<Frame>)
    returns (w2: World, m: MVal, n: nat)
    requires CodeOk(code) && Inv(code, w) && VRels(code, w, vals, ms) && f.VClo? && VRel(code, w, f, MClo(fn, menv))
    requires I.BindParams(I.NewEnv(w.st, f.env), |w.st.envs|, f.params, vals).Some?
    ensures ApplySim(code, I.Apply(code.prog(), fuel, w.st, f, vals), fuel,
                     Enter(code.ir, fn, [menv] + ms, dst, stack, w.heap), w, w2, m, dst, stack, n)
    decreases fuel, f.body, 5
  {
    hide StepN, Step, Exec, CodeIn, Linked, Extends, Grows, LowerStmts, OkSs, CapturedSs, I.ExecBlock, Inv, Ready,
         LamAt, FuncAt, Moves, LambdaEntry, Finish, EnvRel;
    var i :| CloRel(code, w, f, MClo(fn, menv), i);
    CalleeOk(code, w, f, vals, ms, fn, i, menv);
    var k := Act(code, code.ir[fn], dst, stack);
    var cx := i.cx.(captured := CapturedSs(i.body));
    var (ls, vs) := LambdaEntry(cx, i.lamn, i.funcs, fn, i.params, i.caps, i.capTys);
    LambdaShape(code, fn, i, dst, stack);
    var w1, rg1, vars, n1 := EnterLambda(code, w, f, vals, ms, fn, i, menv, dst, stack);
    w2, m, n := SimBody(k, fuel, cx, ls, vs, w, w1, rg1, |w.st.envs|, vars,
                        (set x | x in i.caps) + ParamNames(i.params), i.body, i.ret);
    ApplyShift(code, BodyResult(I.ExecBlock(code.prog(), fuel, w1.st, |w.st.envs|, false, i.body), i.ret), fuel,
               Enter(code.ir, fn, [menv] + ms, dst, stack, w.heap), n1, At(k, ls.b, rg1,
                                                                           w1.heap), w, w2, m, dst, stack, n);
    n := n1 + n;
  }

  lemma CalleeOk(code: Code, w: World, f: I.Value, vals: seq<I.Value>, ms: seq<MVal>, fn: string, i: LamInfo,
                 menv: MVal)
    requires CodeOk(code) && Inv(code, w) && VRels(code, w, vals, ms) && f.VClo? && VRel(code, w, f, MClo(fn, menv))
    requires CloRel(code, w, f, MClo(fn, menv), i)
    requires I.BindParams(I.NewEnv(w.st, f.env), |w.st.envs|, f.params, vals).Some?
    ensures |i.caps| == |i.capTys| && Callable(code, w, f, vals, ms) && fn in code.ir && DistinctLabels(code.ir[fn])
    ensures i.cx.mod == code.mod && !i.cx.chk
    ensures OkSs(code.src.Keys, (set x | x in i.caps) + ParamNames(i.params), false, false, i.body)
  {
    hide FuncAt;
    BindBound(I.NewEnv(w.st, f.env), |w.st.envs|, f.params, vals);
  }

  lemma ApplyShift(code: Code, out: I.Out<I.Value>, fuel: nat, start: Conf, n1: nat, mid: Conf, w: World, w2: World,
                   m: MVal,
                   dst: Option<nat>, rest: List<Frame>, n: nat)
    requires StepN(code.ir, start, n1) == mid && ApplySim(code, out, fuel, mid, w, w2, m, dst, rest, n)
    ensures ApplySim(code, out, fuel, start, w, w2, m, dst, rest, n1 + n)
  {
    hide StepN, Step, FuncAt, LamAt;
    Chain(code.ir, start, n1, mid, n);
  }

  lemma {:induction false} SimApplyFunc(code: Code, fuel: nat, w: World, f: I.Value, vals: seq<I.Value>, ms: seq<MVal>,
                                        fn: string, dst: Option<nat>, stack: List<Frame>)
    returns (w2: World, m: MVal, n: nat)
    requires CodeOk(code) && Inv(code, w) && VRels(code, w, vals, ms) && f.VClo? && f.env == -1 && IsCallee(code, w, f, fn, [])
    requires I.BindParams(I.NewEnv(w.st, f.env), |w.st.envs|, f.params, vals).Some?
    ensures ApplySim(code, I.Apply(code.prog(), fuel, w.st, f, vals), fuel,
                     Enter(code.ir, fn, ms, dst, stack, w.heap), w, w2, m, dst, stack, n)
    decreases fuel, f.body, 5
  {
    hide StepN, Step, Exec, CodeIn, Linked, Extends, Grows, LowerStmts, OkSs, CapturedSs, I.ExecBlock, Inv, Ready,
         LamAt, FuncAt, Moves, FuncEntry, Finish;
    var d: FuncDecl :| d.name in code.src && code.src[d.name] == d
                       && f == I.VClo(d.params, d.ret, d.body, -1) && fn == Mangle(code.mod, d.name);
    var i :| FuncAt(code, d, i);
    FuncOk(code, w, f, vals, ms, d, i);
    var k := Act(code, code.ir[fn], dst, stack);
    var cx := FuncCx(code.mod, d.body);
    var (ls, vs) := FuncEntry(cx, i.lamn, i.funcs, d);
    FuncShape(code, d, i, dst, stack);
    var w1, rg1, vars, n1 := EnterFunc(code, w, d, i, vals, ms, dst, stack);
    w2, m, n := SimBody(k, fuel, cx, ls, vs, w, w1, rg1, |w.st.envs|, vars, ParamNames(d.params), d.body, d.ret);
    ApplyShift(code, BodyResult(I.ExecBlock(code.prog(), fuel, w1.st, |w.st.envs|, false, d.body), d.ret), fuel,
               Enter(code.ir, fn, ms, dst, stack, w.heap), n1, At(k, ls.b, rg1, w1.heap), w, w2, m, dst, stack, n);
    n := n1 + n;
  }

  lemma FuncOk(code: Code, w: World, f: I.Value, vals: seq<I.Value>, ms: seq<MVal>, d: FuncDecl, i: FuncInfo)
    requires CodeOk(code) && Inv(code, w) && VRels(code, w, vals, ms) && FuncAt(code, d, i)
    requires f == I.VClo(d.params, d.ret, d.body, -1)
    requires I.BindParams(I.NewEnv(w.st, f.env), |w.st.envs|, f.params, vals).Some?
    ensures Callable(code, w, f, vals, ms)
    ensures Mangle(code.mod, d.name) in code.ir && DistinctLabels(code.ir[Mangle(code.mod, d.name)])
    ensures OkSs(code.src.Keys, ParamNames(d.params), false, false, d.body)
  {
    hide LamAt;
    BindBound(I.NewEnv(w.st, f.env), |w.st.envs|, f.params, vals);
    assert {} + ParamNames(d.params) == ParamNames(d.params);
  }

  // A body run to its end, with the tail the lowering adds.
  lemma {:induction false} SimBody(k: Act, fuel: nat, cx: Cx, ls: LS, vs: Scope, w0: World, w: World, rg: Regs,
                                   env: int,
                                   vars: map<nat, string>, scope: set<string>, body: List<Stmt>, ret: Ty)
    returns (w2: World, m: MVal, n: nat)
    requires Entered(k, cx, ls, vs, w0, w, rg, env, vars, scope, body) && !cx.chk && cx.captured == CapturedSs(body)
    requires OkSs(k.code.src.Keys, scope, false, false, body)
    requires var after := LowerStmts(cx, ls, vs, body); Placed(k, after) && Placed(k, Finish(after, ret))
    ensures ApplySim(k.code, BodyResult(I.ExecBlock(k.code.prog(), fuel, w.st, env, false, body), ret), fuel,
                     At(k, ls.b, rg, w.heap), w0, w2, m, k.dst, k.rest, n)
    decreases fuel, body, 4
  {
    hide StepN, Step, Exec, CodeIn, Linked, Extends, Grows, LowerStmts, OkSs, CapturedSs, I.ExecBlock, LamAt, FuncAt;
    var rg2;
    w2, rg2, m, n := SimStmts(k, fuel, cx, ls, vs, w, rg, env, vars, body, false);
    var out := I.ExecBlock(k.code.prog(), fuel, w.st, env, false, body);
    if out.Ok? {
      MovesUnder(w0, w, w2, {}, vars.Keys, env);
      if out.v.Normal? {
        var after := LowerStmts(cx, ls, vs, body);
        FinishRuns(k, after, ret, rg2, w2.heap);
        OneMore(k.code.ir, At(k, ls.b, rg, w.heap), n, At(k, after.b, rg2, w2.heap));
        m, n := MUnit, n + 1;
      }
    }
  }

  lemma FinishRuns(k: Act, after: LS, ret: Ty, rg: Regs, heap: seq<HObj>)
    requires !CurTerminated(after.b) && Placed(k, Finish(after, ret))
    ensures Step(k.code.ir, At(k, after.b, rg, heap)) == if ret == TUnit then Leave(MUnit, k.dst, k.rest, heap) else Panicked
  {
    hide StepN, Step, FuncAt, LamAt;
    Fetch(k, after, if ret == TUnit then IRet(ImmUnit) else IPanic, rg, heap);
  }

  // ----- calls in expressions -----

  // No environment binds a module function's name.
  lemma {:induction false} LookupGlobal(code: Code, w: World, e: int, x: string)
    requires Inv(code, w) && e < |w.st.envs|
    ensures I.Lookup(w.st.envs, e, x).Some? ==> x !in code.src
    decreases e
  {
    hide LamAt, FuncAt, BoxesOk;
    if 0 <= e { LookupGlobal(code, w, w.st.envs[e].parent, x); }
  }

  // A direct call of a module function.
  predicate Direct(vs: Scope, e: Expr) { e.ECall? && e.callee.EName? && e.callee.x !in vs }

  lemma LowerDirect(cx: Cx, ls: LS, vs: Scope, e: Expr)
    requires Direct(vs, e)
    ensures var r := LowerExprs(cx, ls, vs, e.cargs);
            var fn := Mangle(cx.mod, e.callee.x);
            LowerExpr(cx, ls, vs, e) == CallCode(r.0, e.rty, ICall(None, fn, r.1), ICall(Some(r.0.b.tc), fn, r.1))
  {
    hide LowerExprs;
  }

  lemma LowerIndirect(cx: Cx, ls: LS, vs: Scope, e: Expr)
    requires e.ECall? && !Direct(vs, e)
    ensures var r0 := LowerExpr(cx, ls, vs, e.callee);
            var r := LowerExprs(cx, r0.0, vs, e.cargs);
            LowerExpr(cx, ls, vs, e) == CallCode(r.0, e.rty, ICallClosure(None, r0.1, r.1), ICallClosure(Some(r.0.b.tc), r0.1, r.1))
  {
    hide LowerExprs;
  }

  lemma EvalCall(p: I.Program, fuel: nat, st: I.Store, env: int, chk: bool, e: Expr)
    requires e.ECall?
    ensures var f := I.Eval(p, fuel, st, env, chk, e.callee);
            var a := if f.Ok? then I.EvalAll(p, fuel, f.st, env, chk, e.cargs) else I.Err(I.Mistyped);
            I.Eval(p, fuel, st, env, chk, e) ==
              if !f.Ok? then f
              else match a
                   case Ok(vals, st2) => CallOut(p, fuel, st2, f.v, vals, e.rty)
                   case Panic => I.Panic
                   case Err(why) => I.Err(why)
                   case NoFuel => I.NoFuel
  {
    hide I.EvalAll, I.Apply;
  }

  lemma {:induction false} SimDirect(k: Act, fuel: nat, cx: Cx, ls: LS, vs: Scope, w: World, rg: Regs, env: int,
                                     vars: map<nat, string>, e: Expr)
    returns (w2: World, rg2: Regs, m: MVal, n: nat)
    requires Direct(vs, e) && Ready(k, cx, ls, vs, w, rg, env, vars)
    requires Able(k, cx, vs, w, env, CapturedE(e), LowerExpr(cx, ls, vs, e).0)
    requires OkE(k.code.src.Keys, vs.Keys, cx.chk, e)
    ensures ExprSim(k, ls, LowerExpr(cx, ls, vs, e), I.Eval(k.code.prog(), fuel, w.st, env, cx.chk, e), fuel, w, rg,
                    w2, rg2, m, n)
    decreases fuel, e, 0
  {
    hide StepN, Step, Exec, FuncAt, LamAt, CodeIn, Linked, Extends, Grows, LowerExpr, LowerExprs, OkE, OkEs, CapturedE,
         CapturedEs, I.Eval, I.EvalAll, Inv, CallOut, CallCode, VRel, VRels, Moves, RegsKept, Live, ScopeRel;
    DirectCallee(k, fuel, cx, ls, vs, w, rg, env, vars, e);
    var x, args := e.callee.x, e.cargs;
    var fn := Mangle(cx.mod, x);
    var d := k.code.src[x];
    var f := I.VClo(d.params, d.ret, d.body, -1);
    LowerDirect(cx, ls, vs, e);
    EvalCall(k.code.prog(), fuel, w.st, env, cx.chk, e);
    var r := LowerExprs(cx, ls, vs, args);
    ExprsGrows(cx, ls, vs, args);
    CallPlaced(k, r.0, e.rty, ICall(None, fn, r.1), ICall(Some(r.0.b.tc), fn, r.1));
    var ms;
    w2, rg2, ms, n := SimExprs(k, fuel, cx, ls, vs, w, rg, env, vars, args);
    m := MUnit;
    var out := I.EvalAll(k.code.prog(), fuel, w.st, env, cx.chk, args);
    if out.Ok? {
      ExecCall(k, fn, r.1, CallDst(r.0, e.rty), HereFrame(k, r.0.b, rg2), w2.heap, ms);
      var w1, rg1, n1 := w2, rg2, n;
      assert IsCallee(k.code, w1, f, fn, []);
      w2, rg2, m, n := SimInvoke(k, fuel, ls, r.0, e.rty, ICall(None, fn, r.1), ICall(Some(r.0.b.tc), fn, r.1), f, fn, [], out.v, ms,
                                 w, rg, w1, rg1, n1, args);
    }
  }

  lemma DirectCallee(k: Act, fuel: nat, cx: Cx, ls: LS, vs: Scope, w: World, rg: Regs, env: int,
                     vars: map<nat, string>, e: Expr)
    requires Direct(vs, e) && Ready(k, cx, ls, vs, w, rg, env, vars) && OkE(k.code.src.Keys, vs.Keys, cx.chk, e)
    ensures e.callee.x in k.code.src && k.code.src[e.callee.x].name == e.callee.x
    ensures var d := k.code.src[e.callee.x];
            I.Eval(k.code.prog(), fuel, w.st, env, cx.chk, e.callee) == I.Ok(I.VClo(d.params, d.ret, d.body, -1), w.st)
    ensures OkEs(k.code.src.Keys, vs.Keys, cx.chk, e.cargs) && CapturedEs(e.cargs) <= CapturedE(e)
  {
    hide LamAt, FuncAt, OkEs, CapturedEs, Inv, Live;
    LookupGlobal(k.code, w, env, e.callee.x);
  }

  lemma CallPlaced(k: Act, ls: LS, rty: Ty, none: Instr, some: Instr)
    requires Placed(k, CallCode(ls, rty, none, some).0)
    ensures Placed(k, ls) && Grows(ls, CallCode(ls, rty, none, some).0)
  {
    hide Extends, Linked, CodeIn;
    CallGrows(ls, rty, none, some);
    PlacedEarlier(k, ls, CallCode(ls, rty, none, some).0);
  }

  lemma ExecCall(k: Act, fn: string, args: seq<IVal>, dst: Option<nat>, fr: Frame, heap: seq<HObj>, ms: seq<MVal>)
    requires ValsOf(fr.rg, args) == Some(ms)
    ensures Exec(k.code.ir, ICall(dst, fn, args), fr, k.rest, heap) == Enter(k.code.ir, fn, [] + ms, dst, Cons(Next(fr, fr.rg), k.rest), heap)
  {
    assert [] + ms == ms;
  }

  lemma ExecCallClosure(k: Act, clos: IVal, args: seq<IVal>, dst: Option<nat>, fr: Frame, heap: seq<HObj>, c: MVal,
                        ms: seq<MVal>)
    requires ValsOf(fr.rg, args) == Some(ms) && ValOf(fr.rg, clos) == Some(c) && c.MClo?
    ensures Exec(k.code.ir, ICallClosure(dst, clos, args), fr, k.rest, heap)
         == Enter(k.code.ir, c.fn, [c.env] + ms, dst, Cons(Next(fr, fr.rg), k.rest), heap)
  {
  }

  // The closure and the arguments of a call, all at hand.
  ghost predicate CalleeSim(k: Act, ls: LS, clos: IVal, r: (LS, seq<IVal>), out0: I.Out<I.Value>,
                            out: I.Out<seq<I.Value>>, fuel: nat,
                            w: World, rg: Regs, w2: World, rg2: Regs, mf: MVal, ms: seq<MVal>, n: nat)
  {
    var c := StepN(k.code.ir, At(k, ls.b, rg, w.heap), n);
    if out0.Ok? then
      match out
      case Ok(vs, st) =>
        && w2.st == st && ExprsDone(k, ls, r, w, rg, w2, rg2, ms) && VRels(k.code, w2, vs, ms)
        && ValOf(rg2, clos) == Some(mf) && (out0.v.VClo? ==> mf.MClo? && IsCallee(k.code, w2, out0.v, mf.fn, [mf.env]))
        && c == At(k, r.0.b, rg2, w2.heap)
      case Panic => c == Panicked
      case NoFuel => n >= fuel && c.Run?
      case Err(_) => true
    else if out0.Panic? then c == Panicked
    else if out0.NoFuel? then n >= fuel && c.Run?
    else true
  }

  lemma {:induction false} SimCallee(k: Act, fuel: nat, cx: Cx, ls: LS, vs: Scope, w: World, rg: Regs, env: int,
                                     vars: map<nat, string>, e: Expr, callee: Expr, args: List<Expr>)
    returns (w2: World, rg2: Regs, mf: MVal, ms: seq<MVal>, n: nat)
    requires e.ECall? && callee == e.callee && args == e.cargs
    requires Ready(k, cx, ls, vs, w, rg, env, vars)
    requires Able(k, cx, vs, w, env, CapturedE(callee) + CapturedEs(args), LowerExprs(cx, LowerExpr(cx, ls, vs, callee).0, vs, args).0)
    requires OkE(k.code.src.Keys, vs.Keys, cx.chk, callee) && OkEs(k.code.src.Keys, vs.Keys, cx.chk, args)
    ensures var r0 := LowerExpr(cx, ls, vs, callee);
            var out0 := I.Eval(k.code.prog(), fuel, w.st, env, cx.chk, callee);
            var out := if out0.Ok? then I.EvalAll(k.code.prog(), fuel, out0.st, env, cx.chk, args) else I.Err(I.Mistyped);
            CalleeSim(k, ls, r0.1, LowerExprs(cx, r0.0, vs, args), out0, out, fuel, w, rg, w2, rg2, mf, ms, n)
    decreases fuel, e, 0
  {
    hide StepN, Step, Exec, FuncAt, LamAt, CodeIn, Linked, Extends, Grows, LowerExpr, LowerExprs, OkE, OkEs, CapturedE,
         CapturedEs, I.Eval, I.EvalAll, Inv, VRel, IsCallee;
    var r0 := LowerExpr(cx, ls, vs, callee);
    var r := LowerExprs(cx, r0.0, vs, args);
    ExprsGrows(cx, r0.0, vs, args);
    PlacedEarlier(k, r0.0, r.0);
    ms := [];
    w2, rg2, mf, n := SimExpr(k, fuel, cx, ls, vs, w, rg, env, vars, callee);
    var out0 := I.Eval(k.code.prog(), fuel, w.st, env, cx.chk, callee);
    if out0.Ok? {
      ExprGrows(cx, ls, vs, callee);
      ReadyAfter(k, cx, ls, r0, vs, w, rg, env, vars, w2, rg2, mf);
      SettledAllKept(w, w2, env, CapturedEs(args), vs);
      var w0, rg0, n0 := w2, rg2, n;
      w2, rg2, ms, n := SimExprs(k, fuel, cx, r0.0, vs, w0, rg0, env, vars, args);
      CalleeJoin(k, ls, r0, r, out0.v, I.EvalAll(k.code.prog(), fuel, w0.st, env, cx.chk, args), fuel, w, rg, w0, rg0,
                 mf, n0, w2, rg2, ms, n);
      n := n0 + n;
    }
  }

  lemma CalleeJoin(k: Act, ls: LS, r0: (LS, IVal), r: (LS, seq<IVal>), f: I.Value, out: I.Out<seq<I.Value>>, fuel: nat,
                   w: World, rg: Regs, w0: World, rg0: Regs, mf: MVal, n0: nat, w2: World, rg2: Regs, ms: seq<MVal>, n: nat)
    requires Grows(ls, r0.0) && ExprDone(k, ls, r0, w, rg, w0, rg0, mf) && VRel(k.code, w0, f, mf)
    requires StepN(k.code.ir, At(k, ls.b, rg, w.heap), n0) == At(k, r0.0.b, rg0, w0.heap)
    requires ExprsSim(k, r0.0, r, out, fuel, w0, rg0, w2, rg2, ms, n)
    ensures CalleeSim(k, ls, r0.1, r, I.Ok(f, w0.st), out, fuel, w, rg, w2, rg2, mf, ms, n0 + n)
  {
    hide StepN, Step, FuncAt, LamAt, Grows, Inv, VRel, IsCallee;
    Chain(k.code.ir, At(k, ls.b, rg, w.heap), n0, At(k, r0.0.b, rg0, w0.heap), n);
    if out.Ok? {
      MovesTrans(w, w0, w2, {}, -1, {});
      KeptGrows(ls, r0.0, rg, rg0, rg2);
      SteadyKept(r0.1, rg0, rg2, r0.0.b.tc, r0.0.uq);
      if f.VClo? { CloCallee(k.code, w0, w2, f, mf); }
    }
  }

  // A call through a closure value.
  lemma {:induction false} SimIndirect(k: Act, fuel: nat, cx: Cx, ls: LS, vs: Scope, w: World, rg: Regs, env: int,
                                       vars: map<nat, string>, e: Expr)
    returns (w2: World, rg2: Regs, m: MVal, n: nat)
    requires e.ECall? && !Direct(vs, e) && Ready(k, cx, ls, vs, w, rg, env, vars)
    requires Able(k, cx, vs, w, env, CapturedE(e), LowerExpr(cx, ls, vs, e).0)
    requires OkE(k.code.src.Keys, vs.Keys, cx.chk, e)
    ensures ExprSim(k, ls, LowerExpr(cx, ls, vs, e), I.Eval(k.code.prog(), fuel, w.st, env, cx.chk, e), fuel, w, rg,
                    w2, rg2, m, n)
    decreases fuel, e, 1
  {
    hide StepN, Step, Exec, FuncAt, LamAt, CodeIn, Linked, Extends, Grows, LowerExpr, LowerExprs, OkE, OkEs, CapturedE,
         CapturedEs, I.Eval, I.EvalAll, Inv, CallOut, CallCode, IsCallee, VRel, VRels, Moves, RegsKept, Live, ScopeRel;
    OkCall(k.code.src.Keys, vs, cx.chk, e);
    var args := e.cargs;
    LowerIndirect(cx, ls, vs, e);
    EvalCall(k.code.prog(), fuel, w.st, env, cx.chk, e);
    var r0 := LowerExpr(cx, ls, vs, e.callee);
    var r := LowerExprs(cx, r0.0, vs, args);
    var none, some := ICallClosure(None, r0.1, r.1), ICallClosure(Some(r.0.b.tc), r0.1, r.1);
    CallPlaced(k, r.0, e.rty, none, some);
    var mf, ms;
    w2, rg2, mf, ms, n := SimCallee(k, fuel, cx, ls, vs, w, rg, env, vars, e, e.callee, args);
    m := MUnit;
    var out0 := I.Eval(k.code.prog(), fuel, w.st, env, cx.chk, e.callee);
    if out0.Ok? {
      var out := I.EvalAll(k.code.prog(), fuel, out0.st, env, cx.chk, args);
      if out.Ok? {
        var w1, rg1, n1 := w2, rg2, n;
        ExprGrows(cx, ls, vs, e.callee);
        ExprsGrows(cx, r0.0, vs, args);
        Trans(ls, r0.0, r.0);
        var fn, menv := if mf.MClo? then mf.fn else "", if mf.MClo? then mf.env else MUnit;
        if out0.v.VClo? { ExecCallClosure(k, r0.1, r.1, CallDst(r.0, e.rty), HereFrame(k, r.0.b, rg1), w1.heap, mf, ms); }
        w2, rg2, m, n := SimInvoke(k, fuel, ls, r.0, e.rty, none, some, out0.v, fn, [menv], out.v, ms, w, rg, w1, rg1,
                                   n1, args);
      }
    }
  }

  lemma OkCall(g: set<string>, vs: Scope, chk: bool, e: Expr)
    requires e.ECall? && !Direct(vs, e) && OkE(g, vs.Keys, chk, e)
    ensures OkE(g, vs.Keys, chk, e.callee) && OkEs(g, vs.Keys, chk, e.cargs)
    ensures CapturedE(e) == CapturedE(e.callee) + CapturedEs(e.cargs)
  {
  }

  lemma CloCallee(code: Code, w: World, w1: World, f: I.Value, m: MVal)
    requires f.VClo? && VRel(code, w, f, m) && Moves(w, w1, {}, -1)
    ensures m.MClo? && IsCallee(code, w1, f, m.fn, [m.env])
  {
    hide LamAt, FuncAt;
    VRelKept(code, w, w1, f, m);
  }

  // ----- statements -----

  lemma {:induction false} SimStmts(k: Act, fuel: nat, cx: Cx, ls: LS, vs: Scope, w: World, rg: Regs, env: int,
                                    vars: map<nat, string>, ss: List<Stmt>, loop: bool)
    returns (w2: World, rg2: Regs, m: MVal, n: nat)
    requires Ready(k, cx, ls, vs, w, rg, env, vars) && Placed(k, LowerStmts(cx, ls, vs, ss))
    requires CapturedSs(ss) <= cx.captured && SettledAbove(w, env, CapturedSs(ss), vs) && w.later[env] == Decls(ss)
    requires OkSs(k.code.src.Keys, vs.Keys, cx.chk, loop, ss)
    ensures PlainSim(k, cx, ls, LowerStmts(cx, ls, vs, ss), I.ExecBlock(k.code.prog(), fuel, w.st, env, cx.chk, ss), fuel, env, vars,
                     w, rg, w2, rg2, m, n)
    decreases fuel, ss, 3
  {
    hide StepN, Step, Exec, CodeIn, Linked, Extends, Grows, LowerStmt, OkS, CapturedS, I.Exec, LamAt, FuncAt, Live,
         ScopeRel, Inv, Moves, RegsKept, Evolves, FlowDone;
    w2, rg2, m, n := w, rg, MUnit, 0;
    match ss
    case Nil =>
      FlowRefl(k, ls, cx, vs, vars, w, rg, env);
      NoSteps(k.code.ir, At(k, ls.b, rg, w.heap));
    case Cons(s, rest) =>
      var (ls1, vs1) := LowerStmt(cx, ls, vs, s);
      StmtGrows(cx, ls, vs, s);
      StmtsGrows(cx, ls1, vs1, rest);
      PlacedEarlier(k, ls1, LowerStmts(cx, ls1, vs1, rest));
      ReadyEnv(k, cx, ls, vs, w, rg, env, vars);
      SettleFirst(w, env, vs, s, rest);
      var vars1;
      w2, rg2, vars1, m, n := SimStmt(k, fuel, cx, ls, vs, w, rg, env, vars, s, Decls(rest), loop);
      var out1 := I.Exec(k.code.prog(), fuel, w.st, env, cx.chk, s);
      if out1.Ok? && out1.v.Normal? {
        SettleRest(k, cx, ls, vs, w, w2, env, vars, s, rest, rg, rg2);
        ScopeKeys(cx, ls, vs, s);
        assert vs1.Keys == if s.SLet? then vs.Keys + {s.name} else vs.Keys;
        GrowsCount(ls, ls1);
        var w1, rg1, n1 := w2, rg2, n;
        w2, rg2, m, n := SimStmts(k, fuel, cx, ls1, vs1, w1, rg1, env, vars1, rest, loop);
        PlainJoin(k, cx, cx, ls, ls1, LowerStmts(cx, ls1, vs1, rest), I.ExecBlock(k.code.prog(), fuel, w1.st, env, cx.chk, rest), fuel, fuel, env, env,
                  vars, vars1, w, rg, w1, rg1, n1, w2, rg2, m, n);
        n := n1 + n;
      }
  }

  lemma {:induction false} SimStmt(k: Act, fuel: nat, cx: Cx, ls: LS, vs: Scope, w: World, rg: Regs, env: int,
                                   vars: map<nat, string>, s: Stmt, rest: set<string>, loop: bool)
    returns (w2: World, rg2: Regs, vars2: map<nat, string>, m: MVal, n: nat)
    requires Ready(k, cx, ls, vs, w, rg, env, vars)
    requires Able(k, cx, vs, w, env, CapturedS(s), LowerStmt(cx, ls, vs, s).0)
    requires 0 <= env < |w.later| && w.later[env] == DeclOf(s) + rest
    requires OkS(k.code.src.Keys, vs.Keys, cx.chk, loop, s)
    ensures StmtSim(k, cx, ls, LowerStmt(cx, ls, vs, s), I.Exec(k.code.prog(), fuel, w.st, env, cx.chk, s), fuel, env, vars,
                    DeclOf(s), rest, w, rg, w2, rg2, vars2, m, n)
    decreases fuel, s, 4
  {
    hide StepN, Step, Exec, CodeIn, Linked, Extends, Grows, LowerStmt, OkS, CapturedS, I.Exec, LamAt, FuncAt, Live,
         ScopeRel, Inv, Moves, RegsKept, Evolves, FlowDone;
    if s.SLet? {
      w2, rg2, vars2, m, n := SimLet(k, fuel, cx, ls, vs, w, rg, env, vars, s, rest, loop);
    } else {
      w2, rg2, m, n := SimPlain(k, fuel, cx, ls, vs, w, rg, env, vars, s, loop);
      vars2 := vars;
      StmtGrows(cx, ls, vs, s);
      ScopeSame(cx, ls, vs, s);
      assert DeclOf(s) + rest == rest;
      PlainToStmt(k, cx, ls, LowerStmt(cx, ls, vs, s).0, vs, I.Exec(k.code.prog(), fuel, w.st, env, cx.chk, s), fuel, env, vars,
                  rest, w, rg, w2, rg2, m, n);
    }
  }

  lemma ScopeSame(cx: Cx, ls: LS, vs: Scope, s: Stmt)
    requires !s.SLet?
    ensures LowerStmt(cx, ls, vs, s).1 == vs
  {
    hide LowerExpr, LowerStmts, LowerBranches;
  }

  // ----- let, set, do, return -----

  lemma {:induction false} SimLet(k: Act, fuel: nat, cx: Cx, ls: LS, vs: Scope, w: World, rg: Regs, env: int,
                                  vars: map<nat, string>, s: Stmt, rest: set<string>, loop: bool)
    returns (w2: World, rg2: Regs, vars2: map<nat, string>, m: MVal, n: nat)
    requires s.SLet? && Ready(k, cx, ls, vs, w, rg, env, vars)
    requires Able(k, cx, vs, w, env, CapturedS(s), LowerStmt(cx, ls, vs, s).0)
    requires 0 <= env < |w.later| && w.later[env] == DeclOf(s) + rest
    requires OkS(k.code.src.Keys, vs.Keys, cx.chk, loop, s)
    ensures StmtSim(k, cx, ls, LowerStmt(cx, ls, vs, s), I.Exec(k.code.prog(), fuel, w.st, env, cx.chk, s), fuel, env, vars,
                    DeclOf(s), rest, w, rg, w2, rg2, vars2, m, n)
    decreases fuel, s, 0
  {
    hide StepN, Step, Exec, CodeIn, Linked, Extends, Grows, LowerStmt, OkS, CapturedS, I.Exec, LamAt, FuncAt, Live,
         ScopeRel, Inv, Moves, RegsKept, Evolves, FlowDone, LowerExpr, I.Eval, OkE, CapturedE, BindName;
    LetParts(cx, ls, vs, s, k.code.prog(), fuel, w.st, env, loop);
    var r1 := LowerExpr(cx, ls, vs, s.init);
    var r := BindName(cx, r1.0, s.name, TyOf(s.lty), r1.1);
    ExprGrows(cx, ls, vs, s.init);
    BindNameGrows(cx, r1.0, s.name, TyOf(s.lty), r1.1);
    PlacedEarlier(k, r1.0, r.0);
    w2, rg2, m, n := SimExpr(k, fuel, cx, ls, vs, w, rg, env, vars, s.init);
    vars2 := vars;
    var out := I.Eval(k.code.prog(), fuel, w.st, env, cx.chk, s.init);
    if out.Ok? && I.HasTy(out.v, s.lty) {
      var w1, rg1, n1 := w2, rg2, n;
      ReadyAfter(k, cx, ls, r1, vs, w, rg, env, vars, w1, rg1, m);
      ExprFlow(k, cx, ls, r1, vs, w, rg, env, vars, w1, rg1, m);
      LaterKept(k, ls, r1, w, rg, w1, rg1, m, env);
      w2, rg2, vars2, n := RunBind(k, cx, r1.0, vs, w1, rg1, env, vars, s.name, TyOf(s.lty), r1.1, out.v, m, s.mutable, rest);
      Chain(k.code.ir, At(k, ls.b, rg, w.heap), n1, At(k, r1.0.b, rg1, w1.heap), n);
      n := n1 + n;
      LetFlow(k, ls, r1.0, env, vars, vars2, w, rg, w1, rg1, w2, rg2);
    }
  }

  lemma LetParts(cx: Cx, ls: LS, vs: Scope, s: Stmt, p: I.Program, fuel: nat, st: I.Store, env: int, loop: bool)
    requires s.SLet? && OkS(p.funcs.Keys, vs.Keys, cx.chk, loop, s)
    ensures s.name !in p.funcs && OkE(p.funcs.Keys, vs.Keys, cx.chk, s.init) && CapturedS(s) == CapturedE(s.init)
    ensures var r1 := LowerExpr(cx, ls, vs, s.init);
            var r := BindName(cx, r1.0, s.name, TyOf(s.lty), r1.1);
            LowerStmt(cx, ls, vs, s) == (r.0, vs[s.name := r.1])
    ensures I.Exec(p, fuel, st, env, cx.chk, s) ==
              match I.Eval(p, fuel, st, env, cx.chk, s.init)
              case Ok(v, st1) =>
                if I.HasTy(v, s.lty) && 0 <= env < |st1.envs| then I.Ok(I.Normal, I.Define(st1, env, s.name, v, s.mutable)) else I.Err(I.Mistyped)
              case Panic => I.Panic
              case Err(why) => I.Err(why)
              case NoFuel => I.NoFuel
  {
    hide LowerExpr, I.Eval, OkE, CapturedE, BindName;
  }

  lemma LaterKept(k: Act, ls: LS, r: (LS, IVal), w: World, rg: Regs, w1: World, rg1: Regs, m: MVal, env: int)
    requires ExprDone(k, ls, r, w, rg, w1, rg1, m) && 0 <= env < |w.later|
    ensures env < |w1.later| && w1.later[env] == w.later[env]
    ensures env < |w1.st.envs|
    ensures |w.st.cells| <= |w1.st.cells|
  {
    hide LamAt, FuncAt, Inv;
  }

  lemma LetFlow(k: Act, ls: LS, ls1: LS, env: int, vars: map<nat, string>, vars2: map<nat, string>,
                w: World, rg: Regs, w1: World, rg1: Regs, w2: World, rg2: Regs)
    requires Grows(ls, ls1) && Extended(vars, vars2, |w1.st.cells|, ls1.uq) && |w.st.cells| <= |w1.st.cells|
    requires FlowDone(k, ls, vars, w, rg, w1, rg1, -1) && FlowDone(k, ls1, vars, w1, rg1, w2, rg2, env)
    ensures FlowDone(k, ls, vars, w, rg, w2, rg2, env) && Extended(vars, vars2, |w.st.cells|, ls.uq)
  {
    hide LamAt, FuncAt, Inv, Live, RegsKept;
    GrowsCount(ls, ls1);
    MovesWiden(w, w1, vars.Keys, env);
    FlowTrans(k, ls, ls1, env, env, vars, vars, w, rg, w1, rg1, w2, rg2);
  }

  // Statements that add nothing to the scope.
  lemma {:induction false} SimPlain(k: Act, fuel: nat, cx: Cx, ls: LS, vs: Scope, w: World, rg: Regs, env: int,
                                    vars: map<nat, string>, s: Stmt, loop: bool)
    returns (w2: World, rg2: Regs, m: MVal, n: nat)
    requires !s.SLet? && Ready(k, cx, ls, vs, w, rg, env, vars)
    requires Able(k, cx, vs, w, env, CapturedS(s), LowerStmt(cx, ls, vs, s).0)
    requires OkS(k.code.src.Keys, vs.Keys, cx.chk, loop, s)
    ensures PlainSim(k, cx, ls, LowerStmt(cx, ls, vs, s).0, I.Exec(k.code.prog(), fuel, w.st, env, cx.chk, s), fuel, -1, vars,
                     w, rg, w2, rg2, m, n)
    decreases fuel, s, 3
  {
    hide StepN, Step, Exec, CodeIn, Linked, Extends, Grows, LowerStmt, OkS, CapturedS, I.Exec, LamAt, FuncAt, Live,
         ScopeRel, Inv, Moves, RegsKept, Evolves, FlowDone;
    match s
    case SSet(_, _) => w2, rg2, m, n := SimSet(k, fuel, cx, ls, vs, w, rg, env, vars, s, loop);
    case SDo(_) => w2, rg2, m, n := SimDo(k, fuel, cx, ls, vs, w, rg, env, vars, s, loop);
    case SReturn(_) => w2, rg2, m, n := SimReturn(k, fuel, cx, ls, vs, w, rg, env, vars, s, loop);
    case SIf(_, _) => w2, rg2, m, n := SimIf(k, fuel, cx, ls, vs, w, rg, env, vars, s, loop);
    case SWhile(_, _) => w2, rg2, m, n := SimWhile(k, fuel, cx, ls, vs, w, rg, env, vars, s, loop);
    case SForNum(_, _, _, _, _, _) => w2, rg2, m, n := SimFor(k, fuel, cx, ls, vs, w, rg, env, vars, s, loop);
    case SLoop(_) => w2, rg2, m, n := SimLoop(k, fuel, cx, ls, vs, w, rg, env, vars, s, loop);
    case SChecked(_) => w2, rg2, m, n := SimChecked(k, fuel, cx, ls, vs, w, rg, env, vars, s, loop);
    case SBreak => w2, rg2, m, n := SimJump(k, fuel, cx, ls, vs, w, rg, env, vars, s);
    case SContinue => w2, rg2, m, n := SimJump(k, fuel, cx, ls, vs, w, rg, env, vars, s);
    case SPass => w2, rg2, m, n := SimJump(k, fuel, cx, ls, vs, w, rg, env, vars, s);
    case SReturnNone => w2, rg2, m, n := SimJump(k, fuel, cx, ls, vs, w, rg, env, vars, s);
  }

  // The statements without parts.
  lemma SimJump(k: Act, fuel: nat, cx: Cx, ls: LS, vs: Scope, w: World, rg: Regs, env: int, vars: map<nat, string>,
                s: Stmt)
    returns (w2: World, rg2: Regs, m: MVal, n: nat)
    requires s.SBreak? || s.SContinue? || s.SPass? || s.SReturnNone?
    requires Ready(k, cx, ls, vs, w, rg, env, vars) && Placed(k, LowerStmt(cx, ls, vs, s).0)
    ensures PlainSim(k, cx, ls, LowerStmt(cx, ls, vs, s).0, I.Exec(k.code.prog(), fuel, w.st, env, cx.chk, s), fuel, -1, vars,
                     w, rg, w2, rg2, m, n)
  {
    hide LowerStmt, I.Exec, Exec, Leave, CodeOk, LowerExpr, I.Eval, StepN, Step, CodeIn, Linked, LamAt, FuncAt, Live,
         ScopeRel, Inv, Moves, RegsKept, FlowDone;
    w2, rg2, m, n := w, rg, MUnit, if s.SPass? then 0 else 1;
    JumpParts(k, cx, ls, vs, w, rg, env, s, fuel);
    FlowRefl(k, ls, cx, vs, vars, w, rg, env);
    NoSteps(k.code.ir, At(k, ls.b, rg, w.heap));
    OneMore(k.code.ir, At(k, ls.b, rg, w.heap), 0, At(k, ls.b, rg, w.heap));
    match s
    case SBreak => RunJump(k, ls, Top(cx.brk), rg, w.heap);
    case SContinue => RunJump(k, ls, Top(cx.cont), rg, w.heap);
    case SReturnNone =>
      FetchPlaced(k, ls, IRet(ImmUnit), rg, w.heap);
      FlowParts(k, ls, vars, w, rg, w, rg, -1);
    case SPass =>
  }

  lemma JumpParts(k: Act, cx: Cx, ls: LS, vs: Scope, w: World, rg: Regs, env: int, s: Stmt, fuel: nat)
    requires s.SBreak? || s.SContinue? || s.SPass? || s.SReturnNone?
    ensures LowerStmt(cx, ls, vs, s).0 ==
              match s
              case SBreak => Put(ls, IBr(Top(cx.brk)))
              case SContinue => Put(ls, IBr(Top(cx.cont)))
              case SReturnNone => Put(ls, IRet(ImmUnit))
              case _ => ls
    ensures I.Exec(k.code.prog(), fuel, w.st, env, cx.chk, s) ==
              match s
              case SBreak => I.Ok(I.Break, w.st)
              case SContinue => I.Ok(I.Continue, w.st)
              case SReturnNone => I.Ok(I.Return(I.VUnit), w.st)
              case _ => I.Ok(I.Normal, w.st)
    ensures Exec(k.code.ir, IRet(ImmUnit), HereFrame(k, ls.b, rg), k.rest, w.heap) == Leave(MUnit, k.dst, k.rest, w.heap)
  {
  }

  lemma FlowParts(k: Act, ls: LS, vars: map<nat, string>, w: World, rg: Regs, w2: World, rg2: Regs, env: int)
    requires FlowDone(k, ls, vars, w, rg, w2, rg2, env)
    ensures Inv(k.code, w2) && Moves(w, w2, vars.Keys, env)
  {
    hide LamAt, FuncAt, Inv, Moves, Live, RegsKept;
  }

  lemma {:induction false} SimSet(k: Act, fuel: nat, cx: Cx, ls: LS, vs: Scope, w: World, rg: Regs, env: int,
                                  vars: map<nat, string>, s: Stmt, loop: bool)
    returns (w2: World, rg2: Regs, m: MVal, n: nat)
    requires s.SSet? && Ready(k, cx, ls, vs, w, rg, env, vars)
    requires Able(k, cx, vs, w, env, CapturedS(s), LowerStmt(cx, ls, vs, s).0)
    requires OkS(k.code.src.Keys, vs.Keys, cx.chk, loop, s)
    ensures PlainSim(k, cx, ls, LowerStmt(cx, ls, vs, s).0, I.Exec(k.code.prog(), fuel, w.st, env, cx.chk, s), fuel, -1, vars,
                     w, rg, w2, rg2, m, n)
    decreases fuel, s, 0
  {
    hide StepN, Step, Exec, CodeIn, Linked, Extends, Grows, LowerStmt, OkS, CapturedS, I.Exec, LamAt, FuncAt, Live,
         ScopeRel, Inv, Moves, RegsKept, Evolves, FlowDone, LowerExpr, I.Eval, OkE, CapturedE, SetCode;
    SetParts(cx, ls, vs, s, k.code.prog(), fuel, w.st, env, loop);
    var r1 := LowerExpr(cx, ls, vs, s.rhs);
    ExprGrows(cx, ls, vs, s.rhs);
    var ins := SetCode(vs, s.target, r1.1);
    PutGrows(r1.0, ins);
    PlacedEarlier(k, r1.0, Put(r1.0, ins));
    w2, rg2, m, n := SimExpr(k, fuel, cx, ls, vs, w, rg, env, vars, s.rhs);
    var out := I.Eval(k.code.prog(), fuel, w.st, env, cx.chk, s.rhs);
    if out.Ok? && I.Assign(out.st, env, s.target, out.v).Ok? {
      var w1, rg1 := w2, rg2;
      ReadyAfter(k, cx, ls, r1, vs, w, rg, env, vars, w1, rg1, m);
      ExprFlow(k, cx, ls, r1, vs, w, rg, env, vars, w1, rg1, m);
      w2, rg2 := RunAssign(k, cx, r1.0, vs, w1, rg1, env, vars, s.target, r1.1, out.v, m);
      FetchPlaced(k, r1.0, ins, rg1, w1.heap);
      OneMore(k.code.ir, At(k, ls.b, rg, w.heap), n, At(k, r1.0.b, rg1, w1.heap));
      n := n + 1;
      GrowsCount(ls, r1.0);
      FlowTrans(k, ls, r1.0, -1, -1, vars, vars, w, rg, w1, rg1, w2, rg2);
    }
  }

  lemma SetParts(cx: Cx, ls: LS, vs: Scope, s: Stmt, p: I.Program, fuel: nat, st: I.Store, env: int, loop: bool)
    requires s.SSet? && OkS(p.funcs.Keys, vs.Keys, cx.chk, loop, s)
    ensures s.target in vs && OkE(p.funcs.Keys, vs.Keys, cx.chk, s.rhs) && CapturedS(s) == CapturedE(s.rhs)
    ensures var r1 := LowerExpr(cx, ls, vs, s.rhs);
            LowerStmt(cx, ls, vs, s).0 == Put(r1.0, SetCode(vs, s.target, r1.1)) && !IsTerminator(SetCode(vs, s.target, r1.1))
    ensures I.Exec(p, fuel, st, env, cx.chk, s) ==
              match I.Eval(p, fuel, st, env, cx.chk, s.rhs)
              case Ok(v, st1) => I.Assign(st1, env, s.target, v)
              case Panic => I.Panic
              case Err(why) => I.Err(why)
              case NoFuel => I.NoFuel
    ensures forall st1, v :: I.Assign(st1, env, s.target, v).Ok? || I.Assign(st1, env, s.target, v).Err?
  {
    hide LowerExpr, I.Eval, OkE, CapturedE;
  }

  lemma {:induction false} SimDo(k: Act, fuel: nat, cx: Cx, ls: LS, vs: Scope, w: World, rg: Regs, env: int,
                                 vars: map<nat, string>, s: Stmt, loop: bool)
    returns (w2: World, rg2: Regs, m: MVal, n: nat)
    requires s.SDo? && Ready(k, cx, ls, vs, w, rg, env, vars)
    requires Able(k, cx, vs, w, env, CapturedS(s), LowerStmt(cx, ls, vs, s).0)
    requires OkS(k.code.src.Keys, vs.Keys, cx.chk, loop, s)
    ensures PlainSim(k, cx, ls, LowerStmt(cx, ls, vs, s).0, I.Exec(k.code.prog(), fuel, w.st, env, cx.chk, s), fuel, -1, vars,
                     w, rg, w2, rg2, m, n)
    decreases fuel, s, 0
  {
    hide StepN, Step, Exec, CodeIn, Linked, Extends, Grows, LowerStmt, OkS, CapturedS, I.Exec, LamAt, FuncAt, Live,
         ScopeRel, Inv, Moves, RegsKept, Evolves, FlowDone, LowerExpr, I.Eval, OkE, CapturedE;
    DoParts(cx, ls, vs, s, k.code.prog(), fuel, w.st, env, loop);
    w2, rg2, m, n := SimExpr(k, fuel, cx, ls, vs, w, rg, env, vars, s.e);
    if I.Eval(k.code.prog(), fuel, w.st, env, cx.chk, s.e).Ok? {
      ExprFlow(k, cx, ls, LowerExpr(cx, ls, vs, s.e), vs, w, rg, env, vars, w2, rg2, m);
    }
  }

  lemma DoParts(cx: Cx, ls: LS, vs: Scope, s: Stmt, p: I.Program, fuel: nat, st: I.Store, env: int, loop: bool)
    requires s.SDo? && OkS(p.funcs.Keys, vs.Keys, cx.chk, loop, s)
    ensures OkE(p.funcs.Keys, vs.Keys, cx.chk, s.e) && CapturedS(s) == CapturedE(s.e)
    ensures LowerStmt(cx, ls, vs, s).0 == LowerExpr(cx, ls, vs, s.e).0
    ensures I.Exec(p, fuel, st, env, cx.chk, s) ==
              match I.Eval(p, fuel, st, env, cx.chk, s.e)
              case Ok(_, st1) => I.Ok(I.Normal, st1)
              case Panic => I.Panic
              case Err(why) => I.Err(why)
              case NoFuel => I.NoFuel
  {
    hide LowerExpr, I.Eval, OkE, CapturedE;
  }

  lemma {:induction false} SimReturn(k: Act, fuel: nat, cx: Cx, ls: LS, vs: Scope, w: World, rg: Regs, env: int,
                                     vars: map<nat, string>, s: Stmt, loop: bool)
    returns (w2: World, rg2: Regs, m: MVal, n: nat)
    requires s.SReturn? && Ready(k, cx, ls, vs, w, rg, env, vars)
    requires Able(k, cx, vs, w, env, CapturedS(s), LowerStmt(cx, ls, vs, s).0)
    requires OkS(k.code.src.Keys, vs.Keys, cx.chk, loop, s)
    ensures PlainSim(k, cx, ls, LowerStmt(cx, ls, vs, s).0, I.Exec(k.code.prog(), fuel, w.st, env, cx.chk, s), fuel, -1, vars,
                     w, rg, w2, rg2, m, n)
    decreases fuel, s, 0
  {
    hide StepN, Step, CodeIn, Linked, Extends, Grows, LowerStmt, OkS, CapturedS, I.Exec, LamAt, FuncAt, Live, ScopeRel,
         Inv, Moves, RegsKept, Evolves, FlowDone, LowerExpr, I.Eval, OkE, CapturedE;
    ReturnParts(cx, ls, vs, s, k.code.prog(), fuel, w.st, env, loop);
    var r1 := LowerExpr(cx, ls, vs, s.value);
    PutGrows(r1.0, IRet(r1.1));
    PlacedEarlier(k, r1.0, Put(r1.0, IRet(r1.1)));
    w2, rg2, m, n := SimExpr(k, fuel, cx, ls, vs, w, rg, env, vars, s.value);
    if I.Eval(k.code.prog(), fuel, w.st, env, cx.chk, s.value).Ok? {
      ExprFlow(k, cx, ls, r1, vs, w, rg, env, vars, w2, rg2, m);
      FlowParts(k, ls, vars, w, rg, w2, rg2, -1);
      FetchPlaced(k, r1.0, IRet(r1.1), rg2, w2.heap);
      OneMore(k.code.ir, At(k, ls.b, rg, w.heap), n, At(k, r1.0.b, rg2, w2.heap));
      n := n + 1;
    }
  }

  lemma ReturnParts(cx: Cx, ls: LS, vs: Scope, s: Stmt, p: I.Program, fuel: nat, st: I.Store, env: int, loop: bool)
    requires s.SReturn? && OkS(p.funcs.Keys, vs.Keys, cx.chk, loop, s)
    ensures OkE(p.funcs.Keys, vs.Keys, cx.chk, s.value) && CapturedS(s) == CapturedE(s.value)
    ensures var r1 := LowerExpr(cx, ls, vs, s.value); LowerStmt(cx, ls, vs, s).0 == Put(r1.0, IRet(r1.1))
    ensures I.Exec(p, fuel, st, env, cx.chk, s) ==
              match I.Eval(p, fuel, st, env, cx.chk, s.value)
              case Ok(v, st1) => I.Ok(I.Return(v), st1)
              case Panic => I.Panic
              case Err(why) => I.Err(why)
              case NoFuel => I.NoFuel
  {
    hide LowerExpr, I.Eval, OkE, CapturedE;
  }

  // ----- blocks -----

  // A block in an environment of its own.
  lemma {:induction false} SimInner(k: Act, fuel: nat, cx: Cx, ls: LS, vs: Scope, w: World, rg: Regs, env: int,
                                    vars: map<nat, string>, ss: List<Stmt>, loop: bool)
    returns (w2: World, rg2: Regs, m: MVal, n: nat)
    requires Ready(k, cx, ls, vs, w, rg, env, vars)
    requires Able(k, cx, vs, w, env, CapturedSs(ss), LowerStmts(cx, ls, vs, ss))
    requires OkSs(k.code.src.Keys, vs.Keys, cx.chk, loop, ss)
    ensures PlainSim(k, cx, ls, LowerStmts(cx, ls, vs, ss), I.ExecInner(k.code.prog(), fuel, w.st, env, cx.chk, ss), fuel, -1, vars,
                     w, rg, w2, rg2, m, n)
    decreases fuel, ss, 4
  {
    hide StepN, Step, Exec, CodeIn, Linked, Extends, Grows, LowerStmts, OkSs, CapturedSs, I.ExecBlock, LamAt, FuncAt,
         Live, ScopeRel, Inv, Moves, RegsKept, Evolves, FlowDone, Decls;
    EnterInner(k, cx, ls, vs, w, rg, env, vars, CapturedSs(ss), Decls(ss));
    var w1, e := Inside(w, env, Decls(ss)), |w.st.envs|;
    w2, rg2, m, n := SimStmts(k, fuel, cx, ls, vs, w1, rg, e, vars, ss, loop);
    NoSteps(k.code.ir, At(k, ls.b, rg, w.heap));
    PlainJoin(k, cx, cx, ls, ls, LowerStmts(cx, ls, vs, ss), I.ExecBlock(k.code.prog(), fuel, w1.st, e, cx.chk, ss), fuel, fuel, -1, e,
              vars, vars, w, rg, w1, rg, 0, w2, rg2, m, n);
  }

  lemma {:induction false} SimChecked(k: Act, fuel: nat, cx: Cx, ls: LS, vs: Scope, w: World, rg: Regs, env: int,
                                      vars: map<nat, string>, s: Stmt, loop: bool)
    returns (w2: World, rg2: Regs, m: MVal, n: nat)
    requires s.SChecked? && Ready(k, cx, ls, vs, w, rg, env, vars)
    requires Able(k, cx, vs, w, env, CapturedS(s), LowerStmt(cx, ls, vs, s).0)
    requires OkS(k.code.src.Keys, vs.Keys, cx.chk, loop, s)
    ensures PlainSim(k, cx, ls, LowerStmt(cx, ls, vs, s).0, I.Exec(k.code.prog(), fuel, w.st, env, cx.chk, s), fuel, -1, vars,
                     w, rg, w2, rg2, m, n)
    decreases fuel, s, 0
  {
    hide StepN, Step, Exec, CodeIn, Linked, Extends, Grows, LowerStmt, LowerStmts, OkS, OkSs, CapturedS, CapturedSs,
         I.Exec, I.ExecInner, LamAt, FuncAt, Live, ScopeRel, Inv, Moves, RegsKept, Evolves, FlowDone;
    var cx1 := cx.(chk := true);
    CheckedParts(cx, ls, vs, s, k.code.prog(), fuel, w.st, env, loop);
    w2, rg2, m, n := SimInner(k, fuel, cx1, ls, vs, w, rg, env, vars, s.body, loop);
  }

  lemma CheckedParts(cx: Cx, ls: LS, vs: Scope, s: Stmt, p: I.Program, fuel: nat, st: I.Store, env: int, loop: bool)
    requires s.SChecked? && OkS(p.funcs.Keys, vs.Keys, cx.chk, loop, s)
    ensures OkSs(p.funcs.Keys, vs.Keys, true, loop, s.body) && CapturedS(s) == CapturedSs(s.body)
    ensures LowerStmt(cx, ls, vs, s).0 == LowerStmts(cx.(chk := true), ls, vs, s.body)
    ensures I.Exec(p, fuel, st, env, cx.chk, s) == I.ExecInner(p, fuel, st, env, true, s.body)
  {
    hide LowerStmts, I.ExecInner, OkSs, CapturedSs;
  }

  // ----- conditions -----

  // A condition and the branch on it: which label control arrives at.
  ghost predicate CondSim(k: Act, ls: LS, tl: string, fl: string, out: I.Out<I.Value>, fuel: nat,
                          vars: map<nat, string>,
                          w: World, rg: Regs, w2: World, rg2: Regs, n: nat)
  {
    var c := StepN(k.code.ir, At(k, ls.b, rg, w.heap), n);
    match out
    case Ok(v, st) => v.VBool? ==>
      w2.st == st && FlowDone(k, ls, vars, w, rg, w2, rg2, -1) && c == AtLabel(k, if v.b then tl else fl, rg2, w2.heap) && n >= 1
    case Panic => c == Panicked
    case NoFuel => n >= fuel && c.Run?
    case Err(_) => true
  }

  lemma {:induction false} SimCond(k: Act, fuel: nat, cx: Cx, ls: LS, vs: Scope, w: World, rg: Regs, env: int,
                                   vars: map<nat, string>, e: Expr, ls2: LS, tl: string, fl: string)
    returns (w2: World, rg2: Regs, n: nat)
    requires Ready(k, cx, ls, vs, w, rg, env, vars)
    requires var r1 := LowerExpr(cx, ls, vs, e);
             Relabelled(r1.0, ls2) && Able(k, cx, vs, w, env, CapturedE(e), Put(ls2, ICondBr(r1.1, tl, fl)))
    requires OkE(k.code.src.Keys, vs.Keys, cx.chk, e)
    ensures CondSim(k, ls, tl, fl, I.Eval(k.code.prog(), fuel, w.st, env, cx.chk, e), fuel, vars, w, rg, w2, rg2, n)
    decreases fuel, e, 3
  {
    hide StepN, Step, CodeIn, Linked, Extends, Grows, LamAt, FuncAt, Live, ScopeRel, Inv, Moves, RegsKept, Evolves,
         FlowDone, LowerExpr, I.Eval, OkE, CapturedE;
    var r1 := LowerExpr(cx, ls, vs, e);
    var br := ICondBr(r1.1, tl, fl);
    RelabelGrows(r1.0, ls2, br);
    PlacedEarlier(k, r1.0, Put(ls2, br));
    var m;
    w2, rg2, m, n := SimExpr(k, fuel, cx, ls, vs, w, rg, env, vars, e);
    var out := I.Eval(k.code.prog(), fuel, w.st, env, cx.chk, e);
    if out.Ok? && out.v.VBool? {
      ExprFlow(k, cx, ls, r1, vs, w, rg, env, vars, w2, rg2, m);
      FetchPlaced(k, ls2, br, rg2, w2.heap);
      assert At(k, r1.0.b, rg2, w2.heap) == At(k, ls2.b, rg2, w2.heap);
      OneMore(k.code.ir, At(k, ls.b, rg, w.heap), n, At(k, ls2.b, rg2, w2.heap));
      JumpIsLabel(k, HereFrame(k, ls2.b, rg2), if out.v.b then tl else fl, rg2, w2.heap);
      n := n + 1;
    }
  }

  // ----- if -----

  function FlowOut(out: I.Out<Option<I.Flow>>): I.Out<I.Flow> {
    match out
    case Ok(Some(f), st) => I.Ok(f, st)
    case Ok(None, st) => I.Ok(I.Normal, st)
    case Panic => I.Panic
    case Err(why) => I.Err(why)
    case NoFuel => I.NoFuel
  }

  // No branch taken: control is after the last test; else a branch ran.
  ghost predicate BranchesSim(k: Act, cx: Cx, ls: LS, after: LS, endl: string, out: I.Out<Option<I.Flow>>, fuel: nat,
                              vars: map<nat, string>, w: World, rg: Regs, w2: World, rg2: Regs, m: MVal, n: nat)
  {
    if out.Ok? && out.v.None? then PlainSim(k, cx, ls, after, FlowOut(out), fuel, -1, vars, w, rg, w2, rg2, m, n)
    else JoinSim(k, cx, ls, At(k, ls.b, rg, w.heap), endl, FlowOut(out), fuel, vars, w, rg, w2, rg2, m, n)
  }

  // One branch: test and then-block (up to its jump), then the block of the next test.
  function BranchCode(cx: Cx, ls: LS, vs: Scope, br: Branch, endl: string): (LS, LS, LS, string, string) {
    var (ls1, c) := LowerExpr(cx, ls, vs, br.cond);
    var (ls2, thenl) := Lbl(ls1, "then");
    var (ls3, elsl) := Lbl(ls2, "else");
    var ls4 := Block0(Put(ls3, ICondBr(c, thenl, elsl)), thenl);
    var ls5 := FallTo(LowerStmts(cx, ls4, vs, br.bbody), endl);
    (ls3, ls4, Block0(ls5, elsl), thenl, elsl)
  }

  lemma BranchPlaced(k: Act, cx: Cx, ls: LS, vs: Scope, br: Branch, rest: List<Branch>, endl: string)
    requires Placed(k, LowerBranches(cx, ls, vs, Cons(br, rest), endl))
    ensures var (ls3, ls4, ls6, thenl, elsl) := BranchCode(cx, ls, vs, br, endl);
            var r1 := LowerExpr(cx, ls, vs, br.cond);
            var body := LowerStmts(cx, ls4, vs, br.bbody);
            && LowerBranches(cx, ls, vs, Cons(br, rest), endl) == LowerBranches(cx, ls6, vs, rest, endl)
            && Relabelled(r1.0, ls3) && ls4 == Block0(Put(ls3, ICondBr(r1.1, thenl, elsl)), thenl)
            && Placed(k, Put(ls3, ICondBr(r1.1, thenl, elsl))) && Placed(k, ls4)
            && Placed(k, body) && Placed(k, FallTo(body, endl)) && ls6 == Block0(FallTo(body, endl), elsl) && Placed(k, ls6)
            && Grows(ls, ls4) && Grows(ls, ls6)
  {
    hide Extends, Grows, LowerExpr, LowerStmts, CodeIn, Linked, FallTo, Placed;
    var (ls3, ls4, ls6, thenl, elsl) := BranchCode(cx, ls, vs, br, endl);
    var r1 := LowerExpr(cx, ls, vs, br.cond);
    var body := LowerStmts(cx, ls4, vs, br.bbody);
    var put := Put(ls3, ICondBr(r1.1, thenl, elsl));
    ExprGrows(cx, ls, vs, br.cond);
    RelabelGrows(r1.0, ls3, ICondBr(r1.1, thenl, elsl));
    BlockGrows(put, thenl);
    StmtsGrows(cx, ls4, vs, br.bbody);
    FallGrows(body, endl, elsl);
    BlockGrows(FallTo(body, endl), elsl);
    BranchesGrow(cx, ls6, vs, rest, endl);
    var after := LowerBranches(cx, ls6, vs, rest, endl);
    PlacedEarlier(k, ls6, after);
    PlacedEarlier(k, FallTo(body, endl), ls6);
    PlacedEarlier(k, body, FallTo(body, endl));
    PlacedEarlier(k, ls4, body);
    PlacedEarlier(k, put, ls4);
    Trans(ls, r1.0, put);
    Trans(ls, put, ls4);
    Trans(ls, ls4, body);
    Trans(ls, body, ls6);
  }

  function Taken(b: I.Out<I.Flow>): I.Out<Option<I.Flow>> {
    match b
    case Ok(flow, st) => I.Ok(Some(flow), st)
    case Panic => I.Panic
    case Err(why) => I.Err(why)
    case NoFuel => I.NoFuel
  }

  lemma EvalBranches(p: I.Program, fuel: nat, st: I.Store, env: int, chk: bool, br: Branch, rest: List<Branch>)
    ensures var o := I.Eval(p, fuel, st, env, chk, br.cond);
            var r := I.ExecBranches(p, fuel, st, env, chk, Cons(br, rest));
            if !o.Ok? then r == (if o.Panic? then I.Panic else if o.NoFuel? then I.NoFuel else I.Err(o.why))
            else if !o.v.VBool? then r.Err?
            else if !o.v.b then r == I.ExecBranches(p, fuel, o.st, env, chk, rest)
            else r == Taken(I.ExecInner(p, fuel, o.st, env, chk, br.bbody))
  {
    hide I.Eval, I.ExecInner;
  }

  lemma OkBranch(g: set<string>, vs: Scope, cx: Cx, loop: bool, br: Branch, rest: List<Branch>)
    requires OkBs(g, vs.Keys, cx.chk, loop, Cons(br, rest))
    ensures OkE(g, vs.Keys, cx.chk, br.cond) && OkSs(g, vs.Keys, cx.chk, loop, br.bbody) && OkBs(g, vs.Keys, cx.chk, loop, rest)
    ensures CapturedBs(Cons(br, rest)) == CapturedE(br.cond) + CapturedSs(br.bbody) + CapturedBs(rest)
  {
    hide OkE, OkSs, CapturedE, CapturedSs;
  }

  lemma {:induction false} SimBranches(k: Act, fuel: nat, cx: Cx, ls: LS, vs: Scope, w: World, rg: Regs, env: int,
                                       vars: map<nat, string>, bs: List<Branch>, endl: string, loop: bool)
    returns (w2: World, rg2: Regs, m: MVal, n: nat)
    requires Ready(k, cx, ls, vs, w, rg, env, vars)
    requires Able(k, cx, vs, w, env, CapturedBs(bs), LowerBranches(cx, ls, vs, bs, endl))
    requires OkBs(k.code.src.Keys, vs.Keys, cx.chk, loop, bs)
    ensures BranchesSim(k, cx, ls, LowerBranches(cx, ls, vs, bs, endl), endl, I.ExecBranches(k.code.prog(), fuel, w.st, env, cx.chk, bs),
                        fuel, vars, w, rg, w2, rg2, m, n)
    decreases fuel, bs, 3
  {
    hide StepN, Step, Exec, CodeIn, Linked, Extends, Grows, LowerExpr, LowerStmts, OkE, OkSs, OkBs, CapturedE,
         CapturedSs, CapturedBs, I.Eval, I.ExecInner, LamAt, FuncAt, Live, ScopeRel, Inv, Moves, RegsKept, Evolves,
         FlowDone, BranchCode, Relabelled, FallTo, LowerBranches, I.ExecBranches, BranchesSim;
    w2, rg2, m, n := w, rg, MUnit, 0;
    match bs
    case Nil =>
      NoBranches(k, cx, ls, vs, endl, fuel, w, rg, env, vars);
    case Cons(br, rest) =>
      var (ls3, ls4, ls6, thenl, elsl) := BranchCode(cx, ls, vs, br, endl);
      var r1 := LowerExpr(cx, ls, vs, br.cond);
      BranchPlaced(k, cx, ls, vs, br, rest, endl);
      EvalBranches(k.code.prog(), fuel, w.st, env, cx.chk, br, rest);
      OkBranch(k.code.src.Keys, vs, cx, loop, br, rest);
      var o := I.ExecBranches(k.code.prog(), fuel, w.st, env, cx.chk, bs);
      w2, rg2, n := SimCond(k, fuel, cx, ls, vs, w, rg, env, vars, br.cond, ls3, thenl, elsl);
      var out := I.Eval(k.code.prog(), fuel, w.st, env, cx.chk, br.cond);
      if out.Ok? && out.v.VBool? {
        var w1, rg1, n1 := w2, rg2, n;
        if out.v.b {
          w2, rg2, m, n := SimThen(k, fuel, cx, ls, ls3, ls4, vs, w, rg, w1, rg1, n1, env, vars, br, r1.1, thenl, elsl,
                                   endl, loop);
          BranchTaken(k, cx, ls, LowerBranches(cx, ls, vs, bs, endl), endl,
                      I.ExecInner(k.code.prog(), fuel, w1.st, env, cx.chk, br.bbody), fuel, vars, w, rg, w2, rg2, m, n);
        } else {
          SettledFlow(k, ls, w, rg, w1, rg1, env, vars, CapturedBs(rest), vs);
          OpenAt(k, cx, ls, ls6, FallTo(LowerStmts(cx, ls4, vs, br.bbody), endl), elsl, vs, w, rg, w1, rg1, n1, env, vars);
          w2, rg2, m, n := SimBranches(k, fuel, cx, ls6, vs, w1, rg1, env, vars, rest, endl, loop);
          BranchesJoin(k, cx, ls, ls6, LowerBranches(cx, ls6, vs, rest, endl), endl, o, fuel, vars, w, rg, w1, rg1, n1,
                       w2, rg2, m, n);
          n := n1 + n;
        }
      } else {
        BranchStuck(k, cx, ls, LowerBranches(cx, ls, vs, bs, endl), endl, out, o, fuel, vars, w, rg, w2, rg2, m, n,
                    thenl, elsl);
      }
  }

  // Control at a label, in the block it opens.
  lemma OpenAt(k: Act, cx: Cx, ls: LS, ls2: LS, last: LS, l: string, vs: Scope, w: World, rg: Regs, w1: World,
               rg1: Regs, n1: nat,
               env: int, vars: map<nat, string>)
    requires Ready(k, cx, ls, vs, w, rg, env, vars) && FlowDone(k, ls, vars, w, rg, w1, rg1, -1)
    requires StepN(k.code.ir, At(k, ls.b, rg, w.heap), n1) == AtLabel(k, l, rg1, w1.heap)
    requires ls2 == Block0(last, l) && Placed(k, ls2) && Grows(ls, ls2)
    ensures Ready(k, cx, ls2, vs, w1, rg1, env, vars) && Counts(ls, ls2)
    ensures StepN(k.code.ir, At(k, ls.b, rg, w.heap), n1) == At(k, ls2.b, rg1, w1.heap)
  {
    hide StepN, Step, CodeIn, Linked, Extends, Grows, LamAt, FuncAt, Live, ScopeRel, Inv, FlowDone;
    LabelOpen(k, last, l, rg1, w1.heap);
    GrowsCount(ls, ls2);
    ReadyFlow(k, cx, cx, ls, ls2, vs, w, rg, env, vars, w1, rg1);
  }

  lemma BranchTaken(k: Act, cx: Cx, ls: LS, after: LS, endl: string, out: I.Out<I.Flow>, fuel: nat,
                    vars: map<nat, string>, w: World, rg: Regs, w2: World, rg2: Regs, m: MVal, n: nat)
    requires JoinSim(k, cx, ls, At(k, ls.b, rg, w.heap), endl, out, fuel, vars, w, rg, w2, rg2, m, n)
    ensures BranchesSim(k, cx, ls, after, endl, Taken(out), fuel, vars, w, rg, w2, rg2, m, n)
  {
    hide StepN, LamAt, FuncAt, FlowDone, JoinSim, PlainSim;
    assert FlowOut(Taken(out)) == out;
  }

  // The test itself ends the run.
  lemma BranchStuck(k: Act, cx: Cx, ls: LS, after: LS, endl: string, out: I.Out<I.Value>, o: I.Out<Option<I.Flow>>,
                    fuel: nat,
                    vars: map<nat, string>, w: World, rg: Regs, w2: World, rg2: Regs, m: MVal, n: nat, tl: string, fl: string)
    requires CondSim(k, ls, tl, fl, out, fuel, vars, w, rg, w2, rg2, n) && !(out.Ok? && out.v.VBool?)
    requires if out.Panic? then o.Panic? else if out.NoFuel? then o.NoFuel? else o.Err?
    ensures BranchesSim(k, cx, ls, after, endl, o, fuel, vars, w, rg, w2, rg2, m, n)
  {
    hide StepN, LamAt, FuncAt, FlowDone;
  }

  lemma NoBranches(k: Act, cx: Cx, ls: LS, vs: Scope, endl: string, fuel: nat, w: World, rg: Regs, env: int,
                   vars: map<nat, string>)
    requires Ready(k, cx, ls, vs, w, rg, env, vars)
    ensures BranchesSim(k, cx, ls, LowerBranches(cx, ls, vs, Nil, endl), endl, I.ExecBranches(k.code.prog(), fuel, w.st, env, cx.chk, Nil),
                        fuel, vars, w, rg, w, rg, MUnit, 0)
  {
    hide StepN, Step, LamAt, FuncAt, Live, ScopeRel, Inv, FlowDone;
    FlowRefl(k, ls, cx, vs, vars, w, rg, env);
    NoSteps(k.code.ir, At(k, ls.b, rg, w.heap));
  }

  lemma BranchesJoin(k: Act, cx: Cx, ls: LS, ls1: LS, after: LS, endl: string, out: I.Out<Option<I.Flow>>, fuel: nat,
                     vars: map<nat, string>, w: World, rg: Regs, w1: World, rg1: Regs, n1: nat, w2: World, rg2: Regs, m: MVal, n: nat)
    requires Counts(ls, ls1) && FlowDone(k, ls, vars, w, rg, w1, rg1, -1)
    requires StepN(k.code.ir, At(k, ls.b, rg, w.heap), n1) == At(k, ls1.b, rg1, w1.heap)
    requires BranchesSim(k, cx, ls1, after, endl, out, fuel, vars, w1, rg1, w2, rg2, m, n)
    ensures BranchesSim(k, cx, ls, after, endl, out, fuel, vars, w, rg, w2, rg2, m, n1 + n)
  {
    hide StepN, Step, LamAt, FuncAt, FlowDone, JoinSim, PlainSim;
    if out.Ok? && out.v.None? {
      PlainJoin(k, cx, cx, ls, ls1, after, FlowOut(out), fuel, fuel, -1, -1, vars, vars, w, rg, w1, rg1, n1, w2, rg2, m, n);
    } else {
      JoinJoin(k, cx, cx, ls, ls1, At(k, ls.b, rg, w.heap), At(k, ls1.b, rg1, w1.heap), endl, FlowOut(out), fuel, fuel, vars,
               w, rg, w1, rg1, n1, w2, rg2, m, n);
    }
  }

  // The branch taken, from its label to the end label.
  lemma {:induction false} SimThen(k: Act, fuel: nat, cx: Cx, ls: LS, ls3: LS, ls4: LS, vs: Scope, w: World, rg: Regs,
                                   w1: World, rg1: Regs, n1: nat, env: int, vars: map<nat, string>, br: Branch, c: IVal,
                                   thenl: string, elsl: string, endl: string, loop: bool)
    returns (w2: World, rg2: Regs, m: MVal, n: nat)
    requires Ready(k, cx, ls, vs, w, rg, env, vars) && FlowDone(k, ls, vars, w, rg, w1, rg1, -1)
    requires StepN(k.code.ir, At(k, ls.b, rg, w.heap), n1) == AtLabel(k, thenl, rg1, w1.heap)
    requires ls4 == Block0(Put(ls3, ICondBr(c, thenl, elsl)), thenl) && Grows(ls, ls4) && Placed(k, ls4)
    requires Able(k, cx, vs, w, env, CapturedSs(br.bbody), LowerStmts(cx, ls4, vs, br.bbody))
    requires Placed(k, FallTo(LowerStmts(cx, ls4, vs, br.bbody), endl))
    requires OkSs(k.code.src.Keys, vs.Keys, cx.chk, loop, br.bbody)
    ensures JoinSim(k, cx, ls, At(k, ls.b, rg, w.heap), endl, I.ExecInner(k.code.prog(), fuel, w1.st, env, cx.chk, br.bbody), fuel, vars,
                    w, rg, w2, rg2, m, n)
    decreases fuel, br, 3
  {
    hide StepN, Step, Exec, CodeIn, Linked, Extends, Grows, LowerStmts, OkSs, CapturedSs, I.ExecInner, LamAt, FuncAt,
         Live, ScopeRel, Inv, Moves, RegsKept, Evolves, FlowDone, FallTo;
    OpenAt(k, cx, ls, ls4, Put(ls3, ICondBr(c, thenl, elsl)), thenl, vs, w, rg, w1, rg1, n1, env, vars);
    SettledFlow(k, ls, w, rg, w1, rg1, env, vars, CapturedSs(br.bbody), vs);
    w2, rg2, m, n := SimInner(k, fuel, cx, ls4, vs, w1, rg1, env, vars, br.bbody, loop);
    var out := I.ExecInner(k.code.prog(), fuel, w1.st, env, cx.chk, br.bbody);
    n := FallSim(k, cx, ls4, LowerStmts(cx, ls4, vs, br.bbody), endl, out, fuel, vars, w1, rg1, w2, rg2, m, n);
    JoinJoin(k, cx, cx, ls, ls4, At(k, ls.b, rg, w.heap), At(k, ls4.b, rg1, w1.heap), endl, out, fuel, fuel, vars,
             w, rg, w1, rg1, n1, w2, rg2, m, n);
    n := n1 + n;
  }

  lemma {:induction false} SimIf(k: Act, fuel: nat, cx: Cx, ls: LS, vs: Scope, w: World, rg: Regs, env: int,
                                 vars: map<nat, string>, s: Stmt, loop: bool)
    returns (w2: World, rg2: Regs, m: MVal, n: nat)
    requires s.SIf? && Ready(k, cx, ls, vs, w, rg, env, vars)
    requires Able(k, cx, vs, w, env, CapturedS(s), LowerStmt(cx, ls, vs, s).0)
    requires OkS(k.code.src.Keys, vs.Keys, cx.chk, loop, s)
    ensures PlainSim(k, cx, ls, LowerStmt(cx, ls, vs, s).0, I.Exec(k.code.prog(), fuel, w.st, env, cx.chk, s), fuel, -1, vars,
                     w, rg, w2, rg2, m, n)
    decreases fuel, s, 0
  {
    hide StepN, Step, Exec, CodeIn, Linked, Extends, Grows, LowerStmt, LowerStmts, LowerBranches, OkS, OkSs, OkBs,
         CapturedS, CapturedSs, CapturedBs, I.Exec, I.ExecInner, I.ExecBranches, LamAt, FuncAt, Live, ScopeRel, Inv,
         Moves, RegsKept, Evolves, FlowDone, FallTo, BranchesSim, IfCode;
    var (ls1, ls2, ls3, endl) := IfCode(cx, ls, vs, s);
    IfParts(k, cx, ls, vs, s, fuel, w.st, env, loop);
    var c0 := At(k, ls.b, rg, w.heap);
    assert c0 == At(k, ls1.b, rg, w.heap);
    ReadyMore(k, cx, ls, ls1, vs, w, rg, env, vars);
    w2, rg2, m, n := SimBranches(k, fuel, cx, ls1, vs, w, rg, env, vars, s.branches, endl, loop);
    var out := I.ExecBranches(k.code.prog(), fuel, w.st, env, cx.chk, s.branches);
    if out.Ok? && out.v.None? {
      var w1, rg1, n1 := w2, rg2, n;
      NoneTaken(k, cx, ls1, ls2, endl, out, fuel, vars, w, rg, w1, rg1, m, n1);
      GrowsCount(ls1, ls2);
      ReadyFlow(k, cx, cx, ls1, ls2, vs, w, rg, env, vars, w1, rg1);
      SettledFlow(k, ls1, w, rg, w1, rg1, env, vars, CapturedSs(s.orelse), vs);
      w2, rg2, m, n := SimInner(k, fuel, cx, ls2, vs, w1, rg1, env, vars, s.orelse, loop);
      var o := I.ExecInner(k.code.prog(), fuel, w1.st, env, cx.chk, s.orelse);
      n := FallSim(k, cx, ls2, ls3, endl, o, fuel, vars, w1, rg1, w2, rg2, m, n);
      JoinJoin(k, cx, cx, ls1, ls2, c0, At(k, ls2.b, rg1, w1.heap), endl, o, fuel, fuel, vars, w, rg, w1, rg1, n1, w2,
               rg2, m, n);
      n := n1 + n;
    } else {
      SomeTaken(k, cx, ls1, ls2, endl, out, fuel, vars, w, rg, w2, rg2, m, n);
    }
    var res := I.Exec(k.code.prog(), fuel, w.st, env, cx.chk, s);
    JoinToPlain(k, cx, ls1, FallTo(ls3, endl), endl, res, fuel, vars, w, rg, w2, rg2, m, n);
    PlainRelabel(k, cx, ls, ls1, Block0(FallTo(ls3, endl), endl), res, fuel, vars, w, rg, w2, rg2, m, n);
  }

  // An if: after its label, after the branches, after the else, and the label.
  function IfCode(cx: Cx, ls: LS, vs: Scope, s: Stmt): (LS, LS, LS, string)
    requires s.SIf?
  {
    var (ls1, endl) := Lbl(ls, "if_end");
    var ls2 := LowerBranches(cx, ls1, vs, s.branches, endl);
    (ls1, ls2, LowerStmts(cx, ls2, vs, s.orelse), endl)
  }

  lemma IfParts(k: Act, cx: Cx, ls: LS, vs: Scope, s: Stmt, fuel: nat, st: I.Store, env: int, loop: bool)
    requires s.SIf? && OkS(k.code.src.Keys, vs.Keys, cx.chk, loop, s) && Placed(k, LowerStmt(cx, ls, vs, s).0)
    ensures var (ls1, ls2, ls3, endl) := IfCode(cx, ls, vs, s);
            && LowerStmt(cx, ls, vs, s).0 == Block0(FallTo(ls3, endl), endl)
            && ls2 == LowerBranches(cx, ls1, vs, s.branches, endl) && ls3 == LowerStmts(cx, ls2, vs, s.orelse)
            && Placed(k, ls2) && Placed(k, ls3) && Placed(k, FallTo(ls3, endl))
            && Relabelled(ls, ls1) && Grows(ls1, ls2)
    ensures OkBs(k.code.src.Keys, vs.Keys, cx.chk, loop, s.branches) && OkSs(k.code.src.Keys, vs.Keys, cx.chk, loop, s.orelse)
    ensures CapturedS(s) == CapturedBs(s.branches) + CapturedSs(s.orelse)
    ensures var b := I.ExecBranches(k.code.prog(), fuel, st, env, cx.chk, s.branches);
            I.Exec(k.code.prog(), fuel, st, env, cx.chk, s) ==
              if b.Ok? && b.v.None? then I.ExecInner(k.code.prog(), fuel, b.st, env, cx.chk, s.orelse) else FlowOut(b)
  {
    hide Extends, Grows, LowerStmts, LowerBranches, CodeIn, Linked, FallTo, OkSs, OkBs, CapturedSs, CapturedBs,
         I.ExecInner, I.ExecBranches;
    var (ls1, ls2, ls3, endl) := IfCode(cx, ls, vs, s);
    BranchesGrow(cx, ls1, vs, s.branches, endl);
    StmtsGrows(cx, ls2, vs, s.orelse);
    FallGrows(ls3, endl, endl);
    BlockGrows(FallTo(ls3, endl), endl);
    PlacedEarlier(k, FallTo(ls3, endl), Block0(FallTo(ls3, endl), endl));
    PlacedEarlier(k, ls3, FallTo(ls3, endl));
    PlacedEarlier(k, ls2, ls3);
  }

  lemma NoneTaken(k: Act, cx: Cx, ls: LS, after: LS, endl: string, out: I.Out<Option<I.Flow>>, fuel: nat,
                  vars: map<nat, string>, w: World, rg: Regs, w2: World, rg2: Regs, m: MVal, n: nat)
    requires BranchesSim(k, cx, ls, after, endl, out, fuel, vars, w, rg, w2, rg2, m, n) && out.Ok? && out.v.None?
    ensures w2.st == out.st && FlowDone(k, ls, vars, w, rg, w2, rg2, -1) && !CurTerminated(after.b)
    ensures StepN(k.code.ir, At(k, ls.b, rg, w.heap), n) == At(k, after.b, rg2, w2.heap)
  {
    hide StepN, LamAt, FuncAt, FlowDone;
  }

  lemma SomeTaken(k: Act, cx: Cx, ls: LS, after: LS, endl: string, out: I.Out<Option<I.Flow>>, fuel: nat,
                  vars: map<nat, string>, w: World, rg: Regs, w2: World, rg2: Regs, m: MVal, n: nat)
    requires BranchesSim(k, cx, ls, after, endl, out, fuel, vars, w, rg, w2, rg2, m, n) && !(out.Ok? && out.v.None?)
    ensures JoinSim(k, cx, ls, At(k, ls.b, rg, w.heap), endl, FlowOut(out), fuel, vars, w, rg, w2, rg2, m, n)
  {
    hide StepN, LamAt, FuncAt, FlowDone, JoinSim;
  }

  // Drawing labels and names leaves the position alone.
  lemma ReadyMore(k: Act, cx: Cx, ls: LS, ls1: LS, vs: Scope, w: World, rg: Regs, env: int, vars: map<nat, string>)
    requires Ready(k, cx, ls, vs, w, rg, env, vars) && Counts(ls, ls1) && !CurTerminated(ls1.b)
    ensures Ready(k, cx, ls1, vs, w, rg, env, vars)
  {
    hide LamAt, FuncAt, Live, ScopeRel, Inv, FlowDone;
    FlowRefl(k, ls, cx, vs, vars, w, rg, env);
    ReadyFlow(k, cx, cx, ls, ls1, vs, w, rg, env, vars, w, rg);
  }

  lemma PlainRelabel(k: Act, cx: Cx, ls: LS, ls1: LS, after: LS, out: I.Out<I.Flow>, fuel: int, vars: map<nat, string>,
                     w: World, rg: Regs, w2: World, rg2: Regs, m: MVal, n: nat)
    requires Relabelled(ls, ls1) && PlainSim(k, cx, ls1, after, out, fuel, -1, vars, w, rg, w2, rg2, m, n)
    ensures PlainSim(k, cx, ls, after, out, fuel, -1, vars, w, rg, w2, rg2, m, n)
  {
    hide StepN, Step, LamAt, FuncAt, Live, Inv, Moves, RegsKept;
    assert At(k, ls.b, rg, w.heap) == At(k, ls1.b, rg, w.heap);
  }

  // ----- loops -----

  // The body of a loop, from the block it starts in to the jump that follows.
  lemma {:induction false} SimLoopBody(k: Act, fuel: nat, cx: Cx, ls: LS, ls4: LS, last: LS, bodyl: string, vs: Scope,
                                       w: World, rg: Regs,
                                       w1: World, rg1: Regs, n1: nat, env: int, vars: map<nat, string>, body: List<Stmt>,
                                       endl: string, again: string)
    returns (w2: World, rg2: Regs, m: MVal, n: nat)
    requires Ready(k, cx, ls, vs, w, rg, env, vars) && FlowDone(k, ls, vars, w, rg, w1, rg1, -1)
    requires StepN(k.code.ir, At(k, ls.b, rg, w.heap), n1) == AtLabel(k, bodyl, rg1, w1.heap)
    requires ls4 == Block0(last, bodyl) && Placed(k, ls4) && Grows(ls, ls4)
    requires Able(k, cx, vs, w, env, CapturedSs(body), LowerStmts(InLoop(cx, endl, again), ls4, vs, body))
    requires Placed(k, FallTo(LowerStmts(InLoop(cx, endl, again), ls4, vs, body), again))
    requires OkSs(k.code.src.Keys, vs.Keys, cx.chk, true, body)
    ensures BodySim(k, ls, At(k, ls.b, rg, w.heap), endl, again, I.ExecInner(k.code.prog(), fuel, w1.st, env, cx.chk, body), fuel + n1, -1,
                    vars, w, rg, w2, rg2, m, n)
    ensures n >= n1
    decreases fuel, body, 5
  {
    hide StepN, Step, Exec, CodeIn, Linked, Extends, Grows, LowerStmts, OkSs, CapturedSs, I.ExecInner, LamAt, FuncAt,
         Live, ScopeRel, Inv, Moves, RegsKept, Evolves, FlowDone, FallTo;
    var cx1 := InLoop(cx, endl, again);
    OpenAt(k, cx, ls, ls4, last, bodyl, vs, w, rg, w1, rg1, n1, env, vars);
    SettledFlow(k, ls, w, rg, w1, rg1, env, vars, CapturedSs(body), vs);
    ReadyCx(k, cx, cx1, ls4, vs, w1, rg1, env, vars);
    w2, rg2, m, n := SimInner(k, fuel, cx1, ls4, vs, w1, rg1, env, vars, body, true);
    var out := I.ExecInner(k.code.prog(), fuel, w1.st, env, cx.chk, body);
    n := PlainToBody(k, cx, ls4, LowerStmts(cx1, ls4, vs, body), endl, again, out, fuel, -1, vars, w1, rg1, w2, rg2, m, n);
    BodyJoin(k, ls, ls4, At(k, ls.b, rg, w.heap), At(k, ls4.b, rg1, w1.heap), endl, again, out, fuel + n1, fuel, -1, vars, vars,
             w, rg, w1, rg1, n1, w2, rg2, m, n);
    n := n1 + n;
  }

  lemma ReadyCx(k: Act, cx: Cx, cx1: Cx, ls: LS, vs: Scope, w: World, rg: Regs, env: int, vars: map<nat, string>)
    requires Ready(k, cx, ls, vs, w, rg, env, vars) && cx1.mod == cx.mod && cx1.captured == cx.captured
    ensures Ready(k, cx1, ls, vs, w, rg, env, vars)
  {
    hide LamAt, FuncAt, Live, ScopeRel, Inv;
  }

  // The body ends the loop.
  lemma BodyEnds(k: Act, cx: Cx, ls: LS, c0: Conf, endl: string, again: string, out: I.Out<I.Flow>, res: I.Out<I.Flow>,
                 fuel: int,
                 vars: map<nat, string>, w: World, rg: Regs, w2: World, rg2: Regs, m: MVal, n: nat)
    requires BodySim(k, ls, c0, endl, again, out, fuel, -1, vars, w, rg, w2, rg2, m, n)
    requires out.Ok? ==> out.v.Break? || out.v.Return?
    requires if out.Ok? && out.v.Break? then res == I.Ok(I.Normal, out.st) else res == out
    ensures JoinSim(k, cx, ls, c0, endl, res, fuel, vars, w, rg, w2, rg2, m, n)
  {
    hide StepN, LamAt, FuncAt, FlowDone, Inv, Moves;
    if out.Ok? {
      match out.v
      case Break =>
      case Return(_) =>
    }
  }

  // The body goes on, so control is back at the head's block.
  lemma BodyAgain(k: Act, cx: Cx, ls: LS, last: LS, head: string, vs: Scope, env: int, endl: string,
                  out: I.Out<I.Flow>, fuel: int,
                  vars: map<nat, string>, w: World, rg: Regs, w2: World, rg2: Regs, m: MVal, n: nat)
    requires Ready(k, cx, ls, vs, w, rg, env, vars) && ls == Block0(last, head) && Placed(k, ls)
    requires BodySim(k, ls, At(k, ls.b, rg, w.heap), endl, head, out, fuel, -1, vars, w, rg, w2, rg2, m, n)
    requires out.Ok? && (out.v.Normal? || out.v.Continue?)
    ensures Ready(k, cx, ls, vs, w2, rg2, env, vars) && FlowDone(k, ls, vars, w, rg, w2, rg2, -1) && w2.st == out.st && n >= 1
    ensures StepN(k.code.ir, At(k, ls.b, rg, w.heap), n) == At(k, ls.b, rg2, w2.heap)
  {
    hide StepN, LamAt, FuncAt, FlowDone, Inv, Moves, Live, ScopeRel, CodeIn, Linked;
    LabelOpen(k, last, head, rg2, w2.heap);
    ReadyFlow(k, cx, cx, ls, ls, vs, w, rg, env, vars, w2, rg2);
  }

  // A while loop: head state, after the condition, body block, after the body.
  function WhileCode(cx: Cx, ls: LS, vs: Scope, s: Stmt): (LS, LS, LS, string, string, string)
    requires s.SWhile?
  {
    var (ls0, head, bodyl, endl) := WhileLabels(ls);
    var (ls1, c) := LowerExpr(cx, ls0, vs, s.cond);
    var ls2 := Block0(Put(ls1, ICondBr(c, bodyl, endl)), bodyl);
    (ls0, ls2, LowerStmts(InLoop(cx, endl, head), ls2, vs, s.body), head, bodyl, endl)
  }

  lemma WhileParts(k: Act, cx: Cx, ls: LS, vs: Scope, s: Stmt, loop: bool)
    requires s.SWhile? && OkS(k.code.src.Keys, vs.Keys, cx.chk, loop, s) && Placed(k, LowerStmt(cx, ls, vs, s).0)
    ensures var (ls0, ls2, ls3, head, bodyl, endl) := WhileCode(cx, ls, vs, s);
            var r1 := LowerExpr(cx, ls0, vs, s.cond);
            && LowerStmt(cx, ls, vs, s).0 == Block0(FallTo(ls3, head), endl)
            && ls2 == Block0(Put(r1.0, ICondBr(r1.1, bodyl, endl)), bodyl) && ls3 == LowerStmts(InLoop(cx, endl, head), ls2, vs, s.body)
            && Placed(k, Put(r1.0, ICondBr(r1.1, bodyl, endl))) && Placed(k, ls2) && Placed(k, ls3) && Placed(k, FallTo(ls3, head))
            && Placed(k, ls0) && Grows(ls0, ls2) && Grows(ls, ls0)
    ensures OkE(k.code.src.Keys, vs.Keys, cx.chk, s.cond) && OkSs(k.code.src.Keys, vs.Keys, cx.chk, true, s.body)
    ensures CapturedS(s) == CapturedE(s.cond) + CapturedSs(s.body)
  {
    hide Extends, Grows, LowerExpr, LowerStmts, CodeIn, Linked, FallTo, OkSs, OkE, CapturedSs, CapturedE, WhileLabels;
    var (ls0, ls2, ls3, head, bodyl, endl) := WhileCode(cx, ls, vs, s);
    var r1 := LowerExpr(cx, ls0, vs, s.cond);
    var put := Put(r1.0, ICondBr(r1.1, bodyl, endl));
    WhileLabelsGrow(ls);
    ExprGrows(cx, ls0, vs, s.cond);
    PutGrows(r1.0, ICondBr(r1.1, bodyl, endl));
    BlockGrows(put, bodyl);
    StmtsGrows(InLoop(cx, endl, head), ls2, vs, s.body);
    FallGrows(ls3, head, endl);
    BlockGrows(FallTo(ls3, head), endl);
    PlacedEarlier(k, FallTo(ls3, head), Block0(FallTo(ls3, head), endl));
    PlacedEarlier(k, ls3, FallTo(ls3, head));
    PlacedEarlier(k, ls2, ls3);
    PlacedEarlier(k, put, ls2);
    PlacedEarlier(k, r1.0, put);
    PlacedEarlier(k, ls0, r1.0);
    Trans(ls0, r1.0, put);
    Trans(ls0, put, ls2);
  }

  lemma EvalWhile(p: I.Program, fuel: nat, st: I.Store, env: int, chk: bool, s: Stmt)
    requires s.SWhile?
    ensures var o := I.Eval(p, fuel, st, env, chk, s.cond);
            var r := I.ExecWhile(p, fuel, st, env, chk, s);
            if !o.Ok? then r == (if o.Panic? then I.Panic else if o.NoFuel? then I.NoFuel else I.Err(o.why))
            else if !o.v.VBool? then r.Err?
            else if !o.v.b then r == I.Ok(I.Normal, o.st)
            else if fuel == 0 then r.NoFuel?
            else
              var b := I.ExecInner(p, fuel - 1, o.st, env, chk, s.body);
              if b.Ok? && (b.v.Normal? || b.v.Continue?) then r == I.ExecWhile(p, fuel - 1, b.st, env, chk, s)
              else if b.Ok? && b.v.Break? then r == I.Ok(I.Normal, b.st)
              else r == b
    ensures I.Exec(p, fuel, st, env, chk, s) == I.ExecWhile(p, fuel, st, env, chk, s)
  {
    hide I.Eval, I.ExecInner;
  }

  lemma {:induction false} SimWhileLoop(k: Act, fuel: nat, cx: Cx, ls: LS, last: LS, ls0: LS, vs: Scope, w: World,
                                        rg: Regs, env: int,
                                        vars: map<nat, string>, s: Stmt, loop: bool)
    returns (w2: World, rg2: Regs, m: MVal, n: nat)
    requires s.SWhile? && OkS(k.code.src.Keys, vs.Keys, cx.chk, loop, s)
    requires var (l0, ls2, ls3, head, bodyl, endl) := WhileCode(cx, ls, vs, s); ls0 == l0 == Block0(last, head)
    requires Ready(k, cx, ls0, vs, w, rg, env, vars)
    requires Able(k, cx, vs, w, env, CapturedS(s), LowerStmt(cx, ls, vs, s).0)
    ensures JoinSim(k, cx, ls0, At(k, ls0.b, rg, w.heap), WhileCode(cx, ls, vs, s).5, I.ExecWhile(k.code.prog(), fuel, w.st, env, cx.chk, s),
                    fuel, vars, w, rg, w2, rg2, m, n)
    decreases fuel, s, 0
  {
    hide StepN, Step, Exec, CodeIn, Linked, Extends, Grows, LowerStmt, LowerStmts, LowerExpr, OkS, OkSs, OkE, CapturedS,
         CapturedSs, CapturedE, I.Exec, I.ExecInner, I.Eval, I.ExecWhile, LamAt, FuncAt, Live, ScopeRel, Inv, Moves,
         RegsKept, Evolves, FlowDone, FallTo, WhileCode, CondSim, BodySim, JoinSim;
    var (l0, ls2, ls3, head, bodyl, endl) := WhileCode(cx, ls, vs, s);
    WhileParts(k, cx, ls, vs, s, loop);
    EvalWhile(k.code.prog(), fuel, w.st, env, cx.chk, s);
    var r1 := LowerExpr(cx, ls0, vs, s.cond);
    var put := Put(r1.0, ICondBr(r1.1, bodyl, endl));
    var c0 := At(k, ls0.b, rg, w.heap);
    w2, rg2, n := SimCond(k, fuel, cx, ls0, vs, w, rg, env, vars, s.cond, r1.0, bodyl, endl);
    m := MUnit;
    var out := I.Eval(k.code.prog(), fuel, w.st, env, cx.chk, s.cond);
    var res := I.ExecWhile(k.code.prog(), fuel, w.st, env, cx.chk, s);
    if out.Ok? && out.v.VBool? && out.v.b && fuel > 0 {
      var w1, rg1, n1 := w2, rg2, n;
      CondTrue(k, ls0, bodyl, endl, out, fuel, vars, w, rg, w1, rg1, n1);
      w2, rg2, m, n := SimLoopBody(k, fuel - 1, cx, ls0, ls2, put, bodyl, vs, w, rg, w1, rg1, n1, env, vars, s.body,
                                   endl, head);
      var b := I.ExecInner(k.code.prog(), fuel - 1, w1.st, env, cx.chk, s.body);
      if b.Ok? && (b.v.Normal? || b.v.Continue?) {
        var w3, rg3, n3 := w2, rg2, n;
        BodyAgain(k, cx, ls0, last, head, vs, env, endl, b, fuel - 1 + n1, vars, w, rg, w3, rg3, m, n3);
        SettledFlow(k, ls0, w, rg, w3, rg3, env, vars, CapturedS(s), vs);
        w2, rg2, m, n := SimWhileLoop(k, fuel - 1, cx, ls, last, ls0, vs, w3, rg3, env, vars, s, loop);
        JoinJoin(k, cx, cx, ls0, ls0, c0, At(k, ls0.b, rg3, w3.heap), endl, res, fuel, fuel - 1, vars, w, rg, w3, rg3,
                 n3, w2, rg2, m, n);
        n := n3 + n;
      } else {
        BodyEnds(k, cx, ls0, c0, endl, head, b, res, fuel - 1 + n1, vars, w, rg, w2, rg2, m, n);
        JoinFuel(k, cx, ls0, c0, endl, res, fuel - 1 + n1, fuel, vars, w, rg, w2, rg2, m, n);
      }
    } else {
      CondStops(k, cx, ls0, put, bodyl, endl, out, res, fuel, vars, w, rg, w2, rg2, m, n);
    }
  }

  lemma JoinFuel(k: Act, cx: Cx, ls: LS, c0: Conf, endl: string, out: I.Out<I.Flow>, fuel: int, fuel2: int,
                 vars: map<nat, string>,
                 w: World, rg: Regs, w2: World, rg2: Regs, m: MVal, n: nat)
    requires JoinSim(k, cx, ls, c0, endl, out, fuel, vars, w, rg, w2, rg2, m, n) && fuel2 <= fuel
    ensures JoinSim(k, cx, ls, c0, endl, out, fuel2, vars, w, rg, w2, rg2, m, n)
  {
    hide StepN, LamAt, FuncAt, FlowDone, Inv, Moves;
  }

  lemma CondTrue(k: Act, ls: LS, tl: string, fl: string, out: I.Out<I.Value>, fuel: nat, vars: map<nat, string>,
                 w: World, rg: Regs, w2: World, rg2: Regs, n: nat)
    requires CondSim(k, ls, tl, fl, out, fuel, vars, w, rg, w2, rg2, n) && out.Ok? && out.v == I.VBool(true)
    ensures w2.st == out.st && FlowDone(k, ls, vars, w, rg, w2, rg2, -1) && n >= 1
    ensures StepN(k.code.ir, At(k, ls.b, rg, w.heap), n) == AtLabel(k, tl, rg2, w2.heap)
  {
    hide StepN, LamAt, FuncAt, FlowDone;
  }

  // The condition ends the loop, or there is no fuel for another round.
  lemma CondStops(k: Act, cx: Cx, ls: LS, put: LS, tl: string, fl: string, out: I.Out<I.Value>, res: I.Out<I.Flow>,
                  fuel: nat,
                  vars: map<nat, string>, w: World, rg: Regs, w2: World, rg2: Regs, m: MVal, n: nat)
    requires CondSim(k, ls, tl, fl, out, fuel, vars, w, rg, w2, rg2, n)
    requires ActOk(k) && Placed(k, Block0(put, tl))
    requires if !out.Ok? then res == (if out.Panic? then I.Panic else if out.NoFuel? then I.NoFuel else I.Err(out.why))
             else if !out.v.VBool? then res.Err?
             else if !out.v.b then res == I.Ok(I.Normal, out.st)
             else fuel == 0 && res.NoFuel?
    ensures JoinSim(k, cx, ls, At(k, ls.b, rg, w.heap), fl, res, fuel, vars, w, rg, w2, rg2, m, n)
  {
    hide StepN, LamAt, FuncAt, FlowDone, CodeIn, Linked;
    LabelOpen(k, put, tl, rg2, w2.heap);
  }

  lemma {:induction false} SimWhile(k: Act, fuel: nat, cx: Cx, ls: LS, vs: Scope, w: World, rg: Regs, env: int,
                                    vars: map<nat, string>, s: Stmt, loop: bool)
    returns (w2: World, rg2: Regs, m: MVal, n: nat)
    requires s.SWhile? && Ready(k, cx, ls, vs, w, rg, env, vars)
    requires Able(k, cx, vs, w, env, CapturedS(s), LowerStmt(cx, ls, vs, s).0)
    requires OkS(k.code.src.Keys, vs.Keys, cx.chk, loop, s)
    ensures PlainSim(k, cx, ls, LowerStmt(cx, ls, vs, s).0, I.Exec(k.code.prog(), fuel, w.st, env, cx.chk, s), fuel, -1, vars,
                     w, rg, w2, rg2, m, n)
    decreases fuel, s, 1
  {
    hide StepN, Step, Exec, CodeIn, Linked, Extends, Grows, LowerStmt, LowerStmts, LowerExpr, OkS, OkSs, OkE, CapturedS,
         CapturedSs, CapturedE, I.Exec, I.ExecInner, I.Eval, I.ExecWhile, LamAt, FuncAt, Live, ScopeRel, Inv, Moves,
         RegsKept, Evolves, FlowDone, FallTo, WhileCode, JoinSim;
    var (ls0, ls2, ls3, head, bodyl, endl) := WhileCode(cx, ls, vs, s);
    WhileParts(k, cx, ls, vs, s, loop);
    EvalWhile(k.code.prog(), fuel, w.st, env, cx.chk, s);
    var last := WhileHead(cx, ls, vs, s);
    var rg1, n1 := rg, 1;
    OpenHead(k, cx, ls, last, ls0, head, vs, w, rg, env, vars);
    w2, rg2, m, n := SimWhileLoop(k, fuel, cx, ls, last, ls0, vs, w, rg, env, vars, s, loop);
    var res := I.ExecWhile(k.code.prog(), fuel, w.st, env, cx.chk, s);
    JoinJoin(k, cx, cx, ls, ls0, At(k, ls.b, rg, w.heap), At(k, ls0.b, rg, w.heap), endl, res, fuel, fuel, vars, w, rg,
             w, rg, 1, w2, rg2, m, n);
    n := 1 + n;
    JoinToPlain(k, cx, ls, FallTo(ls3, head), endl, res, fuel, vars, w, rg, w2, rg2, m, n);
  }

  lemma WhileHead(cx: Cx, ls: LS, vs: Scope, s: Stmt) returns (last: LS)
    requires s.SWhile?
    ensures var (ls0, ls2, ls3, head, bodyl, endl) := WhileCode(cx, ls, vs, s); ls0 == Block0(last, head) && JumpsTo(ls, last, head)
  {
    hide LowerExpr, LowerStmts;
    var (ls1, head) := Lbl(ls, "while_head");
    var (ls2, bodyl) := Lbl(ls1, "while_body");
    var (ls3, endl) := Lbl(ls2, "while_end");
    last := Put(ls3, IBr(head));
  }

  // Into a loop's head block.
  lemma OpenHead(k: Act, cx: Cx, ls: LS, last: LS, ls0: LS, head: string, vs: Scope, w: World, rg: Regs, env: int,
                 vars: map<nat, string>)
    requires Ready(k, cx, ls, vs, w, rg, env, vars) && ls0 == Block0(last, head) && Placed(k, ls0) && JumpsTo(ls, last, head)
    ensures Ready(k, cx, ls0, vs, w, rg, env, vars) && Counts(ls, ls0) && FlowDone(k, ls, vars, w, rg, w, rg, -1)
    ensures StepN(k.code.ir, At(k, ls.b, rg, w.heap), 1) == At(k, ls0.b, rg, w.heap)
  {
    hide StepN, Step, CodeIn, Linked, Extends, LamAt, FuncAt, Live, ScopeRel, Inv, FlowDone;
    var ls1 :| Relabelled(ls, ls1) && last == Put(ls1, IBr(head));
    BlockGrows(last, head);
    PlacedEarlier(k, last, ls0);
    RelabelGrows(ls, ls1, IBr(head));
    Trans(ls, last, ls0);
    RunJump(k, ls1, head, rg, w.heap);
    assert At(k, ls.b, rg, w.heap) == At(k, ls1.b, rg, w.heap);
    NoSteps(k.code.ir, At(k, ls.b, rg, w.heap));
    OneMore(k.code.ir, At(k, ls.b, rg, w.heap), 0, At(k, ls.b, rg, w.heap));
    FlowRefl(k, ls, cx, vs, vars, w, rg, env);
    OpenAt(k, cx, ls, ls0, last, head, vs, w, rg, w, rg, 1, env, vars);
  }

  // ----- loop -----

  function LoopCode(cx: Cx, ls: LS, vs: Scope, s: Stmt): (LS, LS, LS, string, string)
    requires s.SLoop?
  {
    var (ls1, head) := Lbl(ls, "loop_head");
    var (ls2, endl) := Lbl(ls1, "loop_end");
    var last := Put(ls2, IBr(head));
    var ls0 := Block0(last, head);
    (last, ls0, LowerStmts(InLoop(cx, endl, head), ls0, vs, s.body), head, endl)
  }

  lemma LoopParts(k: Act, cx: Cx, ls: LS, vs: Scope, s: Stmt, loop: bool)
    requires s.SLoop? && OkS(k.code.src.Keys, vs.Keys, cx.chk, loop, s) && Placed(k, LowerStmt(cx, ls, vs, s).0)
    ensures var (last, ls0, ls3, head, endl) := LoopCode(cx, ls, vs, s);
            && LowerStmt(cx, ls, vs, s).0 == Block0(FallTo(ls3, head), endl)
            && ls0 == Block0(last, head) && JumpsTo(ls, last, head) && ls3 == LowerStmts(InLoop(cx, endl, head), ls0, vs, s.body)
            && Placed(k, ls0) && Placed(k, ls3) && Placed(k, FallTo(ls3, head)) && Grows(ls0, ls0)
    ensures OkSs(k.code.src.Keys, vs.Keys, cx.chk, true, s.body) && CapturedS(s) == CapturedSs(s.body)
  {
    hide Extends, Grows, LowerStmts, CodeIn, Linked, FallTo, OkSs, CapturedSs;
    var (last, ls0, ls3, head, endl) := LoopCode(cx, ls, vs, s);
    StmtsGrows(InLoop(cx, endl, head), ls0, vs, s.body);
    FallGrows(ls3, head, endl);
    BlockGrows(FallTo(ls3, head), endl);
    GrowsRefl(ls0);
    PlacedEarlier(k, FallTo(ls3, head), Block0(FallTo(ls3, head), endl));
    PlacedEarlier(k, ls3, FallTo(ls3, head));
    PlacedEarlier(k, ls0, ls3);
    var ls2 := Lbl(Lbl(ls, "loop_head").0, "loop_end").0;
    assert Relabelled(ls, ls2) && last == Put(ls2, IBr(head));
  }

  lemma EvalLoop(p: I.Program, fuel: nat, st: I.Store, env: int, chk: bool, body: List<Stmt>)
    ensures var r := I.ExecLoop(p, fuel, st, env, chk, body);
            if fuel == 0 then r.NoFuel?
            else
              var b := I.ExecInner(p, fuel - 1, st, env, chk, body);
              if b.Ok? && (b.v.Normal? || b.v.Continue?) then r == I.ExecLoop(p, fuel - 1, b.st, env, chk, body)
              else if b.Ok? && b.v.Break? then r == I.Ok(I.Normal, b.st)
              else r == b
    ensures I.Exec(p, fuel, st, env, chk, SLoop(body)) == I.ExecLoop(p, fuel, st, env, chk, body)
  {
    hide I.ExecInner;
  }

  // The jump into the head pays for the last round's fuel.
  lemma {:induction false} SimLoopRounds(k: Act, fuel: nat, cx: Cx, ls: LS, vs: Scope, w: World, rg: Regs, env: int,
                                         vars: map<nat, string>, s: Stmt, loop: bool)
    returns (w2: World, rg2: Regs, m: MVal, n: nat)
    requires s.SLoop? && OkS(k.code.src.Keys, vs.Keys, cx.chk, loop, s)
    requires Ready(k, cx, LoopCode(cx, ls, vs, s).1, vs, w, rg, env, vars)
    requires Able(k, cx, vs, w, env, CapturedS(s), LowerStmt(cx, ls, vs, s).0)
    ensures var (last, ls0, ls3, head, endl) := LoopCode(cx, ls, vs, s);
            JoinSim(k, cx, ls0, At(k, ls0.b, rg, w.heap), endl, I.ExecLoop(k.code.prog(), fuel, w.st, env, cx.chk, s.body), fuel - 1, vars,
                    w, rg, w2, rg2, m, n)
    decreases fuel, s, 0
  {
    hide StepN, Step, Exec, CodeIn, Linked, Extends, Grows, LowerStmt, LowerStmts, OkS, OkSs, CapturedS, CapturedSs,
         I.Exec, I.ExecInner, I.ExecLoop, LamAt, FuncAt, Live, ScopeRel, Inv, Moves, RegsKept, Evolves, FlowDone,
         FallTo, LoopCode, BodySim;
    var (last, ls0, ls3, head, endl) := LoopCode(cx, ls, vs, s);
    LoopParts(k, cx, ls, vs, s, loop);
    EvalLoop(k.code.prog(), fuel, w.st, env, cx.chk, s.body);
    w2, rg2, m, n := w, rg, MUnit, 0;
    var c0 := At(k, ls0.b, rg, w.heap);
    NoSteps(k.code.ir, c0);
    if fuel > 0 {
      var res := I.ExecLoop(k.code.prog(), fuel, w.st, env, cx.chk, s.body);
      FlowRefl(k, ls0, cx, vs, vars, w, rg, env);
      LabelOpen(k, last, head, rg, w.heap);
      w2, rg2, m, n := SimLoopBody(k, fuel - 1, cx, ls0, ls0, last, head, vs, w, rg, w, rg, 0, env, vars, s.body, endl, head);
      var b := I.ExecInner(k.code.prog(), fuel - 1, w.st, env, cx.chk, s.body);
      if b.Ok? && (b.v.Normal? || b.v.Continue?) {
        var w3, rg3, n3 := w2, rg2, n;
        BodyAgain(k, cx, ls0, last, head, vs, env, endl, b, fuel - 1, vars, w, rg, w3, rg3, m, n3);
        SettledFlow(k, ls0, w, rg, w3, rg3, env, vars, CapturedS(s), vs);
        w2, rg2, m, n := SimLoopRounds(k, fuel - 1, cx, ls, vs, w3, rg3, env, vars, s, loop);
        JoinJoin(k, cx, cx, ls0, ls0, c0, At(k, ls0.b, rg3, w3.heap), endl, res, fuel - 1, fuel - 2, vars, w, rg, w3,
                 rg3, n3, w2, rg2, m, n);
        n := n3 + n;
      } else {
        BodyEnds(k, cx, ls0, c0, endl, head, b, res, fuel - 1, vars, w, rg, w2, rg2, m, n);
      }
    }
  }

  lemma {:induction false} SimLoop(k: Act, fuel: nat, cx: Cx, ls: LS, vs: Scope, w: World, rg: Regs, env: int,
                                   vars: map<nat, string>, s: Stmt, loop: bool)
    returns (w2: World, rg2: Regs, m: MVal, n: nat)
    requires s.SLoop? && Ready(k, cx, ls, vs, w, rg, env, vars)
    requires Able(k, cx, vs, w, env, CapturedS(s), LowerStmt(cx, ls, vs, s).0)
    requires OkS(k.code.src.Keys, vs.Keys, cx.chk, loop, s)
    ensures PlainSim(k, cx, ls, LowerStmt(cx, ls, vs, s).0, I.Exec(k.code.prog(), fuel, w.st, env, cx.chk, s), fuel, -1, vars,
                     w, rg, w2, rg2, m, n)
    decreases fuel, s, 1
  {
    hide StepN, Step, Exec, CodeIn, Linked, Extends, Grows, LowerStmt, LowerStmts, OkS, OkSs, CapturedS, CapturedSs,
         I.Exec, I.ExecInner, I.ExecLoop, LamAt, FuncAt, Live, ScopeRel, Inv, Moves, RegsKept, Evolves, FlowDone,
         FallTo, LoopCode, JoinSim;
    var (last, ls0, ls3, head, endl) := LoopCode(cx, ls, vs, s);
    LoopParts(k, cx, ls, vs, s, loop);
    EvalLoop(k.code.prog(), fuel, w.st, env, cx.chk, s.body);
    OpenHead(k, cx, ls, last, ls0, head, vs, w, rg, env, vars);
    w2, rg2, m, n := SimLoopRounds(k, fuel, cx, ls, vs, w, rg, env, vars, s, loop);
    var res := I.ExecLoop(k.code.prog(), fuel, w.st, env, cx.chk, s.body);
    JoinJoin(k, cx, cx, ls, ls0, At(k, ls.b, rg, w.heap), At(k, ls0.b, rg, w.heap), endl, res, fuel, fuel - 1, vars, w,
             rg, w, rg, 1, w2, rg2, m, n);
    n := 1 + n;
    JoinToPlain(k, cx, ls, FallTo(ls3, head), endl, res, fuel, vars, w, rg, w2, rg2, m, n);
  }

  // ----- counted loops -----

  // The step as an expression: 1 if there is none.
  function StrideOf(s: Stmt): Expr
    requires s.SForNum?
  {
    match s.stride
    case None => EInt(1, s.ity)
    case Some(e) => e
  }

  // Code up to the loop: after the counter is set, after each snapshot.
  datatype Bounds = Bounds(named: LS, set0: LS, snapB: LS, done: LS, f: ForRegs, a: IVal)

  function BoundsOf(cx: Cx, ls: LS, vs: Scope, s: Stmt): Bounds
    requires s.SForNum?
  {
    var t := s.ity;
    var (ls1, un, cnt) := ForNames(ls, s.v, t);
    var (ls2, a) := LowerExpr(cx, ls1, vs, s.start);
    var ls3 := Put(ls2, IAssign(PLocal(cnt.name), a));
    var (ls4, b0) := LowerExpr(cx, ls3, vs, s.stop);
    var (ls5, b) := Snapshot(ls4, b0, t);
    var (ls6, c0) := LowerExpr(cx, ls5, vs, StrideOf(s));
    var (ls7, c) := Snapshot(ls6, c0, t);
    Bounds(ls1, ls3, ls5, ls7, ForRegs(un, cnt, b, c), a)
  }

  // The interpreter's evaluation of the bounds.
  function EvalBounds(p: I.Program, fuel: nat, st: I.Store, env: int, chk: bool, s: Stmt): I.Out<(int, int, int)>
    requires s.SForNum?
  {
    var oa := IntOut(I.Eval(p, fuel, st, env, chk, s.start), s.ity);
    if !oa.Ok? then Stop(oa)
    else
      var ob := IntOut(I.Eval(p, fuel, oa.st, env, chk, s.stop), s.ity);
      if !ob.Ok? then Stop(ob)
      else
        var oc := IntOut(I.Eval(p, fuel, ob.st, env, chk, StrideOf(s)), s.ity);
        if !oc.Ok? then Stop(oc) else I.Ok((oa.v, ob.v, oc.v), oc.st)
  }

  function Stop<T, U>(out: I.Out<T>): I.Out<U>
    requires !out.Ok?
  {
    if out.Panic? then I.Panic else if out.NoFuel? then I.NoFuel else I.Err(out.why)
  }

  lemma EvalFor(p: I.Program, fuel: nat, st: I.Store, env: int, chk: bool, s: Stmt)
    requires s.SForNum?
    ensures var o := EvalBounds(p, fuel, st, env, chk, s);
            var r := I.Exec(p, fuel, st, env, chk, s);
            if o.Ok? then r == I.ExecFor(p, fuel, o.st, env, chk, s.v, s.ity, o.v.0, o.v.1, o.v.2, s.body)
            else r == Stop(o)
  {
    hide I.ExecFor, I.Eval, StrideOf, I.EvalStride;
    var oa := IntOut(I.Eval(p, fuel, st, env, chk, s.start), s.ity);
    if oa.Ok? {
      var ob := IntOut(I.Eval(p, fuel, oa.st, env, chk, s.stop), s.ity);
      if ob.Ok? { EvalStrideIs(p, fuel, ob.st, env, chk, s); }
    }
  }

  lemma EvalStrideIs(p: I.Program, fuel: nat, st: I.Store, env: int, chk: bool, s: Stmt)
    requires s.SForNum?
    ensures I.EvalStride(p, fuel, st, env, chk, s.stride, s.ity) == IntOut(I.Eval(p, fuel, st, env, chk, StrideOf(s)), s.ity)
  {
  }

  // Where the machine stands once the bounds are known.
  ghost predicate BoundsSim(k: Act, ls: LS, b: Bounds, t: IntTy, out: I.Out<(int, int, int)>, fuel: nat,
                            vars: map<nat, string>,
                            w: World, rg: Regs, w2: World, rg2: Regs, n: nat)
  {
    var c := StepN(k.code.ir, At(k, ls.b, rg, w.heap), n);
    match out
    case Ok(v, st) =>
      && w2.st == st && FlowDone(k, ls, vars, w, rg, w2, rg2, -1) && !CurTerminated(b.done.b)
      && Counting(b.f, rg2, v.0, v.1, v.2, b.done.b.tc) && t.Holds(v.0)
      && c == At(k, b.done.b, rg2, w2.heap)
    case Panic => c == Panicked
    case NoFuel => n >= fuel && c.Run?
    case Err(_) => true
  }

  lemma ForParts(k: Act, cx: Cx, ls: LS, vs: Scope, s: Stmt, loop: bool)
    requires s.SForNum? && OkS(k.code.src.Keys, vs.Keys, cx.chk, loop, s) && Placed(k, LowerStmt(cx, ls, vs, s).0)
    ensures var b := BoundsOf(cx, ls, vs, s);
            && b.f.un.Local? && b.f.cnt.Local? && LoopNames(b.f, s.v, s.ity, ls.uq)
            && LowerStmt(cx, ls, vs, s).0 == ForTail(cx, b.done, vs, s.v, s.ity, b.f.un, b.f.cnt, b.f.b, b.f.c, s.body)
            && Placed(k, b.done)
    ensures s.v !in k.code.src && OkE(k.code.src.Keys, vs.Keys, cx.chk, s.start) && OkE(k.code.src.Keys, vs.Keys, cx.chk, s.stop)
    ensures OkE(k.code.src.Keys, vs.Keys, cx.chk, StrideOf(s)) && OkSs(k.code.src.Keys, vs.Keys + {s.v}, cx.chk, true, s.body)
    ensures CapturedS(s) == CapturedE(s.start) + CapturedE(s.stop) + CapturedE(StrideOf(s)) + CapturedSs(s.body)
  {
    hide Extends, Grows, LowerStmts, CodeIn, Linked, OkS, OkE, OkSs, CapturedE, CapturedS, CapturedSs, ForTail,
         BoundsOf, LowerStmt;
    ForShape(cx, ls, vs, s);
    ForOk(k.code.src.Keys, vs.Keys, cx.chk, loop, s);
    var b := BoundsOf(cx, ls, vs, s);
    ForTailGrows(cx, b.done, vs, s.v, s.ity, b.f.un, b.f.cnt, b.f.b, b.f.c, s.body);
    PlacedEarlier(k, b.done, LowerStmt(cx, ls, vs, s).0);
  }

  lemma ForShape(cx: Cx, ls: LS, vs: Scope, s: Stmt)
    requires s.SForNum?
    ensures var b := BoundsOf(cx, ls, vs, s);
            && b.f.un.Local? && b.f.cnt.Local? && LoopNames(b.f, s.v, s.ity, ls.uq)
            && LowerStmt(cx, ls, vs, s).0 == ForTail(cx, b.done, vs, s.v, s.ity, b.f.un, b.f.cnt, b.f.b, b.f.c, s.body)
  {
    hide LowerExpr, LowerStmts, ForTail, LowerStride, StrideOf;
    StrideIs(cx, BoundsOf(cx, ls, vs, s).snapB, vs, s);
  }

  lemma StrideIs(cx: Cx, ls: LS, vs: Scope, s: Stmt)
    requires s.SForNum?
    ensures LowerStride(cx, ls, vs, s.stride, s.ity) == LowerExpr(cx, ls, vs, StrideOf(s))
  {
  }

  lemma ForOk(g: set<string>, sc: set<string>, chk: bool, loop: bool, s: Stmt)
    requires s.SForNum? && OkS(g, sc, chk, loop, s)
    ensures s.v !in g && OkE(g, sc, chk, s.start) && OkE(g, sc, chk, s.stop)
    ensures OkE(g, sc, chk, StrideOf(s)) && OkSs(g, sc + {s.v}, chk, true, s.body)
    ensures CapturedS(s) == CapturedE(s.start) + CapturedE(s.stop) + CapturedE(StrideOf(s)) + CapturedSs(s.body)
  {
    hide OkSs, CapturedSs;
  }

  lemma BoundsPlaced(k: Act, cx: Cx, ls: LS, vs: Scope, s: Stmt)
    requires s.SForNum? && Placed(k, BoundsOf(cx, ls, vs, s).done)
    ensures var b := BoundsOf(cx, ls, vs, s);
            var r2 := LowerExpr(cx, b.named, vs, s.start);
            var r4 := LowerExpr(cx, b.set0, vs, s.stop);
            var r6 := LowerExpr(cx, b.snapB, vs, StrideOf(s));
            && Placed(k, r2.0) && Placed(k, b.set0) && Placed(k, r4.0) && Placed(k, b.snapB) && Placed(k, r6.0)
            && Grows(b.named, r2.0) && Grows(b.set0, r4.0) && Grows(b.snapB, r6.0)
            && Grows(ls, b.named) && Grows(ls, b.set0) && Grows(ls, b.snapB)
            && b.named.uq == ls.uq + 2 && b.set0.uq >= ls.uq + 2 && b.snapB.uq >= ls.uq + 2
            && Counts(ls, b.set0) && Counts(ls, b.snapB) && Counts(b.set0, b.snapB) && Counts(b.snapB, b.done)
  {
    hide Extends, CodeIn, Linked, LowerExpr;
    var t := s.ity;
    var b := BoundsOf(cx, ls, vs, s);
    var r2 := LowerExpr(cx, b.named, vs, s.start);
    var r4 := LowerExpr(cx, b.set0, vs, s.stop);
    var r6 := LowerExpr(cx, b.snapB, vs, StrideOf(s));
    ForNamesGrow(ls, s.v, t);
    ExprGrows(cx, b.named, vs, s.start);
    PutGrows(r2.0, IAssign(PLocal(b.f.cnt.name), r2.1));
    ExprGrows(cx, b.set0, vs, s.stop);
    SnapshotGrows(r4.0, r4.1, t);
    ExprGrows(cx, b.snapB, vs, StrideOf(s));
    SnapshotGrows(r6.0, r6.1, t);
    Trans(ls, b.named, r2.0);
    Trans(ls, r2.0, b.set0);
    Trans(ls, b.set0, r4.0);
    Trans(ls, r4.0, b.snapB);
    Trans(b.set0, r4.0, b.snapB);
    PlacedEarlier(k, r6.0, b.done);
    PlacedEarlier(k, b.snapB, r6.0);
    PlacedEarlier(k, r4.0, b.snapB);
    PlacedEarlier(k, b.set0, r4.0);
    PlacedEarlier(k, r2.0, b.set0);
    Trans(b.snapB, r6.0, b.done);
    GrowsCount(b.named, r2.0);
    GrowsCount(ls, b.set0);
    GrowsCount(ls, b.snapB);
    GrowsCount(b.set0, b.snapB);
    GrowsCount(b.snapB, b.done);
  }

  // The start value goes into the hidden counter.
  lemma {:induction false} SimStart(k: Act, fuel: nat, cx: Cx, ls: LS, vs: Scope, w: World, rg: Regs, env: int,
                                    vars: map<nat, string>, s: Stmt)
    returns (w2: World, rg2: Regs, n: nat)
    requires s.SForNum? && Ready(k, cx, ls, vs, w, rg, env, vars)
    requires Able(k, cx, vs, w, env, CapturedE(s.start), BoundsOf(cx, ls, vs, s).done)
    requires OkE(k.code.src.Keys, vs.Keys, cx.chk, s.start)
    ensures var b := BoundsOf(cx, ls, vs, s);
            var c := StepN(k.code.ir, At(k, ls.b, rg, w.heap), n);
            match IntOut(I.Eval(k.code.prog(), fuel, w.st, env, cx.chk, s.start), s.ity)
            case Ok(x, st) =>
              && w2.st == st && FlowDone(k, ls, vars, w, rg, w2, rg2, -1) && Ready(k, cx, b.set0, vs, w2, rg2, env, vars)
              && ValOf(rg2, b.f.cnt) == Some(MInt(x)) && s.ity.Holds(x) && c == At(k, b.set0.b, rg2, w2.heap)
            case Panic => c == Panicked
            case NoFuel => n >= fuel && c.Run?
            case Err(_) => true
    decreases fuel, s, 0
  {
    hide StepN, Step, CodeIn, Linked, Extends, Grows, LowerExpr, OkE, CapturedE, I.Eval, LamAt, FuncAt, Live, ScopeRel,
         Inv, Moves, RegsKept, Evolves, FlowDone, Stamp, UniqName, Snapshot;
    var b := BoundsOf(cx, ls, vs, s);
    var r2 := LowerExpr(cx, b.named, vs, s.start);
    BoundsPlaced(k, cx, ls, vs, s);
    GrowsCount(ls, b.named);
    ReadyMore(k, cx, ls, b.named, vs, w, rg, env, vars);
    assert At(k, ls.b, rg, w.heap) == At(k, b.named.b, rg, w.heap);
    var m;
    w2, rg2, m, n := SimExpr(k, fuel, cx, b.named, vs, w, rg, env, vars, s.start);
    var out := I.Eval(k.code.prog(), fuel, w.st, env, cx.chk, s.start);
    if out.Ok? && I.HasTy(out.v, TInt(s.ity)) {
      var w1, rg1 := w2, rg2;
      var ins := IAssign(PLocal(b.f.cnt.name), r2.1);
      ExprFlow(k, cx, b.named, r2, vs, w, rg, env, vars, w1, rg1, m);
      FlowRefl(k, ls, cx, vs, vars, w, rg, env);
      FlowTrans(k, ls, b.named, -1, -1, vars, vars, w, rg, w, rg, w1, rg1);
      FetchPlaced(k, r2.0, ins, rg1, w1.heap);
      ExecSetLocal(k, b.f.cnt.name, r2.1, HereFrame(k, r2.0.b, rg1), w1.heap, m);
      OneMore(k.code.ir, At(k, ls.b, rg, w.heap), n, At(k, r2.0.b, rg1, w1.heap));
      n := n + 1;
      rg2 := SetLocal(rg1, b.f.cnt.name, m);
      StampOfUniq(s.v + "__cnt", ls.uq + 2);
      KeptLocal(rg1, b.f.cnt.name, m, ls.b.tc, ls.uq);
      RegFlow(k, ls, vars, w, rg, w1, rg1, rg2, -1);
      GrowsCount(ls, b.set0);
      ReadyFlow(k, cx, cx, ls, b.set0, vs, w, rg, env, vars, w2, rg2);
    }
  }

  // A bound and its snapshot.
  lemma {:induction false} SimBound(k: Act, fuel: nat, cx: Cx, ls: LS, vs: Scope, w: World, rg: Regs, env: int,
                                    vars: map<nat, string>, e: Expr, t: IntTy)
    returns (w2: World, rg2: Regs, n: nat)
    requires Ready(k, cx, ls, vs, w, rg, env, vars)
    requires var r := LowerExpr(cx, ls, vs, e); Able(k, cx, vs, w, env, CapturedE(e), Snapshot(r.0, r.1, t).0) && Placed(k, r.0)
    requires OkE(k.code.src.Keys, vs.Keys, cx.chk, e)
    ensures var r := LowerExpr(cx, ls, vs, e);
            SnapSim(k, ls, Snapshot(r.0, r.1, t), IntOut(I.Eval(k.code.prog(), fuel, w.st, env, cx.chk, e), t), t, fuel, w, rg, w2, rg2, n)
    decreases fuel, e, 3
  {
    hide StepN, Step, CodeIn, Linked, Extends, Grows, LowerExpr, OkE, CapturedE, I.Eval, LamAt, FuncAt, Live, ScopeRel,
         Inv, Moves, RegsKept, Evolves, Snapshot, ExprSim, SnapSim;
    var r := LowerExpr(cx, ls, vs, e);
    ExprGrows(cx, ls, vs, e);
    var m;
    w2, rg2, m, n := SimExpr(k, fuel, cx, ls, vs, w, rg, env, vars, e);
    rg2, n := AppendSnap(k, ls, r, I.Eval(k.code.prog(), fuel, w.st, env, cx.chk, e), t, fuel, w, rg, w2, rg2, m, n);
  }

  lemma {:induction false} SimStride(k: Act, fuel: nat, cx: Cx, ls: LS, vs: Scope, w: World, rg: Regs, env: int,
                                     vars: map<nat, string>, s: Stmt)
    returns (w2: World, rg2: Regs, n: nat)
    requires s.SForNum? && Ready(k, cx, ls, vs, w, rg, env, vars)
    requires var r := LowerExpr(cx, ls, vs, StrideOf(s));
             Able(k, cx, vs, w, env, CapturedE(StrideOf(s)), Snapshot(r.0, r.1, s.ity).0) && Placed(k, r.0)
    requires OkE(k.code.src.Keys, vs.Keys, cx.chk, StrideOf(s))
    ensures var r := LowerExpr(cx, ls, vs, StrideOf(s));
            SnapSim(k, ls, Snapshot(r.0, r.1, s.ity), IntOut(I.Eval(k.code.prog(), fuel, w.st, env, cx.chk, StrideOf(s)), s.ity), s.ity, fuel,
                    w, rg, w2, rg2, n)
    decreases fuel, s, 0
  {
    hide StepN, Step, CodeIn, Linked, Extends, Grows, LowerExpr, OkE, CapturedE, I.Eval, LamAt, FuncAt, Live, ScopeRel,
         Inv, Moves, RegsKept, Evolves, Snapshot, ExprSim, SnapSim;
    if s.stride.Some? {
      w2, rg2, n := SimBound(k, fuel, cx, ls, vs, w, rg, env, vars, s.stride.value, s.ity);
    } else {
      var r := LowerExpr(cx, ls, vs, StrideOf(s));
      ExprGrows(cx, ls, vs, StrideOf(s));
      var m;
      w2, rg2, m, n := SimLiteral(k, fuel, cx, ls, vs, w, rg, env, vars, StrideOf(s));
      rg2, n := AppendSnap(k, ls, r, I.Eval(k.code.prog(), fuel, w.st, env, cx.chk, StrideOf(s)), s.ity, fuel, w, rg,
                           w2, rg2, m, n);
    }
  }

  lemma {:induction false} SimBounds(k: Act, fuel: nat, cx: Cx, ls: LS, vs: Scope, w: World, rg: Regs, env: int,
                                     vars: map<nat, string>, s: Stmt)
    returns (w2: World, rg2: Regs, n: nat)
    requires s.SForNum? && Ready(k, cx, ls, vs, w, rg, env, vars) && LoopNames(BoundsOf(cx, ls, vs, s).f, s.v, s.ity, ls.uq)
    requires Able(k, cx, vs, w, env, CapturedE(s.start) + CapturedE(s.stop) + CapturedE(StrideOf(s)), BoundsOf(cx, ls, vs, s).done)
    requires OkE(k.code.src.Keys, vs.Keys, cx.chk, s.start) && OkE(k.code.src.Keys, vs.Keys, cx.chk, s.stop)
    requires OkE(k.code.src.Keys, vs.Keys, cx.chk, StrideOf(s))
    ensures BoundsSim(k, ls, BoundsOf(cx, ls, vs, s), s.ity, EvalBounds(k.code.prog(), fuel, w.st, env, cx.chk, s), fuel, vars,
                      w, rg, w2, rg2, n)
    decreases fuel, s, 1
  {
    hide IsTerminator, CurTerminated, CodeOk, StepN, Step, CodeIn, Linked, Extends, Grows, LowerExpr, OkE, CapturedE,
         I.Eval, LamAt, FuncAt, Live, ScopeRel, Inv, Moves, RegsKept, Evolves, FlowDone, Snapshot, Counting, ExprDone,
         LoopNames, UniqName, Put;
    var b, t := BoundsOf(cx, ls, vs, s), s.ity;
    var r4 := LowerExpr(cx, b.set0, vs, s.stop);
    var r6 := LowerExpr(cx, b.snapB, vs, StrideOf(s));
    var c0 := At(k, ls.b, rg, w.heap);
    BoundsPlaced(k, cx, ls, vs, s);
    w2, rg2, n := SimStart(k, fuel, cx, ls, vs, w, rg, env, vars, s);
    var oa := IntOut(I.Eval(k.code.prog(), fuel, w.st, env, cx.chk, s.start), t);
    if oa.Ok? {
      var w1, rg1, n1 := w2, rg2, n;
      SettledFlow(k, ls, w, rg, w1, rg1, env, vars, CapturedE(s.stop) + CapturedE(StrideOf(s)), vs);
      w2, rg2, n := SimBound(k, fuel, cx, b.set0, vs, w1, rg1, env, vars, s.stop, t);
      Chain(k.code.ir, c0, n1, At(k, b.set0.b, rg1, w1.heap), n);
      n := n1 + n;
      var ob := IntOut(I.Eval(k.code.prog(), fuel, w1.st, env, cx.chk, s.stop), t);
      if ob.Ok? {
        var w3, rg3, n3 := w2, rg2, n;
        BoundDone(k, cx, ls, b.set0, b.snapB, Snapshot(r4.0, r4.1, t), vs, env, vars, w, rg, w1, rg1, w3, rg3, ob.v);
        SettledFlow(k, ls, w, rg, w3, rg3, env, vars, CapturedE(StrideOf(s)), vs);
        w2, rg2, n := SimStride(k, fuel, cx, b.snapB, vs, w3, rg3, env, vars, s);
        Chain(k.code.ir, c0, n3, At(k, b.snapB.b, rg3, w3.heap), n);
        n := n3 + n;
        var oc := IntOut(I.Eval(k.code.prog(), fuel, w3.st, env, cx.chk, StrideOf(s)), t);
        if oc.Ok? {
          BoundDone(k, cx, ls, b.snapB, b.done, Snapshot(r6.0, r6.1, t), vs, env, vars, w, rg, w3, rg3, w2, rg2, oc.v);
          CountingReady(k, b, s, ls.uq, w1, rg1, w3, rg3, w2, rg2, oa.v, ob.v, oc.v);
        }
      }
    }
  }

  lemma BoundDone(k: Act, cx: Cx, ls: LS, ls1: LS, ls2: LS, r: (LS, IVal), vs: Scope, env: int, vars: map<nat, string>,
                  w: World, rg: Regs, w1: World, rg1: Regs, w2: World, rg2: Regs, x: int)
    requires FlowDone(k, ls, vars, w, rg, w1, rg1, -1) && Ready(k, cx, ls1, vs, w1, rg1, env, vars) && Counts(ls, ls1)
    requires ExprDone(k, ls1, r, w1, rg1, w2, rg2, MInt(x)) && ls2 == r.0 && Counts(ls1, ls2)
    ensures FlowDone(k, ls, vars, w, rg, w2, rg2, -1) && Ready(k, cx, ls2, vs, w2, rg2, env, vars)
  {
    hide LamAt, FuncAt, Live, ScopeRel, Inv, FlowDone, Moves, RegsKept;
    ExprFlow(k, cx, ls1, r, vs, w1, rg1, env, vars, w2, rg2, MInt(x));
    FlowTrans(k, ls, ls1, -1, -1, vars, vars, w, rg, w1, rg1, w2, rg2);
    ReadyFlow(k, cx, cx, ls1, ls2, vs, w1, rg1, env, vars, w2, rg2);
  }

  // The counter and the first snapshot survive the evaluation of what follows.
  lemma CountingReady(k: Act, b: Bounds, s: Stmt, uq: nat, w1: World, rg1: Regs, w3: World, rg3: Regs, w2: World,
                      rg2: Regs,
                      x: int, y: int, z: int)
    requires s.SForNum? && LoopNames(b.f, s.v, s.ity, uq) && uq + 2 <= b.set0.uq && uq + 2 <= b.snapB.uq
    requires ValOf(rg1, b.f.cnt) == Some(MInt(x))
    requires ExprDone(k, b.set0, (b.snapB, b.f.b), w1, rg1, w3, rg3, MInt(y))
    requires ExprDone(k, b.snapB, (b.done, b.f.c), w3, rg3, w2, rg2, MInt(z))
    requires b.snapB.b.tc <= b.done.b.tc
    ensures Counting(b.f, rg2, x, y, z, b.done.b.tc)
  {
    hide LamAt, FuncAt, Inv, Moves, Stamp;
    NameStamps(b.f, s.v, s.ity, uq);
  }

  // The whole tail: head, index, body, post.
  datatype TailCode = TailCode(h: HeadCode, pub: LS, bodyIn: LS, idx: IVal, bodyOut: LS, fall: LS, post: LS)

  function TailOf(cx: Cx, ls: LS, vs: Scope, s: Stmt, f: ForRegs): TailCode
    requires s.SForNum? && f.un.Local? && f.cnt.Local?
  {
    var h := HeadOf(ls, f, s.ity);
    var pub := Put(h.body, IAssign(PLocal(f.un.name), f.cnt));
    var (ls9, idx) := ForIndex(cx, pub, s.v, s.ity, f.un);
    var ls10 := LowerStmts(InLoop(cx, h.ll.fin, h.ll.post), ls9, vs[s.v := idx], s.body);
    var fall := FallTo(ls10, h.ll.post);
    TailCode(h, pub, ls9, idx, ls10, fall, PostOf(fall, h.ll, f, s.ity))
  }

  lemma TailParts(k: Act, cx: Cx, ls: LS, vs: Scope, s: Stmt, f: ForRegs)
    requires s.SForNum? && f.un.Local? && f.cnt.Local?
    requires Placed(k, ForTail(cx, ls, vs, s.v, s.ity, f.un, f.cnt, f.b, f.c, s.body))
    ensures var c := TailOf(cx, ls, vs, s, f);
            && ForTail(cx, ls, vs, s.v, s.ity, f.un, f.cnt, f.b, f.c, s.body) == Block0(c.post, c.h.ll.fin)
            && Placed(k, c.post) && Placed(k, Block0(c.fall, c.h.ll.post)) && Placed(k, c.fall) && Placed(k, c.bodyOut)
            && Placed(k, c.bodyIn) && Placed(k, c.pub) && Placed(k, c.h.body) && Placed(k, c.h.test) && Placed(k, c.h.head)
            && Grows(ls, c.h.head) && Grows(ls, c.h.body) && Grows(ls, c.pub) && Grows(ls, c.bodyIn) && Grows(ls, c.fall)
            && Grows(c.pub, c.bodyIn)
  {
    hide Extends, Grows, LowerStmts, CodeIn, Linked, FallTo, HeadOf, PostOf, ForPost, ForHead, ForIndex, Placed;
    var c := TailOf(cx, ls, vs, s, f);
    var cx1 := InLoop(cx, c.h.ll.fin, c.h.ll.post);
    HeadIs(ls, f, s.ity);
    PutGrows(c.h.body, IAssign(PLocal(f.un.name), f.cnt));
    ForIndexGrows(cx, c.pub, s.v, s.ity, f.un);
    StmtsGrows(cx1, c.bodyIn, vs[s.v := c.idx], s.body);
    FallGrows(c.bodyOut, c.h.ll.post, c.h.ll.post);
    PostIs(c.fall, c.h.ll, f, s.ity);
    BlockGrows(c.post, c.h.ll.fin);
    PlacedEarlier(k, c.post, Block0(c.post, c.h.ll.fin));
    PlacedEarlier(k, Block0(c.fall, c.h.ll.post), c.post);
    PlacedEarlier(k, c.fall, Block0(c.fall, c.h.ll.post));
    PlacedEarlier(k, c.bodyOut, c.fall);
    PlacedEarlier(k, c.bodyIn, c.bodyOut);
    PlacedEarlier(k, c.pub, c.bodyIn);
    PlacedEarlier(k, c.h.body, c.pub);
    PlacedEarlier(k, c.h.test, c.h.body);
    PlacedEarlier(k, c.h.head, c.h.test);
    Trans(ls, c.h.head, c.h.body);
    Trans(ls, c.h.body, c.pub);
    Trans(ls, c.pub, c.bodyIn);
    Trans(ls, c.bodyIn, c.bodyOut);
    Trans(ls, c.bodyOut, c.fall);
  }

  lemma EvalRound(p: I.Program, fuel: nat, st: I.Store, env: int, chk: bool, x: string, t: IntTy, i: int, limit: int,
                  step: int,
                  body: List<Stmt>)
    requires p.mode.Wrapping?
    ensures var r := I.ExecFor(p, fuel, st, env, chk, x, t, i, limit, step, body);
            if i >= limit then r == I.Ok(I.Normal, st)
            else if fuel == 0 then r.NoFuel?
            else
              var e := |st.envs|;
              var b := I.ExecBlock(p, fuel - 1, I.Define(I.NewEnv(st, env), e, x, I.VInt(i, t), true), e, chk, body);
              if b.Ok? && (b.v.Normal? || b.v.Continue?) then
                r == I.ExecFor(p, fuel - 1, b.st, env, chk, x, t, Wrap(i + step, t), limit, step, body)
              else if b.Ok? && b.v.Break? then r == I.Ok(I.Normal, b.st)
              else r == b
  {
    hide I.ExecBlock;
  }

  // One round, from the body's label to where control goes next.
  lemma {:induction false} SimRound(k: Act, fuel: nat, cx: Cx, ls: LS, ls7: LS, f: ForRegs, vs: Scope, w: World,
                                    rg: Regs, env: int,
                                    vars: map<nat, string>, s: Stmt, i: int, limit: int, step: int)
    returns (w2: World, rg2: Regs, m: MVal, n: nat)
    requires s.SForNum? && LoopNames(f, s.v, s.ity, ls.uq) && ls.uq + 2 <= ls7.uq && Counts(ls, ls7)
    requires Ready(k, cx, ls, vs, w, rg, env, vars) && Counting(f, rg, i, limit, step, ls7.b.tc)
    requires Able(k, cx, vs, w, env, CapturedSs(s.body), ForTail(cx, ls7, vs, s.v, s.ity, f.un, f.cnt, f.b, f.c, s.body))
    requires s.v !in k.code.src && OkSs(k.code.src.Keys, vs.Keys + {s.v}, cx.chk, true, s.body) && s.ity.Holds(i) && i < limit
    ensures var h := HeadOf(ls7, f, s.ity);
            var e := |w.st.envs|;
            var out := I.ExecBlock(k.code.prog(), fuel, I.Define(I.NewEnv(w.st, env), e, s.v, I.VInt(i, s.ity), true),
                                   e, cx.chk, s.body);
            && BodySim(k, ls, At(k, h.head.b, rg, w.heap), h.ll.fin, h.ll.post, out, fuel + 1, -1, vars, w, rg, w2, rg2, m, n)
            && (out.Ok? && !out.v.Return? ==> Counting(f, rg2, i, limit, step, ls7.b.tc))
            && n >= 1
    decreases fuel, s.body, 4
  {
    hide StepN, Step, Exec, CodeIn, Linked, Extends, Grows, LowerStmts, OkSs, CapturedSs, I.ExecBlock, LamAt, FuncAt,
         Live, ScopeRel, Inv, Moves, RegsKept, Evolves, FlowDone, FallTo, UniqName, Dec, Counting, HeadOf, PostOf,
         ForTail, ForIndex, Decls, PlainSim, BodySim;
    var c := TailOf(cx, ls7, vs, s, f);
    var h, e := c.h, |w.st.envs|;
    var cx1 := InLoop(cx, h.ll.fin, h.ll.post);
    TailParts(k, cx, ls7, vs, s, f);
    GrowsCount(ls7, c.pub);
    GrowsCount(ls7, c.bodyIn);
    var c0 := At(k, h.head.b, rg, w.heap);
    var rg8, n8 := RunPublish(k, cx, ls, ls7, f, vs, w, rg, env, vars, s, i, limit, step);
    var w3, rg3, vars3, n3;
    w3, rg3, vars3, n3 := RunIndex(k, cx, ls, c.pub, vs, w, rg, env, vars, s.v, i, s.ity, f, Decls(s.body),
                                   CapturedSs(s.body), h.head.b.tc, true);
    Chain(k.code.ir, c0, n8, At(k, c.pub.b, rg8, w.heap), n3);
    ReadyCx(k, cx, cx1, c.bodyIn, vs[s.v := c.idx], w3, rg3, e, vars3);
    assert vs[s.v := c.idx].Keys == vs.Keys + {s.v};
    w2, rg2, m, n := SimStmts(k, fuel, cx1, c.bodyIn, vs[s.v := c.idx], w3, rg3, e, vars3, s.body, true);
    var out := I.ExecBlock(k.code.prog(), fuel, w3.st, e, cx.chk, s.body);
    n := PlainToBody(k, cx, c.bodyIn, c.bodyOut, h.ll.fin, h.ll.post, out, fuel, e, vars3, w3, rg3, w2, rg2, m, n);
    RoundCounts(k, ls, ls7, c, cx, vs, w, rg, env, f, s, i, limit, step, vars, vars3, rg8, w3, rg3, e, out, fuel, w2,
                rg2, m, n);
    BodyJoin(k, ls, c.bodyIn, c0, At(k, c.bodyIn.b, rg3, w3.heap), h.ll.fin, h.ll.post, out, fuel + 1, fuel, e, vars, vars3,
             w, rg, w3, rg3, n8 + n3, w2, rg2, m, n);
    n := n8 + n3 + n;
  }

  // The body leaves the counter and the bounds alone.
  lemma RoundCounts(k: Act, ls: LS, ls7: LS, c: TailCode, cx: Cx, vs: Scope, w: World, rg: Regs, env: int, f: ForRegs,
                    s: Stmt, i: int, limit: int,
                    step: int, vars: map<nat, string>, vars3: map<nat, string>, rg8: Regs, w3: World, rg3: Regs, e: int, out: I.Out<I.Flow>,
                    fuel: nat, w2: World, rg2: Regs, m: MVal, n: nat)
    requires s.SForNum? && LoopNames(f, s.v, s.ity, ls.uq) && ls.uq + 2 <= ls7.uq && Counts(ls, ls7)
    requires Ready(k, cx, ls, vs, w, rg, env, vars)
    requires vars3 == vars || vars3 == vars[|w.st.cells| := f.un.name]
    requires Grows(ls7, c.bodyIn) && Grows(ls7, c.pub) && Counting(f, rg8, i, limit, step, ls7.b.tc)
    requires RegsKept(rg8, rg3, c.pub.b.tc, c.pub.uq, {})
    requires BodySim(k, c.bodyIn, At(k, c.bodyIn.b, rg3, w3.heap), c.h.ll.fin, c.h.ll.post, out, fuel, e, vars3, w3, rg3, w2, rg2, m, n)
    ensures out.Ok? && !out.v.Return? ==> Counting(f, rg2, i, limit, step, ls7.b.tc)
  {
    hide StepN, LamAt, FuncAt, Inv, Moves, Live, ScopeRel, Grows, RegsKept, Counting, LoopNames;
    GrowsCount(ls7, c.pub);
    GrowsCount(ls7, c.bodyIn);
    CounterFree(k.code, w, vars, rg, ls.uq, f, s.v, s.ity, |w.st.cells|);
    CountingKept(f, s.v, s.ity, ls.uq, rg8, rg3, i, limit, step, ls7.b.tc, c.pub.b.tc, c.pub.uq, {});
    if out.Ok? && !out.v.Return? {
      CountingKept(f, s.v, s.ity, ls.uq, rg3, rg2, i, limit, step, ls7.b.tc, c.bodyIn.b.tc, c.bodyIn.uq, vars3.Values);
    }
  }

  // Test passed, index published.
  lemma RunPublish(k: Act, cx: Cx, ls: LS, ls7: LS, f: ForRegs, vs: Scope, w: World, rg: Regs, env: int,
                   vars: map<nat, string>, s: Stmt,
                   i: int, limit: int, step: int)
    returns (rg8: Regs, n: nat)
    requires s.SForNum? && LoopNames(f, s.v, s.ity, ls.uq) && ls.uq + 2 <= ls7.uq && Counts(ls, ls7)
    requires ActOk(k) && Counting(f, rg, i, limit, step, ls7.b.tc) && i < limit
    requires Placed(k, ForTail(cx, ls7, vs, s.v, s.ity, f.un, f.cnt, f.b, f.c, s.body))
    ensures var c := TailOf(cx, ls7, vs, s, f);
            && StepN(k.code.ir, At(k, c.h.head.b, rg, w.heap), n) == At(k, c.pub.b, rg8, w.heap)
            && rg8 == SetLocal(SetTemp(rg, c.h.head.b.tc, MBool(true)), f.un.name, MInt(i))
            && !CurTerminated(c.pub.b) && c.h.head.b.tc >= ls7.b.tc
            && Counting(f, rg8, i, limit, step, ls7.b.tc) && n >= 1
  {
    hide StepN, Step, CodeIn, Linked, Extends, Grows, LowerStmts, LamAt, FuncAt, HeadOf, PostOf, ForTail, ForIndex,
         CodeOk, FallTo, RegsKept, Stamp, Counting, UniqName, Dec;
    var c := TailOf(cx, ls7, vs, s, f);
    TailParts(k, cx, ls7, vs, s, f);
    HeadIs(ls7, f, s.ity);
    GrowsCount(ls7, c.h.head);
    var c0 := At(k, c.h.head.b, rg, w.heap);
    var rg1 := RunTest(k, ls7, f, s.ity, rg, w.heap, i, limit, step, ls7.b.tc);
    LabelOpen(k, c.h.test, c.h.ll.body, rg1, w.heap);
    var ins := IAssign(PLocal(f.un.name), f.cnt);
    FetchPlaced(k, c.h.body, ins, rg1, w.heap);
    PublishKept(f, s.v, s.ity, ls.uq, rg, rg1, c.h.head.b.tc, true, i, limit, step, ls7.b.tc);
    ExecSetLocal(k, f.un.name, f.cnt, HereFrame(k, c.h.body.b, rg1), w.heap, MInt(i));
    OneMore(k.code.ir, c0, 2, At(k, c.h.body.b, rg1, w.heap));
    rg8, n := SetLocal(rg1, f.un.name, MInt(i)), 3;
  }

  lemma PublishKept(f: ForRegs, x: string, t: IntTy, uq: nat, rg: Regs, rg1: Regs, tc: nat, b: bool, i: int,
                    limit: int, step: int, tc7: nat)
    requires LoopNames(f, x, t, uq) && Counting(f, rg, i, limit, step, tc7) && tc >= tc7 && rg1 == SetTemp(rg, tc, MBool(b))
    ensures ValOf(rg1, f.cnt) == Some(MInt(i))
    ensures Counting(f, SetLocal(rg1, f.un.name, MInt(i)), i, limit, step, tc7)
  {
    hide Stamp;
    NameStamps(f, x, t, uq);
  }

  lemma {:induction false} SimRounds(k: Act, fuel: nat, cx: Cx, ls: LS, ls7: LS, f: ForRegs, vs: Scope, w: World,
                                     rg: Regs, env: int,
                                     vars: map<nat, string>, s: Stmt, i: int, limit: int, step: int)
    returns (w2: World, rg2: Regs, m: MVal, n: nat)
    requires s.SForNum? && LoopNames(f, s.v, s.ity, ls.uq) && ls.uq + 2 <= ls7.uq && Counts(ls, ls7)
    requires Ready(k, cx, ls, vs, w, rg, env, vars) && Counting(f, rg, i, limit, step, ls7.b.tc)
    requires Able(k, cx, vs, w, env, CapturedSs(s.body), ForTail(cx, ls7, vs, s.v, s.ity, f.un, f.cnt, f.b, f.c, s.body))
    requires s.v !in k.code.src && OkSs(k.code.src.Keys, vs.Keys + {s.v}, cx.chk, true, s.body) && s.ity.Holds(i)
    ensures var h := HeadOf(ls7, f, s.ity);
            JoinSim(k, cx, ls, At(k, h.head.b, rg, w.heap), h.ll.fin,
                    I.ExecFor(k.code.prog(), fuel, w.st, env, cx.chk, s.v, s.ity, i, limit, step, s.body), fuel, vars, w, rg, w2, rg2, m, n)
    decreases fuel, s.body, 5
  {
    hide StepN, Step, Exec, CodeIn, Linked, Extends, Grows, LowerStmts, OkSs, CapturedSs, I.ExecBlock, I.ExecFor, LamAt,
         FuncAt, Live, ScopeRel, Inv, Moves, RegsKept, Evolves, FlowDone, FallTo, UniqName, Dec, Counting, HeadOf,
         PostOf, ForTail, ForIndex, BodySim, JoinSim, Wrap;
    var h := HeadOf(ls7, f, s.ity);
    var c0 := At(k, h.head.b, rg, w.heap);
    var res := I.ExecFor(k.code.prog(), fuel, w.st, env, cx.chk, s.v, s.ity, i, limit, step, s.body);
    EvalRound(k.code.prog(), fuel, w.st, env, cx.chk, s.v, s.ity, i, limit, step, s.body);
    if i >= limit || fuel == 0 {
      w2, rg2, m, n := RoundsStop(k, fuel, cx, ls, ls7, f, vs, w, rg, env, vars, s, i, limit, step, res);
    } else {
      w2, rg2, m, n := SimRound(k, fuel - 1, cx, ls, ls7, f, vs, w, rg, env, vars, s, i, limit, step);
      var e := |w.st.envs|;
      var b := I.ExecBlock(k.code.prog(), fuel - 1, I.Define(I.NewEnv(w.st, env), e, s.v, I.VInt(i, s.ity), true), e,
                           cx.chk, s.body);
      if b.Ok? && (b.v.Normal? || b.v.Continue?) {
        var w3, n3 := w2, n;
        var rg3 := RoundNext(k, cx, ls, ls7, f, vs, w, rg, env, vars, s, i, limit, step, b, fuel, w3, rg2, m, n3);
        SettledFlow(k, ls, w, rg, w3, rg3, env, vars, CapturedSs(s.body), vs);
        WrapFits(i + step, s.ity);
        w2, rg2, m, n := SimRounds(k, fuel - 1, cx, ls, ls7, f, vs, w3, rg3, env, vars, s, Wrap(i + step, s.ity),
                                   limit, step);
        JoinJoin(k, cx, cx, ls, ls, c0, At(k, h.head.b, rg3, w3.heap), h.ll.fin, res, fuel, fuel - 1, vars, w, rg, w3,
                 rg3, n3 + 3, w2, rg2, m, n);
        n := n3 + 3 + n;
      } else {
        BodyEnds(k, cx, ls, c0, h.ll.fin, h.ll.post, b, res, fuel, vars, w, rg, w2, rg2, m, n);
      }
    }
  }

  // No further round: the limit is reached, or the fuel is spent.
  lemma RoundsStop(k: Act, fuel: nat, cx: Cx, ls: LS, ls7: LS, f: ForRegs, vs: Scope, w: World, rg: Regs, env: int,
                   vars: map<nat, string>, s: Stmt, i: int, limit: int, step: int, res: I.Out<I.Flow>)
    returns (w2: World, rg2: Regs, m: MVal, n: nat)
    requires s.SForNum? && LoopNames(f, s.v, s.ity, ls.uq) && Counts(ls, ls7)
    requires Ready(k, cx, ls, vs, w, rg, env, vars) && Counting(f, rg, i, limit, step, ls7.b.tc)
    requires Placed(k, ForTail(cx, ls7, vs, s.v, s.ity, f.un, f.cnt, f.b, f.c, s.body))
    requires if i >= limit then res == I.Ok(I.Normal, w.st) else fuel == 0 && res.NoFuel?
    ensures var h := HeadOf(ls7, f, s.ity);
            JoinSim(k, cx, ls, At(k, h.head.b, rg, w.heap), h.ll.fin, res, fuel, vars, w, rg, w2, rg2, m, n)
  {
    hide StepN, Step, Exec, CodeIn, Linked, Extends, Grows, LowerStmts, LamAt, FuncAt, Live, ScopeRel, Inv, Moves,
         RegsKept, FlowDone, UniqName, Dec, Counting, HeadOf, PostOf, ForTail, ForIndex;
    var h := HeadOf(ls7, f, s.ity);
    TailParts(k, cx, ls7, vs, s, f);
    HeadIs(ls7, f, s.ity);
    GrowsCount(ls7, h.head);
    rg2 := RunTest(k, ls7, f, s.ity, rg, w.heap, i, limit, step, ls7.b.tc);
    w2, m, n := w, MUnit, 2;
    FlowRefl(k, ls, cx, vs, vars, w, rg, env);
    KeptTemp(rg, h.head.b.tc, MBool(i < limit), ls.b.tc, ls.uq);
    RegFlow(k, ls, vars, w, rg, w, rg, rg2, -1);
    LabelOpen(k, h.test, h.ll.body, rg2, w.heap);
  }

  // From the end of the body through the post block back to the head.
  lemma RoundNext(k: Act, cx: Cx, ls: LS, ls7: LS, f: ForRegs, vs: Scope, w: World, rg: Regs, env: int,
                  vars: map<nat, string>, s: Stmt,
                  i: int, limit: int, step: int, out: I.Out<I.Flow>, fuel: nat, w2: World, rg2: Regs, m: MVal, n: nat)
    returns (rg3: Regs)
    requires s.SForNum? && LoopNames(f, s.v, s.ity, ls.uq) && Counts(ls, ls7)
    requires Ready(k, cx, ls, vs, w, rg, env, vars) && Counting(f, rg2, i, limit, step, ls7.b.tc)
    requires Placed(k, ForTail(cx, ls7, vs, s.v, s.ity, f.un, f.cnt, f.b, f.c, s.body))
    requires var h := HeadOf(ls7, f, s.ity);
             BodySim(k, ls, At(k, h.head.b, rg, w.heap), h.ll.fin, h.ll.post, out, fuel, -1, vars, w, rg, w2, rg2, m, n)
    requires out.Ok? && (out.v.Normal? || out.v.Continue?)
    ensures var h := HeadOf(ls7, f, s.ity);
            && StepN(k.code.ir, At(k, h.head.b, rg, w.heap), n + 3) == At(k, h.head.b, rg3, w2.heap)
            && FlowDone(k, ls, vars, w, rg, w2, rg3, -1) && Ready(k, cx, ls, vs, w2, rg3, env, vars)
            && Counting(f, rg3, Wrap(i + step, s.ity), limit, step, ls7.b.tc) && w2.st == out.st
  {
    hide StepN, Step, Exec, CodeIn, Linked, Extends, Grows, LowerStmts, LamAt, FuncAt, Live, ScopeRel, Inv, Moves,
         RegsKept, FlowDone, UniqName, Dec, Counting, HeadOf, PostOf, ForTail, ForIndex, FallTo, Stamp;
    var h := HeadOf(ls7, f, s.ity);
    var c := TailOf(cx, ls7, vs, s, f);
    TailParts(k, cx, ls7, vs, s, f);
    HeadIs(ls7, f, s.ity);
    GrowsCount(ls7, c.fall);
    var c0 := At(k, h.head.b, rg, w.heap);
    rg3 := Bumped(rg2, c.fall.b.tc, f.cnt.name, Wrap(i + step, s.ity));
    RunPost(k, c.fall, h.ll, f, s.ity, rg2, w2.heap, i, limit, step, ls7.b.tc);
    Chain(k.code.ir, c0, n, AtLabel(k, h.ll.post, rg2, w2.heap), 3);
    LabelOpen(k, h.last, h.ll.head, rg3, w2.heap);
    BumpedKept(k, ls, ls7, f, s.v, s.ity, vars, w, rg, w2, rg2, c.fall.b.tc, i, limit, step);
    ReadyFlow(k, cx, cx, ls, ls, vs, w, rg, env, vars, w2, rg3);
  }

  lemma BumpedKept(k: Act, ls: LS, ls7: LS, f: ForRegs, x: string, t: IntTy, vars: map<nat, string>, w: World,
                   rg: Regs, w2: World, rg2: Regs,
                   tc: nat, i: int, limit: int, step: int)
    requires LoopNames(f, x, t, ls.uq) && Counts(ls, ls7) && tc >= ls7.b.tc
    requires FlowDone(k, ls, vars, w, rg, w2, rg2, -1) && Counting(f, rg2, i, limit, step, ls7.b.tc)
    ensures var rg3 := Bumped(rg2, tc, f.cnt.name, Wrap(i + step, t));
            FlowDone(k, ls, vars, w, rg, w2, rg3, -1) && Counting(f, rg3, Wrap(i + step, t), limit, step, ls7.b.tc)
  {
    hide LamAt, FuncAt, Live, Inv, Moves, FlowDone, Stamp, RegsKept;
    NameStamps(f, x, t, ls.uq);
    var rg1 := SetTemp(rg2, tc, MInt(Wrap(i + step, t)));
    KeptTemp(rg2, tc, MInt(Wrap(i + step, t)), ls.b.tc, ls.uq);
    KeptLocal(rg1, f.cnt.name, MInt(Wrap(i + step, t)), ls.b.tc, ls.uq);
    RegFlow(k, ls, vars, w, rg, w2, rg2, rg1, -1);
    RegFlow(k, ls, vars, w, rg, w2, rg1, SetLocal(rg1, f.cnt.name, MInt(Wrap(i + step, t))), -1);
  }

  lemma {:induction false} SimFor(k: Act, fuel: nat, cx: Cx, ls: LS, vs: Scope, w: World, rg: Regs, env: int,
                                  vars: map<nat, string>, s: Stmt, loop: bool)
    returns (w2: World, rg2: Regs, m: MVal, n: nat)
    requires s.SForNum? && Ready(k, cx, ls, vs, w, rg, env, vars)
    requires Able(k, cx, vs, w, env, CapturedS(s), LowerStmt(cx, ls, vs, s).0)
    requires OkS(k.code.src.Keys, vs.Keys, cx.chk, loop, s)
    ensures PlainSim(k, cx, ls, LowerStmt(cx, ls, vs, s).0, I.Exec(k.code.prog(), fuel, w.st, env, cx.chk, s), fuel, -1, vars,
                     w, rg, w2, rg2, m, n)
    decreases fuel, s, 2
  {
    hide StepN, Step, Exec, CodeIn, Linked, Extends, Grows, LowerStmt, LowerStmts, LowerExpr, OkS, OkSs, OkE, CapturedS,
         CapturedSs, CapturedE, I.Exec, I.ExecFor, I.Eval, LamAt, FuncAt, Live, ScopeRel, Inv, Moves, RegsKept, Evolves,
         FlowDone, FallTo, BoundsOf, HeadOf, PostOf, ForTail, JoinSim, LoopNames, Counting, EvalBounds, ForIndex;
    var b := BoundsOf(cx, ls, vs, s);
    ForParts(k, cx, ls, vs, s, loop);
    EvalFor(k.code.prog(), fuel, w.st, env, cx.chk, s);
    var n1;
    w2, rg2, n1 := SimBounds(k, fuel, cx, ls, vs, w, rg, env, vars, s);
    m, n := MUnit, n1;
    var out := EvalBounds(k.code.prog(), fuel, w.st, env, cx.chk, s);
    var res := I.Exec(k.code.prog(), fuel, w.st, env, cx.chk, s);
    if out.Ok? {
      var w1, rg1 := w2, rg2;
      BoundsGrow(k, cx, ls, vs, s);
      w2, rg2, m, n := SimLooping(k, fuel, cx, ls, vs, w, rg, env, vars, s, b.done, b.f, w1, rg1, n1, out.v.0, out.v.1,
                                  out.v.2);
      var c := TailOf(cx, b.done, vs, s, b.f);
      TailParts(k, cx, b.done, vs, s, b.f);
      JoinToPlain(k, cx, ls, c.post, c.h.ll.fin, res, fuel, vars, w, rg, w2, rg2, m, n);
    }
  }

  // From the end of the bounds to the end of the loop.
  lemma {:induction false} SimLooping(k: Act, fuel: nat, cx: Cx, ls: LS, vs: Scope, w: World, rg: Regs, env: int,
                                      vars: map<nat, string>, s: Stmt, ls7: LS, f: ForRegs, w1: World, rg1: Regs, n1: nat,
                                      i: int, limit: int, step: int)
    returns (w2: World, rg2: Regs, m: MVal, n: nat)
    requires s.SForNum? && LoopNames(f, s.v, s.ity, ls.uq) && ls.uq + 2 <= ls7.uq && Counts(ls, ls7) && !CurTerminated(ls7.b)
    requires Ready(k, cx, ls, vs, w, rg, env, vars) && FlowDone(k, ls, vars, w, rg, w1, rg1, -1)
    requires Counting(f, rg1, i, limit, step, ls7.b.tc) && s.ity.Holds(i)
    requires StepN(k.code.ir, At(k, ls.b, rg, w.heap), n1) == At(k, ls7.b, rg1, w1.heap)
    requires Able(k, cx, vs, w, env, CapturedSs(s.body), ForTail(cx, ls7, vs, s.v, s.ity, f.un, f.cnt, f.b, f.c, s.body))
    requires s.v !in k.code.src && OkSs(k.code.src.Keys, vs.Keys + {s.v}, cx.chk, true, s.body)
    ensures JoinSim(k, cx, ls, At(k, ls.b, rg, w.heap), HeadOf(ls7, f, s.ity).ll.fin,
                    I.ExecFor(k.code.prog(), fuel, w1.st, env, cx.chk, s.v, s.ity, i, limit, step, s.body), fuel, vars, w, rg, w2, rg2, m, n)
    decreases fuel, s, 0
  {
    hide StepN, Step, Exec, CodeIn, Linked, Extends, Grows, LowerStmt, LowerStmts, LowerExpr, OkS, OkSs, OkE, CapturedS,
         CapturedSs, CapturedE, I.Exec, I.ExecFor, I.Eval, LamAt, FuncAt, Live, ScopeRel, Inv, Moves, RegsKept, Evolves,
         FlowDone, FallTo, BoundsOf, HeadOf, PostOf, ForTail, JoinSim, LoopNames, Counting, ForIndex, CodeOk;
    var h := HeadOf(ls7, f, s.ity);
    TailPlaced(k, cx, ls7, vs, s, f, ls.uq);
    ReadyFlow(k, cx, cx, ls, ls7, vs, w, rg, env, vars, w1, rg1);
    ReadyFlow(k, cx, cx, ls, ls, vs, w, rg, env, vars, w1, rg1);
    OpenHead(k, cx, ls7, h.last, h.head, h.ll.head, vs, w1, rg1, env, vars);
    var c0 := At(k, ls.b, rg, w.heap);
    Chain(k.code.ir, c0, n1, At(k, ls7.b, rg1, w1.heap), 1);
    SettledFlow(k, ls, w, rg, w1, rg1, env, vars, CapturedSs(s.body), vs);
    w2, rg2, m, n := SimRounds(k, fuel, cx, ls, ls7, f, vs, w1, rg1, env, vars, s, i, limit, step);
    var res := I.ExecFor(k.code.prog(), fuel, w1.st, env, cx.chk, s.v, s.ity, i, limit, step, s.body);
    JoinJoin(k, cx, cx, ls, ls, c0, At(k, h.head.b, rg1, w1.heap), h.ll.fin, res, fuel, fuel, vars, w, rg, w1, rg1,
             n1 + 1, w2, rg2, m, n);
    n := n1 + 1 + n;
  }

  lemma TailPlaced(k: Act, cx: Cx, ls: LS, vs: Scope, s: Stmt, f: ForRegs, uq: nat)
    requires s.SForNum? && LoopNames(f, s.v, s.ity, uq)
    requires Placed(k, ForTail(cx, ls, vs, s.v, s.ity, f.un, f.cnt, f.b, f.c, s.body))
    ensures var h := HeadOf(ls, f, s.ity); Placed(k, h.head) && h.head == Block0(h.last, h.ll.head) && JumpsTo(ls, h.last, h.ll.head)
  {
    hide Extends, Grows, LowerStmts, CodeIn, Linked, FallTo, HeadOf, PostOf, ForPost, ForHead, ForIndex, ForTail,
         UniqName, Dec;
    TailParts(k, cx, ls, vs, s, f);
    HeadIs(ls, f, s.ity);
  }

  lemma BoundsGrow(k: Act, cx: Cx, ls: LS, vs: Scope, s: Stmt)
    requires s.SForNum? && !CurTerminated(ls.b) && Placed(k, BoundsOf(cx, ls, vs, s).done)
    ensures var b := BoundsOf(cx, ls, vs, s); Counts(ls, b.done) && ls.uq + 2 <= b.done.uq
  {
    hide Extends, LowerExpr, CodeIn, Linked;
    BoundsPlaced(k, cx, ls, vs, s);
    var b := BoundsOf(cx, ls, vs, s);
    var r6 := LowerExpr(cx, b.snapB, vs, StrideOf(s));
    SnapshotGrows(r6.0, r6.1, s.ity);
    GrowsCount(ls, b.snapB);
    GrowsCount(b.snapB, r6.0);
  }
}
