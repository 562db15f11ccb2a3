// Programs just outside the conditions of the lowering theorem for which the
// compiled code and the interpreter disagree.
module Divergence {
  import opened Numeric
  import opened Syntax
  import opened Ir
  import opened Names
  import opened Lowering
  import opened Machine
  import opened Linking
  import opened Theorem
  import I = Interp

  // A parameter of the shape uniq mints:
  //   func f (x_1 i32) -> i32
  //       let x i32 = 5
  //       return x_1
  const CLASH: FuncDecl :=
    FuncDecl("f", Cons(Param("x_1", TInt(I32)), Nil), TInt(I32),
             Cons(SLet("x", TInt(I32), EInt(5, I32), false), Cons(SReturn(EName("x_1")), Nil)))

  // The interpreter returns the argument.
  lemma ClashInterpreted(n: int)
    requires I32.Holds(n)
    ensures var o := Interpret(I.Exact, Cons(CLASH, Nil), 0, "f", [I.VInt(n, I32)]); o.Ok? && o.v == I.VInt(n, I32)
  {
    var p := I.Program(Source(Cons(CLASH, Nil)), I.Exact);
    var a := I.VInt(n, I32);
    var st0 := I.NewEnv(I.Store([], []), -1);
    var st1 := I.Define(st0, 0, "x_1", a, true);
    assert I.BindParams(st1, 0, Nil, [a][1..]) == Some(st1);
    assert I.BindParams(st0, 0, CLASH.params, [a]) == Some(st1);
    var st2 := I.Define(st1, 0, "x", I.VInt(5, I32), false);
    assert I.Exec(p, 0, st1, 0, false, CLASH.body.head) == I.Ok(I.Normal, st2);
    assert I.Lookup(st2.envs, 0, "x_1") == Some(0) && st2.cells[0].value == a;
    assert I.EvalName(p, st2, 0, "x_1") == I.Ok(a, st2);
    assert I.Exec(p, 0, st2, 0, false, CLASH.body.tail.head) == I.Ok(I.Return(a), st2);
    assert I.ExecBlock(p, 0, st2, 0, false, CLASH.body.tail) == I.Ok(I.Return(a), st2);
    assert I.ExecBlock(p, 0, st1, 0, false, CLASH.body) == I.Ok(I.Return(a), st2);
  }

  const ENTRY: IRFunc :=
    IRFunc("cl_m__f", Cons(IRParam("x_1", TyOf(TInt(I32))), Nil),
           [Block("entry", [IAssign(PLocal("x_1"), ImmInt(5, I32)), IRet(Local("x_1", TyOf(TInt(I32))))])],
           [], [IRParam("x_1", TyOf(TInt(I32)))])

  const ARG: IVal := Local("x_1", TyOf(TInt(I32)))

  function Entered(): LS { LS(NewBuilder("cl_m__f", Cons(IRParam("x_1", TyOf(TInt(I32))), Nil)), 0, 0, [], false) }

  lemma ClashNames()
    ensures Mangle("m", "f") == "cl_m__f" && UniqName("x", 1) == "x_1" && CapturedSs(CLASH.body) == {}
  {
    assert Dec(1) == "1";
    assert CapturedSs(CLASH.body.tail) == {};
  }

  lemma ClashEntry()
    ensures FuncEntry(FuncCx("m", CLASH.body), 0, [], CLASH) == (Entered(), map["x_1" := ARG])
  {
    hide LowerStmts, Dec;
    ClashNames();
    var cx := FuncCx("m", CLASH.body);
    assert IrParams(CLASH.params) == Cons(IRParam("x_1", TyOf(TInt(I32))), Nil);
    assert BindParams(cx, Entered(), Nil, map["x_1" := ARG]) == (Entered(), map["x_1" := ARG]);
    assert BindParams(cx, Entered(), CLASH.params, map[]) == (Entered(), map["x_1" := ARG]);
  }

  // The binding of x overwrites the parameter: uniq gives it the parameter's name.
  function ClashBound(): LS {
    Put(Loc(Entered(), "x", TyOf(TInt(I32))).0, IAssign(PLocal("x_1"), ImmInt(5, I32)))
  }

  lemma ClashLet(cx: Cx)
    requires cx.captured == {}
    ensures LowerStmt(cx, Entered(), map["x_1" := ARG], CLASH.body.head) == (ClashBound(), map["x_1" := ARG, "x" := ARG])
  {
    hide Dec, Mangle, Emit, LowerOp, UniqName;
    ClashNames();
    assert Loc(Entered(), "x", TyOf(TInt(I32))).1 == ARG;
    assert LowerExpr(cx, Entered(), map["x_1" := ARG], EInt(5, I32)) == (Entered(), ImmInt(5, I32));
  }

  lemma ClashReturn(cx: Cx)
    ensures LowerStmts(cx, ClashBound(), map["x_1" := ARG, "x" := ARG], CLASH.body.tail) == Put(ClashBound(), IRet(ARG))
  {
    hide Dec, Mangle, Emit, LowerOp, UniqName, Loc;
    var vs: Scope := map["x_1" := ARG, "x" := ARG];
    assert LowerExpr(cx, ClashBound(), vs, EName("x_1")) == (ClashBound(), ARG);
    var ls2 := Put(ClashBound(), IRet(ARG));
    assert LowerStmt(cx, ClashBound(), vs, CLASH.body.tail.head) == (ls2, vs);
    assert LowerStmts(cx, ls2, vs, Nil) == ls2;
  }

  lemma ClashBody()
    ensures FuncBody("m", 0, [], CLASH) == LS(BuilderState(ENTRY, 0, 0, 0), 1, 0, [], false)
  {
    hide Dec, Mangle, UniqName, LowerStmt;
    ClashNames();
    ClashEntry();
    var cx := FuncCx("m", CLASH.body);
    ClashLet(cx);
    ClashReturn(cx);
    var ls2 := Put(ClashBound(), IRet(ARG));
    assert LowerStmts(cx, Entered(), map["x_1" := ARG], CLASH.body) == ls2;
    assert [] + [IAssign(PLocal("x_1"), ImmInt(5, I32))] + [IRet(ARG)] == ENTRY.blocks[0].instrs;
    assert ls2.b.fn.blocks == ENTRY.blocks;
  }

  lemma ClashLowered()
    ensures LowerFunc("m", 0, [], CLASH) == (0, [ENTRY])
  {
    hide FuncBody;
    ClashBody();
    var ls := FuncBody("m", 0, [], CLASH);
    assert CurTerminated(ls.b);
    assert [] + [ENTRY] == [ENTRY];
  }

  // The compiled code returns 5, whatever the argument.
  lemma ClashCompiled(n: int)
    ensures RunFor("m", Cons(CLASH, Nil), "f", [I.VInt(n, I32)], 2) == Halt(MInt(5), [])
  {
    hide LowerFunc, Dec, Mangle, UniqName;
    ClashNames();
    ClashLowered();
    var q := Compile("m", Cons(CLASH, Nil));
    assert LowerModule("m", 0, [ENTRY], Nil) == (0, [ENTRY]);
    assert LowerModule("m", 0, [], Cons(CLASH, Nil)) == (0, [ENTRY]);
    assert Link([]) == map[];
    assert [ENTRY][..0] == [];
    assert Link([ENTRY]) == map["cl_m__f" := ENTRY];
    assert q == map["cl_m__f" := ENTRY];
    assert Flats([I.VInt(n, I32)]) == [MInt(n)];
    var c0 := Start("m", Cons(CLASH, Nil), "f", [I.VInt(n, I32)]);
    assert BindArgs(Nil, [MInt(n)][1..]) == map[];
    var rg := Regs(map[], map["x_1" := MInt(n)]);
    assert c0 == Run(Frame(ENTRY, 0, 0, rg, None), Nil, []);
    var rg1 := SetLocal(rg, "x_1", MInt(5));
    var c1 := Run(Frame(ENTRY, 0, 1, rg1, None), Nil, []);
    assert Step(q, c0) == c1;
    assert Step(q, c1) == Halt(MInt(5), []);
    assert StepN(q, Halt(MInt(5), []), 0) == Halt(MInt(5), []);
    assert StepN(q, c1, 1) == Halt(MInt(5), []);
  }

  // So no parameter may have that shape.
  lemma ParameterClash()
    ensures exists n :: I32.Holds(n)
              && Interpret(I.Exact, Cons(CLASH, Nil), 0, "f", [I.VInt(n, I32)]).Ok?
              && RunFor("m", Cons(CLASH, Nil), "f", [I.VInt(n, I32)], 2).Halt?
              && Flat(Interpret(I.Exact, Cons(CLASH, Nil), 0, "f", [I.VInt(n, I32)]).v) != RunFor("m", Cons(CLASH, Nil), "f", [I.VInt(n, I32)], 2).v
    ensures NamesFine(Cons(CLASH, Nil)) && !FineModule(Cons(CLASH, Nil))
  {
    hide LowerFunc, Dec, Mangle, UniqName, RunFor, Interpret;
    ClashInterpreted(7);
    ClashCompiled(7);
    assert I32.Holds(7);
    ClashNames();
    StampOfUniq("x", 1);
  }

  // A function literal inside `checked`: the interpreter's calls leave the checked
  // region, the lifted code was lowered with the flag still set:
  //   func f () -> i8
  //       checked
  //           let g = func () -> i8 { return (+ 127 1) }
  //           return (g)
  const SUM: Expr := EOp(Bin(Add), Cons(EInt(127, I8), Cons(EInt(1, I8), Nil)), I8)

  const GBODY: List<Stmt> := Cons(SReturn(SUM), Nil)

  const GTY: Ty := TFunc(Nil, TInt(I8))

  const INNER: List<Stmt> :=
    Cons(SLet("g", GTY, EFunc(Nil, TInt(I8), GBODY), false), Cons(SReturn(ECall(EName("g"), Nil, TInt(I8))), Nil))

  const LITERAL: FuncDecl := FuncDecl("f", Nil, TInt(I8), Cons(SChecked(INNER), Nil))

  // The interpreter wraps.
  lemma LiteralInterpreted()
    ensures var o := Interpret(I.Exact, Cons(LITERAL, Nil), 1, "f", []); o.Ok? && o.v == I.VInt(-128, I8)
  {
    hide I.Eval, FoldMath, Wrap;
    var p := I.Program(Source(Cons(LITERAL, Nil)), I.Exact);
    var st0 := I.NewEnv(I.Store([], []), -1);
    assert I.BindParams(st0, 0, Nil, []) == Some(st0);
    LiteralBlock(p, st0);
    var st3 := LiteralFinal(st0);
    var v := I.VInt(-128, I8);
    assert I.ExecInner(p, 1, st0, 0, true, INNER) == I.Ok(I.Return(v), st3);
    assert I.Exec(p, 1, st0, 0, false, SChecked(INNER)) == I.Ok(I.Return(v), st3);
    assert I.ExecBlock(p, 1, st0, 0, false, LITERAL.body) == I.Ok(I.Return(v), st3);
  }

  function LiteralFinal(st0: I.Store): I.Store
    requires |st0.envs| == 1
  {
    I.NewEnv(I.Define(I.NewEnv(st0, 0), 1, "g", I.VClo(Nil, TInt(I8), GBODY, 1), false), 1)
  }

  // The checked block makes g and calls it.
  lemma LiteralBlock(p: I.Program, st0: I.Store)
    requires st0 == I.NewEnv(I.Store([], []), -1)
    ensures I.ExecBlock(p, 1, I.NewEnv(st0, 0), 1, true, INNER) == I.Ok(I.Return(I.VInt(-128, I8)), LiteralFinal(st0))
  {
    hide I.Apply, FoldMath, Wrap;
    var clo := I.VClo(Nil, TInt(I8), GBODY, 1);
    var st1 := I.NewEnv(st0, 0);
    var st2 := I.Define(st1, 1, "g", clo, false);
    assert I.Exec(p, 1, st1, 1, true, INNER.head) == I.Ok(I.Normal, st2);
    LiteralCalled(p, st2, clo);
    var st3 := I.NewEnv(st2, 1);
    var v := I.VInt(-128, I8);
    assert I.Lookup(st2.envs, 1, "g") == Some(0) && st2.cells[0].value == clo;
    assert I.Eval(p, 1, st2, 1, true, EName("g")) == I.Ok(clo, st2);
    assert I.EvalAll(p, 1, st2, 1, true, Nil) == I.Ok([], st2);
    assert I.Eval(p, 1, st2, 1, true, ECall(EName("g"), Nil, TInt(I8))) == I.Ok(v, st3);
    assert I.Exec(p, 1, st2, 1, true, INNER.tail.head) == I.Ok(I.Return(v), st3);
    assert I.ExecBlock(p, 1, st2, 1, true, INNER.tail) == I.Ok(I.Return(v), st3);
    assert I.ExecBlock(p, 1, st1, 1, true, INNER) == I.Ok(I.Return(v), st3);
  }

  // The call of g is outside the checked region.
  lemma LiteralCalled(p: I.Program, st: I.Store, clo: I.Value)
    requires clo == I.VClo(Nil, TInt(I8), GBODY, 1)
    ensures I.Apply(p, 0, st, clo, []) == I.Ok(I.VInt(-128, I8), I.NewEnv(st, 1))
  {
    var st1 := I.NewEnv(st, 1);
    var e := |st.envs|;
    assert I.BindParams(st1, e, Nil, []) == Some(st1);
    assert I.EvalInts(p, 0, st1, e, false, Nil, I8) == I.Ok([], st1);
    assert I.EvalInts(p, 0, st1, e, false, Cons(EInt(1, I8), Nil), I8) == I.Ok([1] + [], st1);
    assert I.EvalInts(p, 0, st1, e, false, SUM.args, I8) == I.Ok([127] + ([1] + []), st1);
    assert [127] + ([1] + []) == [127, 1];
    assert FoldMath(Add, 127, [1]) == FoldMath(Add, 128, []);
    assert [127, 1][1..] == [1] && [1][1..] == [];
    assert Wrap(128, I8) == -128;
    assert I.Eval(p, 0, st1, e, false, SUM) == I.Ok(I.VInt(-128, I8), st1);
    assert I.Exec(p, 0, st1, e, false, GBODY.head) == I.Ok(I.Return(I.VInt(-128, I8)), st1);
    assert I.ExecBlock(p, 0, st1, e, false, GBODY) == I.Ok(I.Return(I.VInt(-128, I8)), st1);
  }

  const LNAME: string := "cl_m__0lambda1"

  const I8T: IRType := TyOf(TInt(I8))

  // The lifted function: its addition tests for overflow.
  const LIFTED: IRFunc :=
    IRFunc("cl_m__0lambda1", Cons(IRParam("__env", ENV_TY), Nil),
           [Block("entry", [IBin(0, Bin(Add), ImmInt(127, I8), ImmInt(1, I8), I8, true), IRet(Temp(0, TyOf(TInt(I8))))])],
           [Temp(0, TyOf(TInt(I8)))], [])

  const OUTER: IRFunc :=
    IRFunc("cl_m__f", Nil,
           [Block("entry", [IMakeClosure(0, "cl_m__0lambda1", ImmNull), IAssign(PLocal("g_1"), Temp(0, TyOf(GTY))),
                            ICallClosure(Some(1), Local("g_1", TyOf(GTY)), []), IRet(Temp(1, TyOf(TInt(I8))))])],
           [Temp(0, TyOf(GTY)), Temp(1, TyOf(TInt(I8)))], [IRParam("g_1", TyOf(GTY))])

  lemma LiteralNames()
    ensures Mangle("m", "f") == "cl_m__f" && UniqName("g", 1) == "g_1" && LambdaName("m", 1) == "cl_m__0lambda1"
    ensures LambdaFree(Nil, GBODY) == {} && CapturedSs(GBODY) == {} && CapturedSs(INNER) == {} && CapturedSs(LITERAL.body) == {}
    ensures SortedNames({}) == []
  {
    assert Dec(1) == "1";
    assert FreeEs(Cons(EInt(1, I8), Nil), {}) == {};
    assert FreeE(SUM, {}) == {};
    assert CapturedEs(Cons(EInt(1, I8), Nil)) == {};
    assert CapturedE(SUM) == {};
    assert CapturedEs(Nil) == {};
    assert CapturedSs(INNER.tail) == {};
  }

  lemma LiftedLowered(cx: Cx)
    requires cx.chk && cx.mod == "m"
    ensures LowerLambda(cx, 1, [], LNAME, Nil, TInt(I8), GBODY, [], []) == (1, [LIFTED])
  {
    hide LambdaBody;
    LiftedBody(cx);
    var ls := LambdaBody(cx, 1, [], LNAME, Nil, GBODY, [], []);
    assert CurTerminated(ls.b);
    assert [] + [LIFTED] == [LIFTED];
  }

  lemma LiftedBody(cx: Cx)
    requires cx.chk && cx.mod == "m"
    ensures LambdaBody(cx, 1, [], LNAME, Nil, GBODY, [], []) == LS(BuilderState(LIFTED, 1, 0, 0), 0, 1, [], false)
  {
    hide UniqName, LambdaName, CapturedE, CapturedEs, LowerExpr, Dec, Mangle, SortedNames, LambdaFree, LowerOp;
    LiteralNames();
    var cx1 := cx.(captured := {});
    var none: Scope := map[];
    var ls0 := LS(NewBuilder(LNAME, Cons(IRParam("__env", ENV_TY), Nil)), 0, 1, [], false);
    assert LoadCaps(ls0, [], [], 0, map[]) == (ls0, none);
    assert BindParams(cx1, ls0, Nil, none) == (ls0, none);
    assert LambdaEntry(cx1, 1, [], LNAME, Nil, [], []) == (ls0, none);
    SumLowered(cx1, ls0);
    var r := LowerExpr(cx1, ls0, none, SUM);
    var ls2 := Put(r.0, IRet(r.1));
    assert LowerStmt(cx1, ls0, none, GBODY.head) == (ls2, none);
    assert LowerStmts(cx1, ls2, none, Nil) == ls2;
    assert LowerStmts(cx1, ls0, none, GBODY) == ls2;
    assert LambdaBody(cx, 1, [], LNAME, Nil, GBODY, [], []) == ls2;
    assert [] + [IBin(0, Bin(Add), ImmInt(127, I8), ImmInt(1, I8), I8, true)] + [IRet(Temp(0, I8T))] == LIFTED.blocks[0].instrs;
    assert ls2.b.fn.blocks == LIFTED.blocks;
    assert [] + [Temp(0, I8T)] == LIFTED.temps;
  }

  lemma SumLowered(cx: Cx, ls: LS)
    requires cx.chk && ls.b.tc == 0
    ensures LowerExpr(cx, ls, map[], SUM) == (Put(Tmp(ls, I8T).0, IBin(0, Bin(Add), ImmInt(127, I8), ImmInt(1, I8), I8, true)), Temp(0, I8T))
  {
    var none: Scope := map[];
    assert LowerExpr(cx, ls, none, EInt(127, I8)) == (ls, ImmInt(127, I8));
    assert LowerExpr(cx, ls, none, EInt(1, I8)) == (ls, ImmInt(1, I8));
    var (ls2, dst) := Tmp(ls, I8T);
    var ls3 := Put(ls2, IBin(0, Bin(Add), ImmInt(127, I8), ImmInt(1, I8), I8, true));
    assert LowerFold(cx, ls3, none, Bin(Add), Nil, I8, dst) == (ls3, dst);
    assert LowerFold(cx, ls, none, Bin(Add), Cons(EInt(1, I8), Nil), I8, ImmInt(127, I8)) == (ls3, dst);
    assert LowerOp(cx, ls, none, Bin(Add), SUM.args, I8) == (ls3, dst);
  }

  lemma OpenEmpty(ls: LS, fty: IRType)
    requires ls.b.tc == 0 && ls.lamn == 0 && !ls.refused
    ensures OpenLiteral("m", ls, map[], [], fty) == (Put(Tmp(ls.(lamn := 1), fty).0, IMakeClosure(0, LNAME, ImmNull)), Temp(0, fty), LNAME)
  {
    hide CapturedSs, LambdaFree, Emit, Dec, Mangle;
    LiteralNames();
  }

  // The literal itself, inside the checked region.
  lemma ClosureLowered(cx: Cx, ls: LS)
    requires cx.chk && cx.mod == "m" && ls.b.tc == 0 && ls.lamn == 0 && ls.funcs == [] && !ls.refused
    ensures LowerExpr(cx, ls, map[], INNER.head.init)
         == (Put(Tmp(ls.(lamn := 1), TyOf(GTY)).0, IMakeClosure(0, LNAME, ImmNull)).(funcs := [LIFTED]), Temp(0, TyOf(GTY)))
  {
    hide OpenLiteral, LowerLambda, LambdaBody, Dec, Mangle, SortedNames, LambdaFree, LambdaName, Emit;
    LiteralNames();
    LiftedLowered(cx);
    LiftedBody(cx);
    OpenEmpty(ls, TyOf(GTY));
    var none: Scope := map[];
    assert {} * none.Keys == {};
    assert CapTypes(none, []) == [];
    assert ParamTypes(Nil) == Nil;
  }

  const G: IVal := Local("g_1", TyOf(GTY))

  // let g = ...
  lemma BindingLowered(cx: Cx, ls: LS)
    requires cx.chk && cx.mod == "m" && cx.captured == {} && ls.b == NewBuilder("cl_m__f", Nil) && ls.uq == 0 && ls.lamn == 0 && ls.funcs == [] && !ls.refused
    ensures LowerStmt(cx, ls, map[], INNER.head) == (LS(Bound(), 1, 1, [LIFTED], false), map["g" := G])
  {
    hide Dec, SortedNames, LowerExpr, LambdaName;
    LiteralNames();
    ClosureLowered(cx, ls);
    var r := LowerExpr(cx, ls, map[], INNER.head.init);
    var loc := Loc(r.0, "g", TyOf(GTY));
    assert loc.1 == G;
    var ls1 := Put(loc.0, IAssign(PLocal("g_1"), Temp(0, TyOf(GTY))));
    assert [] + [IMakeClosure(0, LNAME, ImmNull)] + [IAssign(PLocal("g_1"), Temp(0, TyOf(GTY)))] == Bound().fn.blocks[0].instrs;
    assert ls1.b.fn.blocks == Bound().fn.blocks;
    assert [] + [Temp(0, TyOf(GTY))] == Bound().fn.temps;
    assert [] + [IRParam("g_1", TyOf(GTY))] == Bound().fn.locals;
  }

  function Bound(): Builder {
    BuilderState(
      IRFunc("cl_m__f", Nil, [Block("entry", [IMakeClosure(0, "cl_m__0lambda1", ImmNull), IAssign(PLocal("g_1"), Temp(0, TyOf(GTY)))])],
             [Temp(0, TyOf(GTY))], [IRParam("g_1", TyOf(GTY))]), 1, 0, 0)
  }

  // return (g)
  lemma CallLowered(cx: Cx, ls: LS)
    requires cx.chk && ls.b == Bound()
    ensures LowerStmt(cx, ls, map["g" := G], INNER.tail.head) == (ls.(b := BuilderState(OUTER, 2, 0, 0)), map["g" := G])
  {
    hide LowerExpr;
    var vs: Scope := map["g" := G];
    CalledLowered(cx, ls);
    var ls3 := Put(Tmp(ls, I8T).0, ICallClosure(Some(1), G, []));
    var ls4 := Put(ls3, IRet(Temp(1, I8T)));
    assert [IMakeClosure(0, LNAME, ImmNull), IAssign(PLocal("g_1"), Temp(0, TyOf(GTY)))] + [ICallClosure(Some(1), G, [])] + [IRet(Temp(1, I8T))]
        == OUTER.blocks[0].instrs;
    assert ls4.b.fn.blocks == OUTER.blocks;
    assert [Temp(0, TyOf(GTY))] + [Temp(1, I8T)] == OUTER.temps;
  }

  lemma CalledLowered(cx: Cx, ls: LS)
    requires ls.b == Bound()
    ensures LowerExpr(cx, ls, map["g" := G], ECall(EName("g"), Nil, TInt(I8))) == (Put(Tmp(ls, I8T).0, ICallClosure(Some(1), G, [])), Temp(1, I8T))
  {
    hide Put, LowerOp;
    var vs: Scope := map["g" := G];
    assert LowerExpr(cx, ls, vs, EName("g")) == (ls, G);
    assert LowerExprs(cx, ls, vs, Nil) == (ls, []);
  }

  lemma OuterLowered()
    ensures LowerFunc("m", 0, [], LITERAL) == (1, [LIFTED, OUTER])
  {
    hide Dec, Mangle, SortedNames, LowerExpr, LambdaName;
    LiteralNames();
    var cx := FuncCx("m", LITERAL.body);
    var cx1 := cx.(chk := true);
    var ls0 := LS(NewBuilder("cl_m__f", Nil), 0, 0, [], false);
    var none: Scope := map[];
    assert IrParams(Nil) == Nil;
    assert BindParams(cx, ls0, Nil, none) == (ls0, none);
    BindingLowered(cx1, ls0);
    var ls1 := LS(Bound(), 1, 1, [LIFTED], false);
    CallLowered(cx1, ls1);
    var ls4 := LS(BuilderState(OUTER, 2, 0, 0), 1, 1, [LIFTED], false);
    var vs1: Scope := map["g" := G];
    assert LowerStmts(cx1, ls4, vs1, Nil) == ls4;
    assert LowerStmts(cx1, ls1, vs1, INNER.tail) == ls4;
    assert LowerStmts(cx1, ls0, none, INNER) == ls4;
    assert LowerStmt(cx, ls0, none, SChecked(INNER)) == (ls4, none);
    assert LowerStmts(cx, ls4, none, Nil) == ls4;
    assert LowerStmts(cx, ls0, none, LITERAL.body) == ls4;
    assert FuncBody("m", 0, [], LITERAL) == ls4;
    assert CurTerminated(ls4.b) && Finish(ls4, TInt(I8)) == ls4;
    assert [LIFTED] + [OUTER] == [LIFTED, OUTER];
  }

  lemma LiteralLinked()
    ensures Compile("m", Cons(LITERAL, Nil)) == map["cl_m__0lambda1" := LIFTED, "cl_m__f" := OUTER]
  {
    hide LowerFunc, Dec, Mangle, UniqName;
    OuterLowered();
    assert LowerModule("m", 1, [LIFTED, OUTER], Nil) == (1, [LIFTED, OUTER]);
    assert LowerModule("m", 0, [], Cons(LITERAL, Nil)) == (1, [LIFTED, OUTER]);
    assert [LIFTED, OUTER][..1] == [LIFTED] && [LIFTED][..0] == [];
    assert Link([]) == map[];
    assert Link([LIFTED]) == map["cl_m__0lambda1" := LIFTED];
  }

  // The compiled code panics.
  lemma LiteralCompiled()
    ensures RunFor("m", Cons(LITERAL, Nil), "f", [], 4) == Panicked
  {
    hide Compile, Dec, Mangle, UniqName, Exec;
    LiteralNames();
    LiteralLinked();
    var q := Compile("m", Cons(LITERAL, Nil));
    assert Flats([]) == [];
    var clo := MClo("cl_m__0lambda1", MNull);
    var c0 := Start("m", Cons(LITERAL, Nil), "f", []);
    assert c0 == Run(Frame(OUTER, 0, 0, Regs(map[], map[]), None), Nil, []);
    var rg2 := Regs(map[0 := clo], map["g_1" := clo]);
    var c2 := Run(Frame(OUTER, 0, 2, rg2, None), Nil, []);
    Making(q);
    Entering(q, rg2);
    Trapping(q, Cons(Next(Frame(OUTER, 0, 2, rg2, None), rg2), Nil));
    var c3 := Step(q, c2);
    assert StepN(q, Step(q, c3), 0) == Panicked;
    assert StepN(q, c3, 1) == Panicked;
    assert StepN(q, c2, 2) == Panicked;
    assert StepN(q, Step(q, c0), 3) == Panicked;
  }

  lemma Making(q: IRProgram)
    ensures var clo := MClo("cl_m__0lambda1", MNull);
            Step(q, Step(q, Run(Frame(OUTER, 0, 0, Regs(map[], map[]), None), Nil, [])))
            == Run(Frame(OUTER, 0, 2, Regs(map[0 := clo], map["g_1" := clo]), None), Nil, [])
  {
    var clo := MClo("cl_m__0lambda1", MNull);
    assert Step(q, Run(Frame(OUTER, 0, 0, Regs(map[], map[]), None), Nil, []))
        == Run(Frame(OUTER, 0, 1, Regs(map[0 := clo], map[]), None), Nil, []);
  }

  lemma Trapping(q: IRProgram, stack: List<Frame>)
    ensures Step(q, Run(Frame(LIFTED, 0, 0, Regs(map[], map["__env" := MNull]), Some(1)), stack, [])) == Panicked
  {
    assert AluBin(Bin(Add), MInt(127), MInt(1), I8, true) == Trap;
  }

  lemma Entering(q: IRProgram, rg: Regs)
    requires q == map["cl_m__0lambda1" := LIFTED, "cl_m__f" := OUTER]
    requires rg == Regs(map[0 := MClo("cl_m__0lambda1", MNull)], map["g_1" := MClo("cl_m__0lambda1", MNull)])
    ensures var fr := Frame(OUTER, 0, 2, rg, None);
            Step(q, Run(fr, Nil, []))
            == Run(Frame(LIFTED, 0, 0, Regs(map[], map["__env" := MNull]), Some(1)), Cons(Next(fr, rg), Nil), [])
  {
    assert ValsOf(rg, []) == Some([]);
    assert [MNull] + [] == [MNull];
    assert BindArgs(Nil, [MNull][1..]) == map[];
  }

  // So `checked` may not hold a function literal.
  lemma LiteralInChecked()
    ensures Interpret(I.Exact, Cons(LITERAL, Nil), 1, "f", []).Ok? && RunFor("m", Cons(LITERAL, Nil), "f", [], 4) == Panicked
    ensures NamesFine(Cons(LITERAL, Nil)) && !FineModule(Cons(LITERAL, Nil))
  {
    hide RunFor, Interpret;
    LiteralInterpreted();
    LiteralCompiled();
  }

  // A counted loop whose last increment leaves the index type:
  //   func f () -> i32
  //       for i u8 = 0 to 255 step 2
  //           pass
  //       return 1
  const PASS: List<Stmt> := Cons(SPass, Nil)

  const LOOPS: FuncDecl :=
    FuncDecl("f", Nil, TInt(I32),
             Cons(SForNum("i", U8, EInt(0, U8), EInt(255, U8), Some(EInt(2, U8)), PASS), Cons(SReturn(EInt(1, I32)), Nil)))

  lemma PassDone(p: I.Program, fuel: nat, st: I.Store, env: int)
    ensures I.ExecBlock(p, fuel, st, env, false, PASS) == I.Ok(I.Normal, st)
  {
    assert I.ExecBlock(p, fuel, st, env, false, Nil) == I.Ok(I.Normal, st);
  }

  lemma {:induction false} LoopEnds(p: I.Program, fuel: nat, st: I.Store, i: int)
    requires p.mode.Exact? && i + 2 * fuel >= 255
    ensures var o := I.ExecFor(p, fuel, st, 0, false, "i", U8, i, 255, 2, PASS); o.Ok? && o.v == I.Normal
    decreases fuel
  {
    hide I.ExecBlock;
    if i < 255 {
      var st1 := I.Define(I.NewEnv(st, 0), |st.envs|, "i", I.VInt(i, U8), true);
      PassDone(p, fuel - 1, st1, |st.envs|);
      LoopEnds(p, fuel - 1, st1, i + 2);
    }
  }

  lemma {:induction false} LoopGoesRound(p: I.Program, fuel: nat, st: I.Store, i: int)
    requires p.mode.Wrapping? && 0 <= i <= 254 && i % 2 == 0
    ensures I.ExecFor(p, fuel, st, 0, false, "i", U8, i, 255, 2, PASS).NoFuel?
    decreases fuel
  {
    hide I.ExecBlock;
    if fuel > 0 {
      var st1 := I.Define(I.NewEnv(st, 0), |st.envs|, "i", I.VInt(i, U8), true);
      PassDone(p, fuel - 1, st1, |st.envs|);
      assert Wrap(i + 2, U8) == if i == 254 then 0 else i + 2;
      LoopGoesRound(p, fuel - 1, st1, Wrap(i + 2, U8));
    }
  }

  lemma LoopStarts(mode: I.Mode, fuel: nat)
    ensures var p := I.Program(Source(Cons(LOOPS, Nil)), mode);
            var st0 := I.NewEnv(I.Store([], []), -1);
            var r := I.ExecFor(p, fuel, st0, 0, false, "i", U8, 0, 255, 2, PASS);
            var o := Interpret(mode, Cons(LOOPS, Nil), fuel, "f", []);
            && (r.NoFuel? ==> o.NoFuel?)
            && (r.Ok? && r.v == I.Normal ==> o.Ok? && o.v == I.VInt(1, I32))
  {
    hide I.ExecFor;
    var p := I.Program(Source(Cons(LOOPS, Nil)), mode);
    var st0 := I.NewEnv(I.Store([], []), -1);
    assert I.BindParams(st0, 0, Nil, []) == Some(st0);
    var s := LOOPS.body.head;
    assert I.EvalBound(p, fuel, st0, 0, false, s.start, U8) == I.Ok(0, st0);
    assert I.EvalBound(p, fuel, st0, 0, false, s.stop, U8) == I.Ok(255, st0);
    assert s.stride == Some(EInt(2, U8));
    assert I.EvalBound(p, fuel, st0, 0, false, EInt(2, U8), U8) == I.Ok(2, st0);
    assert I.EvalStride(p, fuel, st0, 0, false, s.stride, U8) == I.Ok(2, st0);
    var r := I.ExecFor(p, fuel, st0, 0, false, "i", U8, 0, 255, 2, PASS);
    assert I.Exec(p, fuel, st0, 0, false, s) == r;
    if r.Ok? && r.v == I.Normal {
      assert I.Exec(p, fuel, r.st, 0, false, LOOPS.body.tail.head) == I.Ok(I.Return(I.VInt(1, I32)), r.st);
      assert I.ExecBlock(p, fuel, r.st, 0, false, LOOPS.body.tail) == I.Ok(I.Return(I.VInt(1, I32)), r.st);
    }
    var b := I.ExecBlock(p, fuel, st0, 0, false, LOOPS.body);
    assert r.NoFuel? ==> b.NoFuel?;
    assert r.Ok? && r.v == I.Normal ==> b == I.Ok(I.Return(I.VInt(1, I32)), r.st);
    assert Source(Cons(LOOPS, Nil))["f"] == LOOPS;
  }

  lemma LoopsFine()
    ensures FineModule(Cons(LOOPS, Nil)) && WellCalled(Cons(LOOPS, Nil), "f", [])
  {
    assert CapturedSs(PASS) == {} && CapturedSs(LOOPS.body.tail) == {};
    assert OkSs({"f"}, {"i"}, false, true, PASS);
    assert OkSs({"f"}, {}, false, false, LOOPS.body.tail);
  }

  // The interpreter counts to 256 and returns. The compiled counter comes round to
  // 0, for ever.
  lemma LoopThatWraps(mod: string)
    ensures FineModule(Cons(LOOPS, Nil)) && WellCalled(Cons(LOOPS, Nil), "f", [])
    ensures Returns(I.Exact, Cons(LOOPS, Nil), "f", [], I.VInt(1, I32)) && RunsForever(mod, Cons(LOOPS, Nil), "f", [])
  {
    hide Interpret, RunFor;
    LoopsFine();
    var st0 := I.NewEnv(I.Store([], []), -1);
    LoopStarts(I.Exact, 128);
    LoopEnds(I.Program(Source(Cons(LOOPS, Nil)), I.Exact), 128, st0, 0);
    assert Interpret(I.Exact, Cons(LOOPS, Nil), 128, "f", []).Ok?;
    forall fuel ensures Interpret(I.Wrapping, Cons(LOOPS, Nil), fuel, "f", []).NoFuel? {
      LoopStarts(I.Wrapping, fuel);
      LoopGoesRound(I.Program(Source(Cons(LOOPS, Nil)), I.Wrapping), fuel, st0, 0);
    }
    assert Diverges(I.Wrapping, Cons(LOOPS, Nil), "f", []);
    LoweringWraps(mod, Cons(LOOPS, Nil), "f", []);
  }
}
