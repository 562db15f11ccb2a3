// Lowering only appends: blocks keep their labels and their instructions as a
// prefix, and every counter only goes up.
module Growth {
  import opened Numeric
  import opened Syntax
  import opened Ir
  import opened Names
  import opened Lowering

  ghost predicate Extends(a: Builder, b: Builder) {
    && |a.fn.blocks| <= |b.fn.blocks|
    && a.tc <= b.tc && a.bc <= b.bc
    && b.fn.name == a.fn.name && b.fn.params == a.fn.params
    && forall i {:trigger b.fn.blocks[i]} :: 0 <= i < |a.fn.blocks| ==>
         b.fn.blocks[i].lbl == a.fn.blocks[i].lbl && a.fn.blocks[i].instrs <= b.fn.blocks[i].instrs
  }

  ghost predicate Grows(a: LS, b: LS) {
    Extends(a.b, b.b) && a.uq <= b.uq && a.lamn <= b.lamn && a.funcs <= b.funcs
  }

  lemma Trans(a: LS, b: LS, c: LS)
    requires Grows(a, b) && Grows(b, c)
    ensures Grows(a, c)
  {
    forall i | 0 <= i < |a.b.fn.blocks|
      ensures c.b.fn.blocks[i].lbl == a.b.fn.blocks[i].lbl && a.b.fn.blocks[i].instrs <= c.b.fn.blocks[i].instrs
    {
      assert b.b.fn.blocks[i].lbl == a.b.fn.blocks[i].lbl;
    }
  }

  lemma GrowsRefl(ls: LS)
    ensures Grows(ls, ls)
  {
  }

  lemma PutGrows(ls: LS, i: Instr)
    ensures Grows(ls, Put(ls, i))
  {
  }

  lemma BlockGrows(ls: LS, l: string)
    ensures Grows(ls, Block0(ls, l))
  {
  }

  lemma PutBlockGrows(ls: LS, i: Instr, l: string)
    ensures Grows(ls, Block0(Put(ls, i), l))
  {
    PutGrows(ls, i);
    BlockGrows(Put(ls, i), l);
    Trans(ls, Put(ls, i), Block0(Put(ls, i), l));
  }

  lemma FallGrows(ls: LS, l: string, l2: string)
    ensures Grows(ls, FallTo(ls, l))
    ensures Grows(ls, Block0(FallTo(ls, l), l2))
  {
    PutGrows(ls, IBr(l));
    BlockGrows(FallTo(ls, l), l2);
    Trans(ls, FallTo(ls, l), Block0(FallTo(ls, l), l2));
  }

  lemma TmpPutGrows(ls: LS, ty: IRType, i: Instr)
    ensures Grows(ls, Tmp(ls, ty).0)
    ensures Grows(ls, Put(Tmp(ls, ty).0, i))
  {
    PutGrows(Tmp(ls, ty).0, i);
    Trans(ls, Tmp(ls, ty).0, Put(Tmp(ls, ty).0, i));
  }

  lemma LblGrows(ls: LS, h: string)
    ensures Grows(ls, Lbl(ls, h).0)
  {
  }

  lemma LocGrows(ls: LS, x: string, ty: IRType)
    ensures Grows(ls, Loc(ls, x, ty).0)
  {
  }

  lemma MakeBoxGrows(ls: LS, ty: IRType, v: IVal)
    ensures Grows(ls, MakeBox(ls, ty, v).0)
  {
    var (ls1, t) := Tmp(ls, Ptr(ty));
    TmpPutGrows(ls, Ptr(ty), IAlloc(t.id));
    PutGrows(Put(ls1, IAlloc(t.id)), IAssign(PDeref(t), v));
    Trans(ls, Put(ls1, IAlloc(t.id)), MakeBox(ls, ty, v).0);
  }

  lemma BindNameGrows(cx: Cx, ls: LS, x: string, ty: IRType, v: IVal)
    ensures Grows(ls, BindName(cx, ls, x, ty, v).0)
  {
    if x in cx.captured {
      MakeBoxGrows(ls, ty, v);
    } else {
      var (ls1, loc) := Loc(ls, x, ty);
      LocGrows(ls, x, ty);
      PutGrows(ls1, IAssign(PLocal(loc.name), v));
      Trans(ls, ls1, BindName(cx, ls, x, ty, v).0);
    }
  }

  lemma {:induction false} StoreCapsGrows(ls: LS, vs: Scope, caps: seq<string>, env: IVal, i: nat)
    requires forall x | x in caps :: x in vs
    requires i <= |caps|
    ensures Grows(ls, StoreCaps(ls, vs, caps, env, i))
    decreases |caps| - i
  {
    if i < |caps| {
      assert caps[i] in caps;
      var ls1 := Put(ls, IEnvStore(env, i, vs[caps[i]]));
      PutGrows(ls, IEnvStore(env, i, vs[caps[i]]));
      StoreCapsGrows(ls1, vs, caps, env, i + 1);
      Trans(ls, ls1, StoreCaps(ls, vs, caps, env, i));
    }
  }

  // Making an environment lifts nothing.
  lemma EnvCounts(ls: LS, vs: Scope, caps: seq<string>)
    requires forall x | x in caps :: x in vs
    ensures MakeEnv(ls, vs, caps).0.funcs == ls.funcs && MakeEnv(ls, vs, caps).0.lamn == ls.lamn
  {
    if caps != [] {
      var (ls1, env) := Tmp(ls, ENV_TY);
      StoreCounts(Put(ls1, IEnvNew(env.id, |caps|)), vs, caps, env, 0);
    }
  }

  lemma {:induction false} StoreCounts(ls: LS, vs: Scope, caps: seq<string>, env: IVal, i: nat)
    requires forall x | x in caps :: x in vs
    requires i <= |caps|
    ensures StoreCaps(ls, vs, caps, env, i).funcs == ls.funcs && StoreCaps(ls, vs, caps, env, i).lamn == ls.lamn
    decreases |caps| - i
  {
    if i < |caps| {
      assert caps[i] in caps;
      StoreCounts(Put(ls, IEnvStore(env, i, vs[caps[i]])), vs, caps, env, i + 1);
    }
  }

  lemma MakeEnvGrows(ls: LS, vs: Scope, caps: seq<string>)
    requires forall x | x in caps :: x in vs
    ensures Grows(ls, MakeEnv(ls, vs, caps).0)
  {
    if caps != [] {
      var (ls1, env) := Tmp(ls, ENV_TY);
      TmpPutGrows(ls, ENV_TY, IEnvNew(env.id, |caps|));
      StoreCapsGrows(Put(ls1, IEnvNew(env.id, |caps|)), vs, caps, env, 0);
      Trans(ls, Put(ls1, IEnvNew(env.id, |caps|)), MakeEnv(ls, vs, caps).0);
    }
  }

  // ----- expressions -----

  lemma {:induction false} ExprGrows(cx: Cx, ls: LS, vs: Scope, e: Expr)
    ensures Grows(ls, LowerExpr(cx, ls, vs, e).0)
    decreases e, 1
  {
    hide LowerOp, LowerExprs;
    match e
    case EInt(_, _) =>
    case EBool(_) =>
    case EName(x) =>
      if x in vs && Boxed(vs[x]) {
        TmpPutGrows(ls, Inner(vs[x].ty), ILoad(Tmp(ls, Inner(vs[x].ty)).1.id, vs[x]));
      }
    case EOp(op, args, t) => OpGrows(cx, ls, vs, op, args, t);
    case ECast(e1, t) =>
      var (ls1, v) := LowerExpr(cx, ls, vs, e1);
      ExprGrows(cx, ls, vs, e1);
      TmpPutGrows(ls1, IntT(t), ICast(Tmp(ls1, IntT(t)).1.id, v, t));
      Trans(ls, ls1, LowerExpr(cx, ls, vs, e).0);
    case ECall(callee, args, rty) =>
      if callee.EName? && callee.x !in vs {
        var (ls1, vals) := LowerExprs(cx, ls, vs, args);
        ExprsGrows(cx, ls, vs, args);
        CallGrows(ls1, rty, ICall(None, Mangle(cx.mod, callee.x), vals),
                  ICall(Some(ls1.b.tc), Mangle(cx.mod, callee.x), vals));
        Trans(ls, ls1, LowerExpr(cx, ls, vs, e).0);
      } else {
        var (ls0, clos) := LowerExpr(cx, ls, vs, callee);
        var (ls1, vals) := LowerExprs(cx, ls0, vs, args);
        ExprGrows(cx, ls, vs, callee);
        ExprsGrows(cx, ls0, vs, args);
        Trans(ls, ls0, ls1);
        CallGrows(ls1, rty, ICallClosure(None, clos, vals), ICallClosure(Some(ls1.b.tc), clos, vals));
        Trans(ls, ls1, LowerExpr(cx, ls, vs, e).0);
      }
    case EFunc(params, ret, body) => FuncGrows(cx, ls, vs, e);
    case EPanic => PutGrows(ls, IPanic);
  }

  lemma CallGrows(ls: LS, rty: Ty, none: Instr, some: Instr)
    ensures Grows(ls, Put(ls, none))
    ensures Grows(ls, Put(Tmp(ls, TyOf(rty)).0, some))
  {
    PutGrows(ls, none);
    TmpPutGrows(ls, TyOf(rty), some);
  }

  lemma {:induction false} FuncGrows(cx: Cx, ls: LS, vs: Scope, e: Expr)
    requires e.EFunc?
    ensures Grows(ls, LowerExpr(cx, ls, vs, e).0)
    decreases e, 0
  {
    hide MakeEnv, LambdaBody, LowerLambda, SortedNames;
    var caps := SortedNames(LambdaFree(e.params, e.fbody) * vs.Keys);
    var (ls1, env) := MakeEnv(ls, vs, caps);
    MakeEnvGrows(ls, vs, caps);
    var lname := LambdaName(cx.mod, ls1.lamn + 1);
    var lsN := ls1.(lamn := ls1.lamn + 1);
    var fty := TyOf(TFunc(ParamTypes(e.params), e.ret));
    var (ls2, dst) := Tmp(lsN, fty);
    var ls3 := Put(ls2, IMakeClosure(dst.id, lname, env));
    TmpPutGrows(lsN, fty, IMakeClosure(dst.id, lname, env));
    assert Grows(ls1, lsN);
    Trans(ls, ls1, lsN);
    Trans(ls, lsN, ls3);
    LambdaGrows(cx, ls3.lamn, ls3.funcs, lname, e.params, e.ret, e.fbody, caps, CapTypes(vs, caps));
    Trans(ls, ls3, LowerExpr(cx, ls, vs, e).0);
  }

  lemma {:induction false} LambdaGrows(cx: Cx, lamn: nat, funcs: seq<IRFunc>, lname: string, params: List<Param>,
                                       ret: Ty,
                                       body: List<Stmt>, caps: seq<string>, capTys: seq<IRType>)
    requires |caps| == |capTys|
    ensures var r := LowerLambda(cx, lamn, funcs, lname, params, ret, body, caps, capTys);
            lamn <= r.0 && funcs <= r.1
    decreases body, 3
  {
    var cx1 := cx.(captured := CapturedSs(body));
    var (ls, vs) := LambdaEntry(cx1, lamn, funcs, lname, params, caps, capTys);
    var b := NewBuilder(lname, Cons(IRParam("__env", ENV_TY), IrParams(params)));
    var (ls1, vs1) := LoadCaps(LS(b, 0, lamn, funcs, false), caps, capTys, 0, map[]);
    LoadCapsGrows(LS(b, 0, lamn, funcs, false), caps, capTys, 0, map[]);
    BindParamsGrows(cx1, ls1, params, vs1);
    StmtsGrows(cx1, ls, vs, body);
  }

  lemma {:induction false} LoadCapsGrows(ls: LS, caps: seq<string>, capTys: seq<IRType>, i: nat, vs: Scope)
    requires i <= |caps| == |capTys|
    ensures Grows(ls, LoadCaps(ls, caps, capTys, i, vs).0)
    decreases |caps| - i
  {
    if i < |caps| {
      var (ls1, ptr) := Tmp(ls, Ptr(capTys[i]));
      var ins := IEnvLoad(ptr.id, Local("__env", ENV_TY), i);
      TmpPutGrows(ls, Ptr(capTys[i]), ins);
      LoadCapsGrows(Put(ls1, ins), caps, capTys, i + 1, vs[caps[i] := ptr]);
      Trans(ls, Put(ls1, ins), LoadCaps(ls, caps, capTys, i, vs).0);
    }
  }

  lemma {:induction false} BindParamsGrows(cx: Cx, ls: LS, ps: List<Param>, vs: Scope)
    ensures Grows(ls, BindParams(cx, ls, ps, vs).0)
    decreases ps
  {
    match ps
    case Nil =>
    case Cons(p, rest) =>
      var arg := Local(p.name, TyOf(p.ty));
      if p.name in cx.captured {
        var (ls1, box) := MakeBox(ls, TyOf(p.ty), arg);
        MakeBoxGrows(ls, TyOf(p.ty), arg);
        BindParamsGrows(cx, ls1, rest, vs[p.name := box]);
        Trans(ls, ls1, BindParams(cx, ls, ps, vs).0);
      } else {
        BindParamsGrows(cx, ls, rest, vs[p.name := arg]);
      }
  }

  lemma {:induction false} ExprsGrows(cx: Cx, ls: LS, vs: Scope, es: List<Expr>)
    ensures Grows(ls, LowerExprs(cx, ls, vs, es).0)
    decreases es, 0
  {
    match es
    case Nil =>
    case Cons(e, rest) =>
      var (ls1, v) := LowerExpr(cx, ls, vs, e);
      ExprGrows(cx, ls, vs, e);
      ExprsGrows(cx, ls1, vs, rest);
      Trans(ls, ls1, LowerExprs(cx, ls, vs, es).0);
  }

  lemma {:induction false} OpGrows(cx: Cx, ls: LS, vs: Scope, op: Op, args: List<Expr>, t: IntTy)
    ensures Grows(ls, LowerOp(cx, ls, vs, op, args, t).0)
    decreases args, 2
  {
    var r := LowerOp(cx, ls, vs, op, args, t).0;
    if op.And? || op.Or? {
      AndOrGrows(cx, ls, vs, args, op.Or?);
    } else if args.Nil? || (op.Cmp? && args.tail.Nil?) {
    } else if op.Not? {
      var (ls1, v) := LowerExpr(cx, ls, vs, args.head);
      ExprGrows(cx, ls, vs, args.head);
      TmpPutGrows(ls1, BOOL, IUn(ls1.b.tc, LNot, v, t, false));
      Trans(ls, ls1, r);
    } else if op.Cmp? {
      var (ls1, l) := LowerExpr(cx, ls, vs, args.head);
      var (ls2, r2) := LowerExpr(cx, ls1, vs, args.tail.head);
      ExprGrows(cx, ls, vs, args.head);
      ExprGrows(cx, ls1, vs, args.tail.head);
      Trans(ls, ls1, ls2);
      TmpPutGrows(ls2, BOOL, IBin(ls2.b.tc, op, l, r2, t, false));
      Trans(ls, ls2, r);
    } else {
      var (ls1, v) := LowerExpr(cx, ls, vs, args.head);
      ExprGrows(cx, ls, vs, args.head);
      if op.Bnot? || (op.b.Sub? && args.tail.Nil?) {
        TmpPutGrows(ls1, IntT(t), IUn(ls1.b.tc, if op.Bnot? then BNot else Neg, v, t, cx.chk));
      } else {
        FoldGrows(cx, ls1, vs, op, args.tail, t, v);
      }
      Trans(ls, ls1, r);
    }
  }

  lemma {:induction false} FoldGrows(cx: Cx, ls: LS, vs: Scope, op: Op, args: List<Expr>, t: IntTy, acc: IVal)
    ensures Grows(ls, LowerFold(cx, ls, vs, op, args, t, acc).0)
    decreases args, 0
  {
    match args
    case Nil =>
    case Cons(e, rest) =>
      var (ls1, v) := LowerExpr(cx, ls, vs, e);
      ExprGrows(cx, ls, vs, e);
      var (ls2, dst) := Tmp(ls1, IntT(t));
      var ls3 := Put(ls2, IBin(dst.id, op, acc, v, t, cx.chk));
      TmpPutGrows(ls1, IntT(t), IBin(dst.id, op, acc, v, t, cx.chk));
      Trans(ls, ls1, ls3);
      FoldGrows(cx, ls3, vs, op, rest, t, dst);
      Trans(ls, ls3, LowerFold(cx, ls, vs, op, args, t, acc).0);
  }

  lemma {:induction false} AndOrGrows(cx: Cx, ls: LS, vs: Scope, args: List<Expr>, short: bool)
    ensures Grows(ls, LowerAndOr(cx, ls, vs, args, short).0)
    decreases args, 1
  {
    var (ls1, res) := Loc(ls, "sc", BOOL);
    var (ls2, endl) := Lbl(ls1, "sc_end");
    LocGrows(ls, "sc", BOOL);
    LblGrows(ls1, "sc_end");
    Trans(ls, ls1, ls2);
    var ls3 := LowerTests(cx, ls2, vs, args, short, res.name, endl);
    TestsGrows(cx, ls2, vs, args, short, res.name, endl);
    Trans(ls, ls2, ls3);
    PutBlockGrows(ls3, IBr(endl), endl);
    Trans(ls, ls3, LowerAndOr(cx, ls, vs, args, short).0);
  }

  lemma {:induction false} TestsGrows(cx: Cx, ls: LS, vs: Scope, args: List<Expr>, short: bool, un: string,
                                      endl: string)
    ensures Grows(ls, LowerTests(cx, ls, vs, args, short, un, endl))
    decreases args, 0
  {
    match args
    case Nil =>
    case Cons(e, rest) =>
      var (ls1, v) := LowerExpr(cx, ls, vs, e);
      ExprGrows(cx, ls, vs, e);
      var ls2 := Put(ls1, IAssign(PLocal(un), v));
      PutGrows(ls1, IAssign(PLocal(un), v));
      Trans(ls, ls1, ls2);
      var (ls3, nxt) := Lbl(ls2, "sc_nx");
      LblGrows(ls2, "sc_nx");
      Trans(ls, ls2, ls3);
      var br := if short then ICondBr(v, endl, nxt) else ICondBr(v, nxt, endl);
      var ls4 := Block0(Put(ls3, br), nxt);
      PutBlockGrows(ls3, br, nxt);
      Trans(ls, ls3, ls4);
      TestsGrows(cx, ls4, vs, rest, short, un, endl);
      Trans(ls, ls4, LowerTests(cx, ls, vs, args, short, un, endl));
  }

  // ----- statements -----

  lemma {:induction false} StmtsGrows(cx: Cx, ls: LS, vs: Scope, ss: List<Stmt>)
    ensures Grows(ls, LowerStmts(cx, ls, vs, ss))
    decreases ss, 0
  {
    match ss
    case Nil =>
    case Cons(s, rest) =>
      var (ls1, vs1) := LowerStmt(cx, ls, vs, s);
      StmtGrows(cx, ls, vs, s);
      StmtsGrows(cx, ls1, vs1, rest);
      Trans(ls, ls1, LowerStmts(cx, ls, vs, ss));
  }

  lemma {:induction false} StmtGrows(cx: Cx, ls: LS, vs: Scope, s: Stmt)
    ensures Grows(ls, LowerStmt(cx, ls, vs, s).0)
    decreases s, 1
  {
    var r := LowerStmt(cx, ls, vs, s).0;
    match s
    case SLet(x, ty, init, _) =>
      var (ls1, v) := LowerExpr(cx, ls, vs, init);
      ExprGrows(cx, ls, vs, init);
      BindNameGrows(cx, ls1, x, TyOf(ty), v);
      Trans(ls, ls1, r);
    case SSet(x, rhs) =>
      var (ls1, v) := LowerExpr(cx, ls, vs, rhs);
      ExprGrows(cx, ls, vs, rhs);
      if x in vs {
        PutGrows(ls1, IAssign(if Boxed(vs[x]) then PDeref(vs[x]) else PLocal(if vs[x].Local? then vs[x].name else ""), v));
        Trans(ls, ls1, r);
      }
    case SDo(e) => ExprGrows(cx, ls, vs, e);
    case SIf(branches, orelse) =>
      var (ls1, endl) := Lbl(ls, "if_end");
      LblGrows(ls, "if_end");
      var ls2 := LowerBranches(cx, ls1, vs, branches, endl);
      BranchesGrow(cx, ls1, vs, branches, endl);
      Trans(ls, ls1, ls2);
      var ls3 := LowerStmts(cx, ls2, vs, orelse);
      StmtsGrows(cx, ls2, vs, orelse);
      Trans(ls, ls2, ls3);
      FallGrows(ls3, endl, endl);
      Trans(ls, ls3, r);
    case SWhile(cond, body) => WhileGrows(cx, ls, vs, s);
    case SForNum(_, _, _, _, _, _) => ForGrows(cx, ls, vs, s);
    case SLoop(body) =>
      var (ls1, head) := Lbl(ls, "loop_head");
      var (ls2, endl) := Lbl(ls1, "loop_end");
      LblGrows(ls, "loop_head");
      LblGrows(ls1, "loop_end");
      Trans(ls, ls1, ls2);
      var ls3 := Block0(Put(ls2, IBr(head)), head);
      PutBlockGrows(ls2, IBr(head), head);
      Trans(ls, ls2, ls3);
      var ls4 := LowerStmts(InLoop(cx, endl, head), ls3, vs, body);
      StmtsGrows(InLoop(cx, endl, head), ls3, vs, body);
      Trans(ls, ls3, ls4);
      FallGrows(ls4, head, endl);
      Trans(ls, ls4, r);
    case SBreak => PutGrows(ls, IBr(Top(cx.brk)));
    case SContinue => PutGrows(ls, IBr(Top(cx.cont)));
    case SPass =>
    case SReturn(e) =>
      var (ls1, v) := LowerExpr(cx, ls, vs, e);
      ExprGrows(cx, ls, vs, e);
      PutGrows(ls1, IRet(v));
      Trans(ls, ls1, r);
    case SReturnNone => PutGrows(ls, IRet(ImmUnit));
    case SChecked(body) => StmtsGrows(cx.(chk := true), ls, vs, body);
  }

  lemma WhileLabelsGrow(ls: LS)
    ensures Grows(ls, WhileLabels(ls).0)
  {
    var (ls1, head) := Lbl(ls, "while_head");
    var (ls2, bodyl) := Lbl(ls1, "while_body");
    var (ls3, endl) := Lbl(ls2, "while_end");
    LblGrows(ls, "while_head");
    LblGrows(ls1, "while_body");
    LblGrows(ls2, "while_end");
    Trans(ls, ls1, ls2);
    Trans(ls, ls2, ls3);
    PutBlockGrows(ls3, IBr(head), head);
    Trans(ls, ls3, WhileLabels(ls).0);
  }

  lemma {:induction false} WhileGrows(cx: Cx, ls: LS, vs: Scope, s: Stmt)
    requires s.SWhile?
    ensures Grows(ls, LowerStmt(cx, ls, vs, s).0)
    decreases s, 0
  {
    var (ls0, head, bodyl, endl) := WhileLabels(ls);
    WhileLabelsGrow(ls);
    var (ls1, c) := LowerExpr(cx, ls0, vs, s.cond);
    ExprGrows(cx, ls0, vs, s.cond);
    Trans(ls, ls0, ls1);
    var ls2 := Block0(Put(ls1, ICondBr(c, bodyl, endl)), bodyl);
    PutBlockGrows(ls1, ICondBr(c, bodyl, endl), bodyl);
    Trans(ls, ls1, ls2);
    var ls3 := LowerStmts(InLoop(cx, endl, head), ls2, vs, s.body);
    StmtsGrows(InLoop(cx, endl, head), ls2, vs, s.body);
    Trans(ls, ls2, ls3);
    FallGrows(ls3, head, endl);
    Trans(ls, ls3, LowerStmt(cx, ls, vs, s).0);
  }

  lemma {:induction false} BranchesGrow(cx: Cx, ls: LS, vs: Scope, bs: List<Branch>, endl: string)
    ensures Grows(ls, LowerBranches(cx, ls, vs, bs, endl))
    decreases bs, 0
  {
    match bs
    case Nil =>
    case Cons(br, rest) =>
      var (ls1, c) := LowerExpr(cx, ls, vs, br.cond);
      ExprGrows(cx, ls, vs, br.cond);
      var (ls2, thenl) := Lbl(ls1, "then");
      var (ls3, elsl) := Lbl(ls2, "else");
      LblGrows(ls1, "then");
      LblGrows(ls2, "else");
      Trans(ls, ls1, ls2);
      Trans(ls, ls2, ls3);
      var ls4 := Block0(Put(ls3, ICondBr(c, thenl, elsl)), thenl);
      PutBlockGrows(ls3, ICondBr(c, thenl, elsl), thenl);
      Trans(ls, ls3, ls4);
      var ls5 := LowerStmts(cx, ls4, vs, br.bbody);
      StmtsGrows(cx, ls4, vs, br.bbody);
      Trans(ls, ls4, ls5);
      var ls6 := Block0(FallTo(ls5, endl), elsl);
      FallGrows(ls5, endl, elsl);
      Trans(ls, ls5, ls6);
      BranchesGrow(cx, ls6, vs, rest, endl);
      Trans(ls, ls6, LowerBranches(cx, ls, vs, bs, endl));
  }

  // ----- counted loops -----

  lemma ForNamesGrow(ls: LS, x: string, t: IntTy)
    ensures Grows(ls, ForNames(ls, x, t).0)
  {
    var (ls1, un) := Loc(ls, x, IntT(t));
    LocGrows(ls, x, IntT(t));
    LocGrows(ls1, x + "__cnt", IntT(t));
    Trans(ls, ls1, ForNames(ls, x, t).0);
  }

  lemma SnapshotGrows(ls: LS, v: IVal, t: IntTy)
    ensures Grows(ls, Snapshot(ls, v, t).0)
  {
    TmpPutGrows(ls, IntT(t), IBin(ls.b.tc, Bin(Add), v, ImmInt(0, t), t, false));
  }

  lemma {:induction false} StrideGrows(cx: Cx, ls: LS, vs: Scope, stride: Option<Expr>, t: IntTy)
    ensures Grows(ls, LowerStride(cx, ls, vs, stride, t).0)
    decreases stride, 2
  {
    if stride.Some? { ExprGrows(cx, ls, vs, stride.value); }
  }

  lemma ForHeadGrows(ls: LS, un: IVal, cnt: IVal, stop: IVal, t: IntTy)
    requires un.Local?
    ensures Grows(ls, ForHead(ls, un, cnt, stop, t).0)
  {
    var (ls1, head) := Lbl(ls, "for_head");
    var (ls2, bodyl) := Lbl(ls1, "for_body");
    var (ls3, post) := Lbl(ls2, "for_post");
    var (ls4, fin) := Lbl(ls3, "for_end");
    LblGrows(ls, "for_head");
    LblGrows(ls1, "for_body");
    LblGrows(ls2, "for_post");
    LblGrows(ls3, "for_end");
    Trans(ls, ls1, ls2);
    Trans(ls, ls2, ls3);
    Trans(ls, ls3, ls4);
    var ls4b := Block0(Put(ls4, IBr(head)), head);
    PutBlockGrows(ls4, IBr(head), head);
    Trans(ls, ls4, ls4b);
    var (ls5, c) := Tmp(ls4b, BOOL);
    var ls6 := Put(ls5, IBin(c.id, Cmp(Lt), cnt, stop, t, false));
    TmpPutGrows(ls4b, BOOL, IBin(c.id, Cmp(Lt), cnt, stop, t, false));
    Trans(ls, ls4b, ls6);
    var ls7 := Block0(Put(ls6, ICondBr(c, bodyl, fin)), bodyl);
    PutBlockGrows(ls6, ICondBr(c, bodyl, fin), bodyl);
    Trans(ls, ls6, ls7);
    PutGrows(ls7, IAssign(PLocal(un.name), cnt));
    Trans(ls, ls7, ForHead(ls, un, cnt, stop, t).0);
  }

  lemma ForIndexGrows(cx: Cx, ls: LS, x: string, t: IntTy, un: IVal)
    ensures Grows(ls, ForIndex(cx, ls, x, t, un).0)
  {
    MakeBoxGrows(ls, IntT(t), un);
  }

  lemma ForPostGrows(ls: LS, ll: ForLabels, cnt: IVal, step: IVal, t: IntTy)
    requires cnt.Local?
    ensures Grows(ls, ForPost(ls, ll, cnt, step, t))
  {
    var ls0 := Block0(ls, ll.post);
    BlockGrows(ls, ll.post);
    var (ls1, nxt) := Tmp(ls0, IntT(t));
    var ls2 := Put(ls1, IBin(nxt.id, Bin(Add), cnt, step, t, false));
    TmpPutGrows(ls0, IntT(t), IBin(nxt.id, Bin(Add), cnt, step, t, false));
    Trans(ls, ls0, ls2);
    var ls3 := Put(ls2, IAssign(PLocal(cnt.name), nxt));
    PutGrows(ls2, IAssign(PLocal(cnt.name), nxt));
    Trans(ls, ls2, ls3);
    PutBlockGrows(ls3, IBr(ll.head), ll.fin);
    Trans(ls, ls3, ForPost(ls, ll, cnt, step, t));
  }

  lemma {:induction false} ForGrows(cx: Cx, ls: LS, vs: Scope, s: Stmt)
    requires s.SForNum?
    ensures Grows(ls, LowerStmt(cx, ls, vs, s).0)
    decreases s, 0
  {
    var t := s.ity;
    var (ls1, un, cnt) := ForNames(ls, s.v, t);
    ForNamesGrow(ls, s.v, t);
    var (ls2, a) := LowerExpr(cx, ls1, vs, s.start);
    ExprGrows(cx, ls1, vs, s.start);
    Trans(ls, ls1, ls2);
    var ls3 := Put(ls2, IAssign(PLocal(cnt.name), a));
    PutGrows(ls2, IAssign(PLocal(cnt.name), a));
    Trans(ls, ls2, ls3);
    var (ls4, b0) := LowerExpr(cx, ls3, vs, s.stop);
    ExprGrows(cx, ls3, vs, s.stop);
    Trans(ls, ls3, ls4);
    var (ls5, b) := Snapshot(ls4, b0, t);
    SnapshotGrows(ls4, b0, t);
    Trans(ls, ls4, ls5);
    var (ls6, c0) := LowerStride(cx, ls5, vs, s.stride, t);
    StrideGrows(cx, ls5, vs, s.stride, t);
    Trans(ls, ls5, ls6);
    var (ls7, c) := Snapshot(ls6, c0, t);
    SnapshotGrows(ls6, c0, t);
    Trans(ls, ls6, ls7);
    ForTailGrows(cx, ls7, vs, s.v, t, un, cnt, b, c, s.body);
    Trans(ls, ls7, LowerStmt(cx, ls, vs, s).0);
  }

  lemma {:induction false} ForTailGrows(cx: Cx, ls: LS, vs: Scope, x: string, t: IntTy, un: IVal, cnt: IVal, b: IVal,
                                        c: IVal, body: List<Stmt>)
    requires un.Local? && cnt.Local?
    ensures Grows(ls, ForTail(cx, ls, vs, x, t, un, cnt, b, c, body))
    decreases body, 1
  {
    var (ls8, ll) := ForHead(ls, un, cnt, b, t);
    ForHeadGrows(ls, un, cnt, b, t);
    var (ls9, idx) := ForIndex(cx, ls8, x, t, un);
    ForIndexGrows(cx, ls8, x, t, un);
    Trans(ls, ls8, ls9);
    var cx1 := InLoop(cx, ll.fin, ll.post);
    var ls10 := LowerStmts(cx1, ls9, vs[x := idx], body);
    StmtsGrows(cx1, ls9, vs[x := idx], body);
    Trans(ls, ls9, ls10);
    FallGrows(ls10, ll.post, ll.post);
    Trans(ls, ls10, FallTo(ls10, ll.post));
    ForPostGrows(FallTo(ls10, ll.post), ll, cnt, c, t);
    Trans(ls, FallTo(ls10, ll.post), ForTail(cx, ls, vs, x, t, un, cnt, b, c, body));
  }
}
