// Every lowered function is a well-formed control-flow graph: blocks end in their
// only terminator, branch targets exist, and labels, temps and locals are distinct.
module Cfg {
  import opened Numeric
  import opened Syntax
  import opened Ir
  import opened Names
  import opened Lowering
  import opened Growth

  function Targets(i: Instr): set<string> {
    match i
    case IBr(t) => {t}
    case ICondBr(_, t, e) => {t, e}
    case _ => {}
  }

  function Labels(f: IRFunc): set<string> { set i | 0 <= i < |f.blocks| :: f.blocks[i].lbl }

  // Terminators, if any, only in last position.
  ghost predicate OpenBlock(b: Block) {
    forall j :: 0 <= j < |b.instrs| - 1 ==> !IsTerminator(b.instrs[j])
  }

  ghost predicate ClosedBlock(b: Block) {
    OpenBlock(b) && b.instrs != [] && IsTerminator(b.instrs[|b.instrs| - 1])
  }

  ghost predicate TargetsIn(b: Block, known: set<string>) {
    forall j :: 0 <= j < |b.instrs| ==> Targets(b.instrs[j]) <= known
  }

  // The finished function.
  ghost predicate WellFormed(f: IRFunc) {
    && (forall i :: 0 <= i < |f.blocks| ==> ClosedBlock(f.blocks[i]) && TargetsIn(f.blocks[i], Labels(f)))
    && (forall i, j :: 0 <= i < j < |f.blocks| ==> f.blocks[i].lbl != f.blocks[j].lbl)
    && (forall i, j :: 0 <= i < j < |f.temps| ==> f.temps[i].Temp? && f.temps[j].Temp? && f.temps[i].id != f.temps[j].id)
    && (forall i, j :: 0 <= i < j < |f.locals| ==> f.locals[i].name != f.locals[j].name)
  }

  // A function under construction; `pending` are labels minted but not placed.
  ghost predicate Growing(ls: LS, pending: set<string>) {
    var f := ls.b.fn;
    && (forall i :: 0 <= i < |f.blocks| ==>
          && TrailNum(f.blocks[i].lbl) <= ls.b.bc
          && TargetsIn(f.blocks[i], Labels(f) + pending)
          && OpenBlock(f.blocks[i])
          && (i < |f.blocks| - 1 ==> ClosedBlock(f.blocks[i])))
    && (forall i, j :: 0 <= i < j < |f.blocks| ==> TrailNum(f.blocks[i].lbl) != TrailNum(f.blocks[j].lbl))
    && (forall p :: p in pending ==> TrailNum(p) <= ls.b.bc && forall i :: 0 <= i < |f.blocks| ==> TrailNum(f.blocks[i].lbl) != TrailNum(p))
    && (forall p, q :: p in pending && q in pending && p != q ==> TrailNum(p) != TrailNum(q))
    && |f.temps| == ls.b.tc && (forall i :: 0 <= i < |f.temps| ==> f.temps[i].Temp? && f.temps[i].id == i)
    && (forall i :: 0 <= i < |f.locals| ==> 0 < Stamp(f.locals[i].name) <= ls.uq)
    && (forall i, j :: 0 <= i < j < |f.locals| ==> f.locals[i].name != f.locals[j].name)
  }

  ghost predicate Known(ls: LS, pending: set<string>, l: string) { l in Labels(ls.b.fn) || l in pending }

  // Where the construct may jump out to.
  ghost predicate LoopKnown(cx: Cx, ls: LS, pending: set<string>, loop: bool) {
    loop ==> Known(ls, pending, Top(cx.brk)) && Known(ls, pending, Top(cx.cont))
  }

  lemma GrowsKnows(a: LS, b: LS)
    requires Grows(a, b)
    ensures Labels(a.b.fn) <= Labels(b.b.fn)
  {
    forall l | l in Labels(a.b.fn) ensures l in Labels(b.b.fn) {
      var i :| 0 <= i < |a.b.fn.blocks| && a.b.fn.blocks[i].lbl == l;
      assert b.b.fn.blocks[i].lbl == l;
    }
  }

  // A hint not ending in a digit gives the counter back.
  lemma LabelNumber(h: string, n: nat)
    requires h != [] && !IsDigit(h[|h| - 1])
    ensures TrailNum(LabelName(h, n)) == n
  {
    TrailOfDec(h, n);
  }

  lemma AppendLabels(b: Builder, i: Instr)
    ensures Labels(Append(b, i).fn) == Labels(b.fn)
  {
    var b2 := Append(b, i);
    forall l | l in Labels(b.fn) ensures l in Labels(b2.fn) {
      var k :| 0 <= k < |b.fn.blocks| && b.fn.blocks[k].lbl == l;
      assert b2.fn.blocks[k].lbl == l;
    }
    forall l | l in Labels(b2.fn) ensures l in Labels(b.fn) {
      var k :| 0 <= k < |b2.fn.blocks| && b2.fn.blocks[k].lbl == l;
      assert b.fn.blocks[k].lbl == l;
    }
  }

  lemma AppendGrowing(ls: LS, i: Instr, pending: set<string>)
    requires Growing(ls, pending) && Targets(i) <= Labels(ls.b.fn) + pending && !CurTerminated(ls.b)
    ensures Growing(ls.(b := Append(ls.b, i)), pending)
  {
    hide TrailNum, Stamp, TrailRest;
    AppendLabels(ls.b, i);
    var b2 := Append(ls.b, i);
    assert forall k :: 0 <= k < |b2.fn.blocks| ==> b2.fn.blocks[k].lbl == ls.b.fn.blocks[k].lbl;
    assert forall k :: 0 <= k < |b2.fn.blocks| - 1 ==> b2.fn.blocks[k] == ls.b.fn.blocks[k];
    BlockAppend(ls.b.Here(), i, Labels(ls.b.fn) + pending);
  }

  lemma BlockAppend(b: Block, i: Instr, known: set<string>)
    requires OpenBlock(b) && TargetsIn(b, known) && Targets(i) <= known
    requires |b.instrs| > 0 ==> !IsTerminator(b.instrs[|b.instrs| - 1])
    ensures OpenBlock(Block(b.lbl, b.instrs + [i])) && TargetsIn(Block(b.lbl, b.instrs + [i]), known)
  {
  }

  // Opening a block for a pending label once the current block has ended.
  lemma BlockLabels(ls: LS, l: string)
    ensures Labels(Block0(ls, l).b.fn) == Labels(ls.b.fn) + {l}
  {
    var ls2 := Block0(ls, l);
    var n := |ls.b.fn.blocks|;
    assert ls2.b.fn.blocks[n].lbl == l;
    forall m | m in Labels(ls.b.fn) ensures m in Labels(ls2.b.fn) {
      var k :| 0 <= k < n && ls.b.fn.blocks[k].lbl == m;
      assert ls2.b.fn.blocks[k].lbl == m;
    }
  }

  lemma BlockGrowing(ls: LS, l: string, pending: set<string>)
    requires Growing(ls, pending) && l in pending && CurTerminated(ls.b)
    ensures Growing(Block0(ls, l), pending - {l})
    ensures Labels(Block0(ls, l).b.fn) == Labels(ls.b.fn) + {l}
  {
    hide IsTerminator, TrailNum, Stamp, TrailRest, Labels, Targets;
    BlockLabels(ls, l);
    var ls2 := Block0(ls, l);
    var n := |ls.b.fn.blocks|;
    assert Labels(ls2.b.fn) + (pending - {l}) == Labels(ls.b.fn) + pending;
    forall k | 0 <= k < n
      ensures TargetsIn(ls2.b.fn.blocks[k], Labels(ls2.b.fn) + (pending - {l})) && ClosedBlock(ls2.b.fn.blocks[k])
    {
      assert TargetsIn(ls.b.fn.blocks[k], Labels(ls.b.fn) + pending);
    }
    forall p | p in pending - {l} ensures forall k :: 0 <= k < |ls2.b.fn.blocks| ==> TrailNum(ls2.b.fn.blocks[k].lbl) != TrailNum(p) {
    }
  }

  lemma LblGrowing(ls: LS, h: string, pending: set<string>)
    requires Growing(ls, pending) && h != [] && !IsDigit(h[|h| - 1])
    ensures Growing(Lbl(ls, h).0, pending + {Lbl(ls, h).1})
    ensures Lbl(ls, h).1 !in pending && Labels(Lbl(ls, h).0.b.fn) == Labels(ls.b.fn)
  {
    hide TrailNum, Emit;
    LabelNumber(h, ls.b.bc + 1);
    var (ls2, l) := Lbl(ls, h);
    forall i | 0 <= i < |ls2.b.fn.blocks| ensures TargetsIn(ls2.b.fn.blocks[i], Labels(ls2.b.fn) + (pending + {l})) {
      assert TargetsIn(ls.b.fn.blocks[i], Labels(ls.b.fn) + pending);
    }
  }

  lemma PutGrowing(ls: LS, i: Instr, pending: set<string>)
    requires Growing(ls, pending) && Targets(i) <= Labels(ls.b.fn) + pending
    ensures Growing(Put(ls, i), pending)
    ensures CurTerminated(Put(ls, i).b) <==> IsTerminator(i)
    ensures Labels(ls.b.fn) <= Labels(Put(ls, i).b.fn)
  {
    hide Growing;
    if CurTerminated(ls.b) {
      var (ls1, l) := Lbl(ls, "dead");
      LblGrowing(ls, "dead", pending);
      BlockGrowing(ls1, l, pending + {l});
      assert pending + {l} - {l} == pending;
      AppendGrowing(Block0(ls1, l), i, pending);
      AppendLabels(Block0(ls1, l).b, i);
    } else {
      AppendGrowing(ls, i, pending);
      AppendLabels(ls.b, i);
    }
  }

  lemma TmpPutGrowing(ls: LS, ty: IRType, i: Instr, pending: set<string>)
    requires Growing(ls, pending) && Targets(i) == {}
    ensures Growing(Put(Tmp(ls, ty).0, i), pending)
    ensures Labels(ls.b.fn) <= Labels(Put(Tmp(ls, ty).0, i).b.fn)
  {
    var ls1 := Tmp(ls, ty).0;
    assert Labels(ls1.b.fn) == Labels(ls.b.fn);
    assert Growing(ls1, pending);
    PutGrowing(ls1, i, pending);
  }

  lemma LocGrowing(ls: LS, x: string, ty: IRType, pending: set<string>)
    requires Growing(ls, pending)
    ensures Growing(Loc(ls, x, ty).0, pending) && Labels(Loc(ls, x, ty).0.b.fn) == Labels(ls.b.fn)
  {
    StampOfUniq(x, ls.uq + 1);
    var ls2 := Loc(ls, x, ty).0;
    assert Labels(ls2.b.fn) == Labels(ls.b.fn);
  }

  lemma MakeBoxGrowing(ls: LS, ty: IRType, v: IVal, pending: set<string>)
    requires Growing(ls, pending)
    ensures Growing(MakeBox(ls, ty, v).0, pending)
  {
    hide Growing, Emit, LabelName, Dec, Labels;
    var (ls1, t) := Tmp(ls, Ptr(ty));
    TmpPutGrowing(ls, Ptr(ty), IAlloc(t.id), pending);
    PutGrowing(Put(ls1, IAlloc(t.id)), IAssign(PDeref(t), v), pending);
  }

  lemma BindNameGrowing(cx: Cx, ls: LS, x: string, ty: IRType, v: IVal, pending: set<string>)
    requires Growing(ls, pending)
    ensures Growing(BindName(cx, ls, x, ty, v).0, pending)
  {
    hide Growing, Emit, LabelName, Dec, Labels;
    if x in cx.captured {
      MakeBoxGrowing(ls, ty, v, pending);
    } else {
      var (ls1, loc) := Loc(ls, x, ty);
      LocGrowing(ls, x, ty, pending);
      PutGrowing(ls1, IAssign(PLocal(loc.name), v), pending);
    }
  }

  lemma {:induction false} StoreCapsGrowing(ls: LS, vs: Scope, caps: seq<string>, env: IVal, i: nat,
                                            pending: set<string>)
    requires forall x | x in caps :: x in vs
    requires i <= |caps| && Growing(ls, pending)
    ensures Growing(StoreCaps(ls, vs, caps, env, i), pending)
    decreases |caps| - i
  {
    hide Growing, Emit, LabelName, Dec, Labels;
    if i < |caps| {
      assert caps[i] in caps;
      PutGrowing(ls, IEnvStore(env, i, vs[caps[i]]), pending);
      StoreCapsGrowing(Put(ls, IEnvStore(env, i, vs[caps[i]])), vs, caps, env, i + 1, pending);
    }
  }

  lemma MakeEnvGrowing(ls: LS, vs: Scope, caps: seq<string>, pending: set<string>)
    requires forall x | x in caps :: x in vs
    requires Growing(ls, pending)
    ensures Growing(MakeEnv(ls, vs, caps).0, pending)
  {
    hide Growing, Emit, LabelName, Dec, Labels;
    if caps != [] {
      var (ls1, env) := Tmp(ls, ENV_TY);
      TmpPutGrowing(ls, ENV_TY, IEnvNew(env.id, |caps|), pending);
      StoreCapsGrowing(Put(ls1, IEnvNew(env.id, |caps|)), vs, caps, env, 0, pending);
    }
  }

  ghost predicate AllWellFormed(funcs: seq<IRFunc>) {
    forall i :: 0 <= i < |funcs| ==> WellFormed(funcs[i])
  }

  ghost predicate Keeps(ls: LS, pending: set<string>) { Growing(ls, pending) && AllWellFormed(ls.funcs) }

  // ----- expressions -----

  lemma {:induction false} ExprKeeps(g: set<string>, sc: set<string>, cx: Cx, ls: LS, vs: Scope, e: Expr,
                                     pending: set<string>)
    requires Keeps(ls, pending) && OkE(g, sc, cx.chk, e)
    ensures Keeps(LowerExpr(cx, ls, vs, e).0, pending)
    decreases e, 1
  {
    hide Growing, AllWellFormed, Emit, LabelName, Dec, Labels;
    match e
    case EInt(_, _) =>
    case EBool(_) =>
    case EName(x) =>
      if x in vs && Boxed(vs[x]) {
        TmpPutGrowing(ls, Inner(vs[x].ty), ILoad(Tmp(ls, Inner(vs[x].ty)).1.id, vs[x]), pending);
      }
    case EOp(op, args, t) => OpKeeps(g, sc, cx, ls, vs, op, args, t, pending);
    case ECast(e1, t) =>
      var (ls1, v) := LowerExpr(cx, ls, vs, e1);
      ExprKeeps(g, sc, cx, ls, vs, e1, pending);
      TmpPutGrowing(ls1, IntT(t), ICast(Tmp(ls1, IntT(t)).1.id, v, t), pending);
    case ECall(callee, args, rty) => CallKeeps(g, sc, cx, ls, vs, e, pending);
    case EFunc(params, ret, body) => FuncKeeps(g, sc, cx, ls, vs, e, pending);
    case EPanic => PutGrowing(ls, IPanic, pending);
  }

  lemma {:induction false} CallKeeps(g: set<string>, sc: set<string>, cx: Cx, ls: LS, vs: Scope, e: Expr,
                                     pending: set<string>)
    requires e.ECall? && Keeps(ls, pending) && OkE(g, sc, cx.chk, e)
    ensures Keeps(LowerExpr(cx, ls, vs, e).0, pending)
    decreases e, 0
  {
    hide Growing, AllWellFormed, Emit, LabelName, Dec, Labels;
    var callee, args, rty := e.callee, e.cargs, e.rty;
    if callee.EName? && callee.x !in vs {
      var (ls1, vals) := LowerExprs(cx, ls, vs, args);
      ExprsKeep(g, sc, cx, ls, vs, args, pending);
      PutGrowing(ls1, ICall(None, Mangle(cx.mod, callee.x), vals), pending);
      TmpPutGrowing(ls1, TyOf(rty), ICall(Some(ls1.b.tc), Mangle(cx.mod, callee.x), vals), pending);
    } else {
      var (ls0, clos) := LowerExpr(cx, ls, vs, callee);
      var (ls1, vals) := LowerExprs(cx, ls0, vs, args);
      if OkE(g, sc, cx.chk, callee) {
        ExprKeeps(g, sc, cx, ls, vs, callee, pending);
      } else if Boxed(vs[callee.x]) {
        TmpPutGrowing(ls, Inner(vs[callee.x].ty), ILoad(Tmp(ls, Inner(vs[callee.x].ty)).1.id, vs[callee.x]), pending);
      }
      ExprsKeep(g, sc, cx, ls0, vs, args, pending);
      PutGrowing(ls1, ICallClosure(None, clos, vals), pending);
      TmpPutGrowing(ls1, TyOf(rty), ICallClosure(Some(ls1.b.tc), clos, vals), pending);
    }
  }

  lemma {:induction false} FuncKeeps(g: set<string>, sc: set<string>, cx: Cx, ls: LS, vs: Scope, e: Expr,
                                     pending: set<string>)
    requires e.EFunc? && Keeps(ls, pending) && OkE(g, sc, cx.chk, e)
    ensures Keeps(LowerExpr(cx, ls, vs, e).0, pending)
    decreases e, 0
  {
    hide LowerLambda, LambdaBody, Growing, AllWellFormed, Emit, LabelName, Dec, Labels;
    var caps := SortedNames(LambdaFree(e.params, e.fbody) * vs.Keys);
    var (ls1, env) := MakeEnv(ls, vs, caps);
    MakeEnvGrowing(ls, vs, caps, pending);
    EnvCounts(ls, vs, caps);
    var lname := LambdaName(cx.mod, ls1.lamn + 1);
    var lsN := ls1.(lamn := ls1.lamn + 1);
    SameBuilder(ls1, lsN, pending);
    var fty := TyOf(TFunc(ParamTypes(e.params), e.ret));
    var (ls2, dst) := Tmp(lsN, fty);
    var ls3 := Put(ls2, IMakeClosure(dst.id, lname, env));
    TmpPutGrowing(lsN, fty, IMakeClosure(dst.id, lname, env), pending);
    LambdaKeeps(g, sc, cx, ls3.lamn, ls3.funcs, lname, e.params, e.ret, e.fbody, caps, CapTypes(vs, caps));
    SameBuilder(ls3, LowerExpr(cx, ls, vs, e).0, pending);
  }

  lemma SameBuilder(a: LS, b: LS, pending: set<string>)
    requires Growing(a, pending) && b.b == a.b && b.uq == a.uq
    ensures Growing(b, pending)
  {
  }

  lemma StartGrowing(name: string, params: List<IRParam>, lamn: nat, funcs: seq<IRFunc>)
    ensures Growing(LS(NewBuilder(name, params), 0, lamn, funcs, false), {})
  {
    assert TrailNum("entry") == 0;
  }

  lemma {:induction false} LambdaKeeps(g: set<string>, sc: set<string>, cx: Cx, lamn: nat, funcs: seq<IRFunc>,
                                       lname: string,
                                       params: List<Param>, ret: Ty, body: List<Stmt>, caps: seq<string>, capTys: seq<IRType>)
    requires |caps| == |capTys| && AllWellFormed(funcs) && !cx.chk
    requires OkSs(g, sc + ParamNames(params), false, false, body)
    ensures AllWellFormed(LowerLambda(cx, lamn, funcs, lname, params, ret, body, caps, capTys).1)
    ensures WellFormed(Finish(LambdaBody(cx, lamn, funcs, lname, params, body, caps, capTys), ret).b.fn)
    decreases body, 3
  {
    hide Growing, WellFormed;
    var cx1 := cx.(captured := CapturedSs(body));
    var (ls, vs) := LambdaEntry(cx1, lamn, funcs, lname, params, caps, capTys);
    var irp := Cons(IRParam("__env", ENV_TY), IrParams(params));
    StartGrowing(lname, irp, lamn, funcs);
    var ls0 := LS(NewBuilder(lname, irp), 0, lamn, funcs, false);
    var (ls1, vs1) := LoadCaps(ls0, caps, capTys, 0, map[]);
    LoadCapsGrowing(ls0, caps, capTys, 0, map[]);
    BindParamsGrowing(cx1, ls1, params, vs1);
    StmtsKeep(g, sc + ParamNames(params), cx1, ls, vs, body, {}, false);
    FinishWellFormed(LowerStmts(cx1, ls, vs, body), ret);
  }

  lemma {:induction false} LoadCapsGrowing(ls: LS, caps: seq<string>, capTys: seq<IRType>, i: nat, vs: Scope)
    requires i <= |caps| == |capTys| && Growing(ls, {})
    ensures Growing(LoadCaps(ls, caps, capTys, i, vs).0, {}) && LoadCaps(ls, caps, capTys, i, vs).0.funcs == ls.funcs
    decreases |caps| - i
  {
    hide Growing, Emit, LabelName, Dec, Labels;
    if i < |caps| {
      var (ls1, ptr) := Tmp(ls, Ptr(capTys[i]));
      var ins := IEnvLoad(ptr.id, Local("__env", ENV_TY), i);
      TmpPutGrowing(ls, Ptr(capTys[i]), ins, {});
      LoadCapsGrowing(Put(ls1, ins), caps, capTys, i + 1, vs[caps[i] := ptr]);
    }
  }

  lemma {:induction false} BindParamsGrowing(cx: Cx, ls: LS, ps: List<Param>, vs: Scope)
    requires Growing(ls, {})
    ensures Growing(BindParams(cx, ls, ps, vs).0, {}) && BindParams(cx, ls, ps, vs).0.funcs == ls.funcs
    decreases ps
  {
    hide Growing, Emit, LabelName, Dec, Labels;
    match ps
    case Nil =>
    case Cons(p, rest) =>
      var arg := Local(p.name, TyOf(p.ty));
      if p.name in cx.captured {
        var (ls1, box) := MakeBox(ls, TyOf(p.ty), arg);
        MakeBoxGrowing(ls, TyOf(p.ty), arg, {});
        BindParamsGrowing(cx, ls1, rest, vs[p.name := box]);
      } else {
        BindParamsGrowing(cx, ls, rest, vs[p.name := arg]);
      }
  }

  lemma FinishWellFormed(ls: LS, ret: Ty)
    requires Growing(ls, {})
    ensures WellFormed(Finish(ls, ret).b.fn)
  {
    assert forall a: set<string> :: a + {} == a;
    if !CurTerminated(ls.b) {
      PutGrowing(ls, IRet(ImmUnit), {});
      PutGrowing(ls, IPanic, {});
    }
    GrowingClosed(Finish(ls, ret));
  }

  lemma GrowingClosed(ls: LS)
    requires Growing(ls, {}) && CurTerminated(ls.b)
    ensures WellFormed(ls.b.fn)
  {
    hide IsTerminator, TrailNum, Stamp;
    assert Labels(ls.b.fn) + {} == Labels(ls.b.fn);
    forall i | 0 <= i < |ls.b.fn.blocks| ensures ClosedBlock(ls.b.fn.blocks[i]) {
    }
  }

  lemma {:induction false} ExprsKeep(g: set<string>, sc: set<string>, cx: Cx, ls: LS, vs: Scope, es: List<Expr>,
                                     pending: set<string>)
    requires Keeps(ls, pending) && OkEs(g, sc, cx.chk, es)
    ensures Keeps(LowerExprs(cx, ls, vs, es).0, pending)
    decreases es, 0
  {
    hide Growing, AllWellFormed, Emit, LabelName, Dec, Labels;
    match es
    case Nil =>
    case Cons(e, rest) =>
      ExprKeeps(g, sc, cx, ls, vs, e, pending);
      ExprsKeep(g, sc, cx, LowerExpr(cx, ls, vs, e).0, vs, rest, pending);
  }

  lemma {:induction false} OpKeeps(g: set<string>, sc: set<string>, cx: Cx, ls: LS, vs: Scope, op: Op,
                                   args: List<Expr>, t: IntTy, pending: set<string>)
    requires Keeps(ls, pending) && OkEs(g, sc, cx.chk, args)
    ensures Keeps(LowerOp(cx, ls, vs, op, args, t).0, pending)
    decreases args, 2
  {
    hide Growing, AllWellFormed, Emit, LabelName, Dec, Labels;
    if op.And? || op.Or? {
      AndOrKeeps(g, sc, cx, ls, vs, args, op.Or?, pending);
    } else if args.Nil? || (op.Cmp? && args.tail.Nil?) {
    } else if op.Not? {
      var (ls1, v) := LowerExpr(cx, ls, vs, args.head);
      ExprKeeps(g, sc, cx, ls, vs, args.head, pending);
      TmpPutGrowing(ls1, BOOL, IUn(ls1.b.tc, LNot, v, t, false), pending);
    } else if op.Cmp? {
      var (ls1, l) := LowerExpr(cx, ls, vs, args.head);
      var (ls2, r2) := LowerExpr(cx, ls1, vs, args.tail.head);
      ExprKeeps(g, sc, cx, ls, vs, args.head, pending);
      ExprKeeps(g, sc, cx, ls1, vs, args.tail.head, pending);
      TmpPutGrowing(ls2, BOOL, IBin(ls2.b.tc, op, l, r2, t, false), pending);
    } else {
      var (ls1, v) := LowerExpr(cx, ls, vs, args.head);
      ExprKeeps(g, sc, cx, ls, vs, args.head, pending);
      if op.Bnot? || (op.b.Sub? && args.tail.Nil?) {
        TmpPutGrowing(ls1, IntT(t), IUn(ls1.b.tc, if op.Bnot? then BNot else Neg, v, t, cx.chk), pending);
      } else {
        FoldKeeps(g, sc, cx, ls1, vs, op, args.tail, t, v, pending);
      }
    }
  }

  lemma {:induction false} FoldKeeps(g: set<string>, sc: set<string>, cx: Cx, ls: LS, vs: Scope, op: Op,
                                     args: List<Expr>, t: IntTy,
                                     acc: IVal, pending: set<string>)
    requires Keeps(ls, pending) && OkEs(g, sc, cx.chk, args)
    ensures Keeps(LowerFold(cx, ls, vs, op, args, t, acc).0, pending)
    decreases args, 0
  {
    hide Growing, AllWellFormed, Emit, LabelName, Dec, Labels;
    match args
    case Nil =>
    case Cons(e, rest) =>
      var (ls1, v) := LowerExpr(cx, ls, vs, e);
      ExprKeeps(g, sc, cx, ls, vs, e, pending);
      var (ls2, dst) := Tmp(ls1, IntT(t));
      TmpPutGrowing(ls1, IntT(t), IBin(dst.id, op, acc, v, t, cx.chk), pending);
      FoldKeeps(g, sc, cx, Put(ls2, IBin(dst.id, op, acc, v, t, cx.chk)), vs, op, rest, t, dst, pending);
  }

  lemma {:induction false} AndOrKeeps(g: set<string>, sc: set<string>, cx: Cx, ls: LS, vs: Scope, args: List<Expr>,
                                      short: bool, pending: set<string>)
    requires Keeps(ls, pending) && OkEs(g, sc, cx.chk, args)
    ensures Keeps(LowerAndOr(cx, ls, vs, args, short).0, pending)
    decreases args, 1
  {
    hide Growing, AllWellFormed, Emit, LabelName, Dec, Labels;
    var (ls1, res) := Loc(ls, "sc", BOOL);
    LocGrowing(ls, "sc", BOOL, pending);
    var (ls2, endl) := Lbl(ls1, "sc_end");
    LblGrowing(ls1, "sc_end", pending);
    var p2 := pending + {endl};
    var ls3 := LowerTests(cx, ls2, vs, args, short, res.name, endl);
    TestsKeep(g, sc, cx, ls2, vs, args, short, res.name, endl, p2);
    PutGrowing(ls3, IBr(endl), p2);
    BlockGrowing(Put(ls3, IBr(endl)), endl, p2);
    assert p2 - {endl} == pending;
  }

  lemma {:induction false} TestsKeep(g: set<string>, sc: set<string>, cx: Cx, ls: LS, vs: Scope, args: List<Expr>,
                                     short: bool,
                                     un: string, endl: string, pending: set<string>)
    requires Keeps(ls, pending) && OkEs(g, sc, cx.chk, args) && endl in pending
    ensures Keeps(LowerTests(cx, ls, vs, args, short, un, endl), pending)
    decreases args, 0
  {
    hide Growing, AllWellFormed, Emit, LabelName, Dec, Labels;
    match args
    case Nil =>
    case Cons(e, rest) =>
      var (ls1, v) := LowerExpr(cx, ls, vs, e);
      ExprKeeps(g, sc, cx, ls, vs, e, pending);
      var ls2 := Put(ls1, IAssign(PLocal(un), v));
      PutGrowing(ls1, IAssign(PLocal(un), v), pending);
      var (ls3, nxt) := Lbl(ls2, "sc_nx");
      LblGrowing(ls2, "sc_nx", pending);
      var br := if short then ICondBr(v, endl, nxt) else ICondBr(v, nxt, endl);
      PutGrowing(ls3, br, pending + {nxt});
      BlockGrowing(Put(ls3, br), nxt, pending + {nxt});
      assert pending + {nxt} - {nxt} == pending;
      TestsKeep(g, sc, cx, Block0(Put(ls3, br), nxt), vs, rest, short, un, endl, pending);
  }

  // ----- statements -----

  lemma {:induction false} StmtsKeep(g: set<string>, sc: set<string>, cx: Cx, ls: LS, vs: Scope, ss: List<Stmt>,
                                     pending: set<string>, loop: bool)
    requires Keeps(ls, pending) && OkSs(g, sc, cx.chk, loop, ss) && LoopKnown(cx, ls, pending, loop)
    ensures Keeps(LowerStmts(cx, ls, vs, ss), pending)
    decreases ss, 0
  {
    hide Growing, AllWellFormed, Emit, LabelName, Dec, Labels;
    match ss
    case Nil =>
    case Cons(s, rest) =>
      var (ls1, vs1) := LowerStmt(cx, ls, vs, s);
      StmtKeeps(g, sc, cx, ls, vs, s, pending, loop);
      StmtGrows(cx, ls, vs, s);
      GrowsKnows(ls, ls1);
      StmtsKeep(g, if s.SLet? then sc + {s.name} else sc, cx, ls1, vs1, rest, pending, loop);
  }

  // A jump to a known label.
  lemma JumpKeeps(ls: LS, l: string, pending: set<string>)
    requires Keeps(ls, pending) && Known(ls, pending, l)
    ensures Keeps(Put(ls, IBr(l)), pending) && Keeps(FallTo(ls, l), pending) && CurTerminated(FallTo(ls, l).b)
    ensures Labels(ls.b.fn) <= Labels(FallTo(ls, l).b.fn)
  {
    hide Growing, AllWellFormed, Emit, LabelName, Dec, Labels;
    PutGrowing(ls, IBr(l), pending);
  }

  lemma {:induction false} StmtKeeps(g: set<string>, sc: set<string>, cx: Cx, ls: LS, vs: Scope, s: Stmt,
                                     pending: set<string>, loop: bool)
    requires Keeps(ls, pending) && OkS(g, sc, cx.chk, loop, s) && LoopKnown(cx, ls, pending, loop)
    ensures Keeps(LowerStmt(cx, ls, vs, s).0, pending)
    decreases s, 1
  {
    hide Growing, AllWellFormed, Known;
    match s
    case SLet(x, ty, init, _) =>
      var (ls1, v) := LowerExpr(cx, ls, vs, init);
      ExprKeeps(g, sc, cx, ls, vs, init, pending);
      BindNameGrowing(cx, ls1, x, TyOf(ty), v, pending);
    case SSet(x, rhs) =>
      var (ls1, v) := LowerExpr(cx, ls, vs, rhs);
      ExprKeeps(g, sc, cx, ls, vs, rhs, pending);
      if x in vs {
        PutGrowing(ls1, IAssign(if Boxed(vs[x]) then PDeref(vs[x]) else PLocal(if vs[x].Local? then vs[x].name else ""), v), pending);
      }
    case SDo(e) => ExprKeeps(g, sc, cx, ls, vs, e, pending);
    case SIf(_, _) => IfKeeps(g, sc, cx, ls, vs, s, pending, loop);
    case SWhile(_, _) => WhileKeeps(g, sc, cx, ls, vs, s, pending, loop);
    case SForNum(_, _, _, _, _, _) => ForKeeps(g, sc, cx, ls, vs, s, pending, loop);
    case SLoop(_) => LoopKeeps(g, sc, cx, ls, vs, s, pending, loop);
    case SBreak => JumpKeeps(ls, Top(cx.brk), pending);
    case SContinue => JumpKeeps(ls, Top(cx.cont), pending);
    case SPass =>
    case SReturn(e) =>
      var (ls1, v) := LowerExpr(cx, ls, vs, e);
      ExprKeeps(g, sc, cx, ls, vs, e, pending);
      PutGrowing(ls1, IRet(v), pending);
    case SReturnNone => PutGrowing(ls, IRet(ImmUnit), pending);
    case SChecked(body) => StmtsKeep(g, sc, cx.(chk := true), ls, vs, body, pending, loop);
  }

  lemma {:induction false} IfKeeps(g: set<string>, sc: set<string>, cx: Cx, ls: LS, vs: Scope, s: Stmt,
                                   pending: set<string>, loop: bool)
    requires s.SIf? && Keeps(ls, pending) && OkS(g, sc, cx.chk, loop, s) && LoopKnown(cx, ls, pending, loop)
    ensures Keeps(LowerStmt(cx, ls, vs, s).0, pending)
    decreases s, 0
  {
    hide Growing, AllWellFormed, Emit, LabelName, Dec, Labels;
    var (ls1, endl) := Lbl(ls, "if_end");
    LblGrowing(ls, "if_end", pending);
    var p2 := pending + {endl};
    var ls2 := LowerBranches(cx, ls1, vs, s.branches, endl);
    BranchesKeep(g, sc, cx, ls1, vs, s.branches, endl, p2, loop);
    BranchesGrow(cx, ls1, vs, s.branches, endl);
    GrowsKnows(ls1, ls2);
    StmtsKeep(g, sc, cx, ls2, vs, s.orelse, p2, loop);
    var ls3 := LowerStmts(cx, ls2, vs, s.orelse);
    JumpKeeps(ls3, endl, p2);
    BlockGrowing(FallTo(ls3, endl), endl, p2);
    assert p2 - {endl} == pending;
  }

  lemma {:induction false} BranchesKeep(g: set<string>, sc: set<string>, cx: Cx, ls: LS, vs: Scope, bs: List<Branch>,
                                        endl: string,
                                        pending: set<string>, loop: bool)
    requires Keeps(ls, pending) && OkBs(g, sc, cx.chk, loop, bs) && LoopKnown(cx, ls, pending, loop) && endl in pending
    ensures Keeps(LowerBranches(cx, ls, vs, bs, endl), pending)
    decreases bs, 0
  {
    hide Growing, AllWellFormed, Emit, LabelName, Dec, Labels;
    match bs
    case Nil =>
    case Cons(br, rest) =>
      var (ls1, c) := LowerExpr(cx, ls, vs, br.cond);
      ExprKeeps(g, sc, cx, ls, vs, br.cond, pending);
      ExprGrows(cx, ls, vs, br.cond);
      GrowsKnows(ls, ls1);
      var (ls2, thenl) := Lbl(ls1, "then");
      LblGrowing(ls1, "then", pending);
      var (ls3, elsl) := Lbl(ls2, "else");
      var p2 := pending + {thenl};
      LblGrowing(ls2, "else", p2);
      var p3 := p2 + {elsl};
      PutGrowing(ls3, ICondBr(c, thenl, elsl), p3);
      BlockGrowing(Put(ls3, ICondBr(c, thenl, elsl)), thenl, p3);
      var p4 := pending + {elsl};
      assert p3 - {thenl} == p4;
      var ls4 := Block0(Put(ls3, ICondBr(c, thenl, elsl)), thenl);
      StmtsKeep(g, sc, cx, ls4, vs, br.bbody, p4, loop);
      StmtsGrows(cx, ls4, vs, br.bbody);
      var ls5 := LowerStmts(cx, ls4, vs, br.bbody);
      GrowsKnows(ls4, ls5);
      JumpKeeps(ls5, endl, p4);
      BlockGrowing(FallTo(ls5, endl), elsl, p4);
      assert p4 - {elsl} == pending;
      BranchesKeep(g, sc, cx, Block0(FallTo(ls5, endl), elsl), vs, rest, endl, pending, loop);
  }

  lemma {:induction false} LoopKeeps(g: set<string>, sc: set<string>, cx: Cx, ls: LS, vs: Scope, s: Stmt,
                                     pending: set<string>, loop: bool)
    requires s.SLoop? && Keeps(ls, pending) && OkS(g, sc, cx.chk, loop, s)
    ensures Keeps(LowerStmt(cx, ls, vs, s).0, pending)
    decreases s, 0
  {
    hide Growing, AllWellFormed, Emit, LabelName, Dec, Labels;
    var (ls1, head) := Lbl(ls, "loop_head");
    LblGrowing(ls, "loop_head", pending);
    var (ls2, endl) := Lbl(ls1, "loop_end");
    LblGrowing(ls1, "loop_end", pending + {head});
    var p2 := pending + {endl};
    PutGrowing(ls2, IBr(head), pending + {head} + {endl});
    BlockGrowing(Put(ls2, IBr(head)), head, pending + {head} + {endl});
    assert pending + {head} + {endl} - {head} == p2;
    var ls3 := Block0(Put(ls2, IBr(head)), head);
    var cx1 := InLoop(cx, endl, head);
    StmtsKeep(g, sc, cx1, ls3, vs, s.body, p2, true);
    StmtsGrows(cx1, ls3, vs, s.body);
    var ls4 := LowerStmts(cx1, ls3, vs, s.body);
    GrowsKnows(ls3, ls4);
    JumpKeeps(ls4, head, p2);
    BlockGrowing(FallTo(ls4, head), endl, p2);
    assert p2 - {endl} == pending;
  }

  lemma {:induction false} WhileKeeps(g: set<string>, sc: set<string>, cx: Cx, ls: LS, vs: Scope, s: Stmt,
                                      pending: set<string>, loop: bool)
    requires s.SWhile? && Keeps(ls, pending) && OkS(g, sc, cx.chk, loop, s)
    ensures Keeps(LowerStmt(cx, ls, vs, s).0, pending)
    decreases s, 0
  {
    hide Growing, AllWellFormed, Emit, LabelName, Dec, Labels;
    var (ls0, head, bodyl, endl) := WhileLabels(ls);
    WhileLabelsKeep(ls, pending);
    var p2 := pending + {bodyl, endl};
    var (ls1, c) := LowerExpr(cx, ls0, vs, s.cond);
    ExprKeeps(g, sc, cx, ls0, vs, s.cond, p2);
    ExprGrows(cx, ls0, vs, s.cond);
    GrowsKnows(ls0, ls1);
    PutGrowing(ls1, ICondBr(c, bodyl, endl), p2);
    BlockGrowing(Put(ls1, ICondBr(c, bodyl, endl)), bodyl, p2);
    var p3 := pending + {endl};
    assert p2 - {bodyl} == p3;
    var ls2 := Block0(Put(ls1, ICondBr(c, bodyl, endl)), bodyl);
    var cx1 := InLoop(cx, endl, head);
    StmtsKeep(g, sc, cx1, ls2, vs, s.body, p3, true);
    StmtsGrows(cx1, ls2, vs, s.body);
    var ls3 := LowerStmts(cx1, ls2, vs, s.body);
    GrowsKnows(ls2, ls3);
    JumpKeeps(ls3, head, p3);
    BlockGrowing(FallTo(ls3, head), endl, p3);
    assert p3 - {endl} == pending;
  }

  lemma WhileLabelsKeep(ls: LS, pending: set<string>)
    requires Growing(ls, pending)
    ensures var (ls0, head, bodyl, endl) := WhileLabels(ls);
            Growing(ls0, pending + {bodyl, endl}) && head in Labels(ls0.b.fn) && ls0.funcs == ls.funcs
            && bodyl != endl && bodyl !in pending && endl !in pending
  {
    hide Growing, Emit, LabelName, Dec, Labels;
    var (ls1, head) := Lbl(ls, "while_head");
    LblGrowing(ls, "while_head", pending);
    var (ls2, bodyl) := Lbl(ls1, "while_body");
    LblGrowing(ls1, "while_body", pending + {head});
    var (ls3, endl) := Lbl(ls2, "while_end");
    LblGrowing(ls2, "while_end", pending + {head} + {bodyl});
    var p := pending + {head} + {bodyl} + {endl};
    PutGrowing(ls3, IBr(head), p);
    BlockGrowing(Put(ls3, IBr(head)), head, p);
    assert p - {head} == pending + {bodyl, endl};
  }

  lemma {:induction false} ForKeeps(g: set<string>, sc: set<string>, cx: Cx, ls: LS, vs: Scope, s: Stmt,
                                    pending: set<string>, loop: bool)
    requires s.SForNum? && Keeps(ls, pending) && OkS(g, sc, cx.chk, loop, s)
    ensures Keeps(LowerStmt(cx, ls, vs, s).0, pending)
    decreases s, 0
  {
    hide Growing, AllWellFormed, Emit, LabelName, Dec, Labels;
    var t := s.ity;
    var (ls1, un, cnt) := ForNames(ls, s.v, t);
    LocGrowing(ls, s.v, IntT(t), pending);
    LocGrowing(Loc(ls, s.v, IntT(t)).0, s.v + "__cnt", IntT(t), pending);
    var (ls2, a) := LowerExpr(cx, ls1, vs, s.start);
    ExprKeeps(g, sc, cx, ls1, vs, s.start, pending);
    var ls3 := Put(ls2, IAssign(PLocal(cnt.name), a));
    PutGrowing(ls2, IAssign(PLocal(cnt.name), a), pending);
    var (ls4, b0) := LowerExpr(cx, ls3, vs, s.stop);
    ExprKeeps(g, sc, cx, ls3, vs, s.stop, pending);
    var (ls5, b) := Snapshot(ls4, b0, t);
    TmpPutGrowing(ls4, IntT(t), IBin(ls4.b.tc, Bin(Add), b0, ImmInt(0, t), t, false), pending);
    var (ls6, c0) := LowerStride(cx, ls5, vs, s.stride, t);
    if s.stride.Some? { ExprKeeps(g, sc, cx, ls5, vs, s.stride.value, pending); }
    var (ls7, c) := Snapshot(ls6, c0, t);
    TmpPutGrowing(ls6, IntT(t), IBin(ls6.b.tc, Bin(Add), c0, ImmInt(0, t), t, false), pending);
    ForTailKeeps(g, sc, cx, ls7, vs, s.v, t, un, cnt, b, c, s.body, pending);
  }

  lemma ForHeadKeeps(ls: LS, un: IVal, cnt: IVal, stop: IVal, t: IntTy, pending: set<string>)
    requires un.Local? && Growing(ls, pending)
    ensures var (ls8, ll) := ForHead(ls, un, cnt, stop, t);
            Growing(ls8, pending + {ll.post, ll.fin}) && ll.head in Labels(ls8.b.fn) && ls8.funcs == ls.funcs
            && ll.post != ll.fin && ll.post !in pending && ll.fin !in pending
  {
    hide Growing, Emit, LabelName, Dec, Labels;
    var (ls1, head) := Lbl(ls, "for_head");
    LblGrowing(ls, "for_head", pending);
    var (ls2, bodyl) := Lbl(ls1, "for_body");
    LblGrowing(ls1, "for_body", pending + {head});
    var (ls3, post) := Lbl(ls2, "for_post");
    LblGrowing(ls2, "for_post", pending + {head} + {bodyl});
    var (ls4, fin) := Lbl(ls3, "for_end");
    LblGrowing(ls3, "for_end", pending + {head} + {bodyl} + {post});
    var p := pending + {head} + {bodyl} + {post} + {fin};
    PutGrowing(ls4, IBr(head), p);
    BlockGrowing(Put(ls4, IBr(head)), head, p);
    var p2 := pending + {bodyl} + {post} + {fin};
    assert p - {head} == p2;
    var ls4b := Block0(Put(ls4, IBr(head)), head);
    var (ls5, c) := Tmp(ls4b, BOOL);
    var ls6 := Put(ls5, IBin(c.id, Cmp(Lt), cnt, stop, t, false));
    TmpPutGrowing(ls4b, BOOL, IBin(c.id, Cmp(Lt), cnt, stop, t, false), p2);
    PutGrowing(ls6, ICondBr(c, bodyl, fin), p2);
    BlockGrowing(Put(ls6, ICondBr(c, bodyl, fin)), bodyl, p2);
    assert p2 - {bodyl} == pending + {post, fin};
    PutGrowing(Block0(Put(ls6, ICondBr(c, bodyl, fin)), bodyl), IAssign(PLocal(un.name), cnt), pending + {post, fin});
  }

  lemma ForPostKeeps(ls: LS, ll: ForLabels, cnt: IVal, step: IVal, t: IntTy, pending: set<string>)
    requires cnt.Local? && Growing(ls, pending + {ll.post, ll.fin}) && CurTerminated(ls.b) && ll.head in Labels(ls.b.fn)
    requires ll.post != ll.fin && ll.post !in pending && ll.fin !in pending
    ensures Growing(ForPost(ls, ll, cnt, step, t), pending)
  {
    hide Growing, Emit, LabelName, Dec, Labels;
    var p := pending + {ll.post, ll.fin};
    BlockGrowing(ls, ll.post, p);
    var p2 := pending + {ll.fin};
    assert p - {ll.post} == p2;
    var ls0 := Block0(ls, ll.post);
    var (ls1, nxt) := Tmp(ls0, IntT(t));
    var ls2 := Put(ls1, IBin(nxt.id, Bin(Add), cnt, step, t, false));
    TmpPutGrowing(ls0, IntT(t), IBin(nxt.id, Bin(Add), cnt, step, t, false), p2);
    var ls3 := Put(ls2, IAssign(PLocal(cnt.name), nxt));
    PutGrowing(ls2, IAssign(PLocal(cnt.name), nxt), p2);
    PutGrowing(ls3, IBr(ll.head), p2);
    BlockGrowing(Put(ls3, IBr(ll.head)), ll.fin, p2);
    assert p2 - {ll.fin} == pending;
  }

  lemma {:induction false} ForTailKeeps(g: set<string>, sc: set<string>, cx: Cx, ls: LS, vs: Scope, x: string,
                                        t: IntTy, un: IVal, cnt: IVal,
                                        b: IVal, c: IVal, body: List<Stmt>, pending: set<string>)
    requires un.Local? && cnt.Local? && Keeps(ls, pending) && OkSs(g, sc + {x}, cx.chk, true, body)
    ensures Keeps(ForTail(cx, ls, vs, x, t, un, cnt, b, c, body), pending)
    decreases body, 1
  {
    hide Growing, AllWellFormed, Emit, LabelName, Dec, Labels;
    var (ls8, ll) := ForHead(ls, un, cnt, b, t);
    ForHeadKeeps(ls, un, cnt, b, t, pending);
    var p := pending + {ll.post, ll.fin};
    var (ls9, idx) := ForIndex(cx, ls8, x, t, un);
    MakeBoxGrowing(ls8, IntT(t), un, p);
    ForIndexGrows(cx, ls8, x, t, un);
    GrowsKnows(ls8, ls9);
    var cx1 := InLoop(cx, ll.fin, ll.post);
    var ls10 := LowerStmts(cx1, ls9, vs[x := idx], body);
    StmtsKeep(g, sc + {x}, cx1, ls9, vs[x := idx], body, p, true);
    StmtsGrows(cx1, ls9, vs[x := idx], body);
    GrowsKnows(ls9, ls10);
    JumpKeeps(ls10, ll.post, p);
    ForPostKeeps(FallTo(ls10, ll.post), ll, cnt, c, t, pending);
  }

  // ----- functions and modules -----

  lemma FuncWellFormed(g: set<string>, mod: string, lamn: nat, funcs: seq<IRFunc>, d: FuncDecl)
    requires AllWellFormed(funcs) && OkSs(g, ParamNames(d.params), false, false, d.body)
    ensures AllWellFormed(LowerFunc(mod, lamn, funcs, d).1)
  {
    hide Growing, WellFormed;
    var cx := FuncCx(mod, d.body);
    var ls0 := LS(NewBuilder(Mangle(mod, d.name), IrParams(d.params)), 0, lamn, funcs, false);
    StartGrowing(Mangle(mod, d.name), IrParams(d.params), lamn, funcs);
    BindParamsGrowing(cx, ls0, d.params, map[]);
    var (ls, vs) := FuncEntry(cx, lamn, funcs, d);
    StmtsKeep(g, ParamNames(d.params), cx, ls, vs, d.body, {}, false);
    FinishWellFormed(FuncBody(mod, lamn, funcs, d), d.ret);
  }

  predicate OkModule(g: set<string>, ds: List<FuncDecl>) {
    match ds
    case Nil => true
    case Cons(d, rest) =>
      && OkSs(g, ParamNames(d.params), false, false, d.body) && DistinctParams(d.params) && OkParams(g, d.params)
      && OkModule(g, rest)
  }

  // Every function a module lowers to, lifted lambdas included, is well formed.
  lemma {:induction false} ModuleWellFormed(g: set<string>, mod: string, lamn: nat, funcs: seq<IRFunc>,
                                            ds: List<FuncDecl>)
    requires AllWellFormed(funcs) && OkModule(g, ds)
    ensures AllWellFormed(LowerModule(mod, lamn, funcs, ds).1)
    decreases ds
  {
    match ds
    case Nil =>
    case Cons(d, rest) =>
      FuncWellFormed(g, mod, lamn, funcs, d);
      var (lamn1, funcs1) := LowerFunc(mod, lamn, funcs, d);
      ModuleWellFormed(g, mod, lamn1, funcs1, rest);
  }
}
