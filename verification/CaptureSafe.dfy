// The panic "cannot capture" of lower_funclit is unreachable: in every module, run
// or not, a name that a function literal captures has a box when the literal is
// lowered, in dead code as well.
module CaptureSafe {
  import opened Numeric
  import opened Syntax
  import opened Ir
  import opened Names
  import opened Lowering

  // Captured names in scope have boxes.
  ghost predicate Sheltered(cx: Cx, vs: Scope) { forall x :: x in vs && x in cx.captured ==> Boxed(vs[x]) }

  lemma {:induction false} ExprAccepted(cx: Cx, ls: LS, vs: Scope, e: Expr)
    requires Sheltered(cx, vs) && CapturedE(e) <= cx.captured
    ensures LowerExpr(cx, ls, vs, e).0.refused == ls.refused
    decreases e, 1
  {
    hide Emit, Sheltered;
    match e
    case EOp(op, args, t) => OpAccepted(cx, ls, vs, op, args, t);
    case ECast(e1, _) => ExprAccepted(cx, ls, vs, e1);
    case ECall(callee, args, _) =>
      if callee.EName? && callee.x !in vs {
        ExprsAccepted(cx, ls, vs, args);
      } else {
        ExprAccepted(cx, ls, vs, callee);
        ExprsAccepted(cx, LowerExpr(cx, ls, vs, callee).0, vs, args);
      }
    case EFunc(_, _, _) => FuncAccepted(cx, ls, vs, e);
    case _ =>
  }

  // The literal's captures are among the names the enclosing body boxes.
  lemma {:induction false} FuncAccepted(cx: Cx, ls: LS, vs: Scope, e: Expr)
    requires e.EFunc? && Sheltered(cx, vs) && CapturedE(e) <= cx.captured
    ensures LowerExpr(cx, ls, vs, e).0.refused == ls.refused
    decreases e, 0
  {
    hide LambdaFree, LambdaBody, Finish, Emit, LowerLambda, CapTypes;
    var caps := SortedNames(LambdaFree(e.params, e.fbody) * vs.Keys);
    forall x | x in caps ensures Boxed(vs[x]) { assert x in CapturedE(e); }
    EnvAccepted(ls, vs, caps);
    var (ls1, env) := MakeEnv(ls, vs, caps);
    var lname := LambdaName(cx.mod, ls1.lamn + 1);
    var (ls2, dst) := Tmp(ls1.(lamn := ls1.lamn + 1), TyOf(TFunc(ParamTypes(e.params), e.ret)));
    var ls3 := Put(ls2, IMakeClosure(dst.id, lname, env));
    LambdaAccepted(cx, ls3.lamn, ls3.funcs, lname, e.params, e.fbody, caps, CapTypes(vs, caps));
  }

  lemma EnvAccepted(ls: LS, vs: Scope, caps: seq<string>)
    requires forall x | x in caps :: x in vs
    ensures MakeEnv(ls, vs, caps).0.refused == ls.refused
  {
    hide Emit;
    if caps != [] {
      var (ls1, env) := Tmp(ls, ENV_TY);
      StoreAccepted(Put(ls1, IEnvNew(env.id, |caps|)), vs, caps, env, 0);
    }
  }

  lemma {:induction false} StoreAccepted(ls: LS, vs: Scope, caps: seq<string>, env: IVal, i: nat)
    requires forall x | x in caps :: x in vs
    requires i <= |caps|
    ensures StoreCaps(ls, vs, caps, env, i).refused == ls.refused
    decreases |caps| - i
  {
    hide Emit;
    if i < |caps| {
      assert caps[i] in caps;
      StoreAccepted(Put(ls, IEnvStore(env, i, vs[caps[i]])), vs, caps, env, i + 1);
    }
  }

  // A lifted body starts with every captured name in a box, and boxes its own.
  lemma {:induction false} LambdaAccepted(cx: Cx, lamn: nat, funcs: seq<IRFunc>, lname: string, params: List<Param>,
                                          body: List<Stmt>, caps: seq<string>, capTys: seq<IRType>)
    requires |caps| == |capTys|
    ensures !LambdaBody(cx, lamn, funcs, lname, params, body, caps, capTys).refused
    decreases body, 3
  {
    hide Emit, LoadCaps, LowerStmts, Sheltered;
    var cx1 := cx.(captured := CapturedSs(body));
    var ls0 := LS(NewBuilder(lname, Cons(IRParam("__env", ENV_TY), IrParams(params))), 0, lamn, funcs, false);
    LoadSheltered(cx1, ls0, caps, capTys, 0, map[]);
    var (ls1, vs1) := LoadCaps(ls0, caps, capTys, 0, map[]);
    BindSheltered(cx1, ls1, params, vs1);
    var (ls2, vs2) := LambdaEntry(cx1, lamn, funcs, lname, params, caps, capTys);
    StmtsAccepted(cx1, ls2, vs2, body);
  }

  lemma {:induction false} LoadSheltered(cx: Cx, ls: LS, caps: seq<string>, capTys: seq<IRType>, i: nat, vs: Scope)
    requires i <= |caps| == |capTys| && forall x :: x in vs ==> Boxed(vs[x])
    ensures var r := LoadCaps(ls, caps, capTys, i, vs); r.0.refused == ls.refused && Sheltered(cx, r.1)
    decreases |caps| - i
  {
    hide Emit;
    if i < |caps| {
      var (ls1, ptr) := Tmp(ls, Ptr(capTys[i]));
      LoadSheltered(cx, Put(ls1, IEnvLoad(ptr.id, Local("__env", ENV_TY), i)), caps, capTys, i + 1, vs[caps[i] := ptr]);
    }
  }

  lemma {:induction false} BindSheltered(cx: Cx, ls: LS, ps: List<Param>, vs: Scope)
    requires Sheltered(cx, vs)
    ensures var r := BindParams(cx, ls, ps, vs); r.0.refused == ls.refused && Sheltered(cx, r.1)
    decreases ps
  {
    hide Emit;
    match ps
    case Nil =>
    case Cons(p, rest) =>
      var arg := Local(p.name, TyOf(p.ty));
      if p.name in cx.captured {
        var (ls1, box) := MakeBox(ls, TyOf(p.ty), arg);
        BindSheltered(cx, ls1, rest, vs[p.name := box]);
      } else {
        BindSheltered(cx, ls, rest, vs[p.name := arg]);
      }
  }

  lemma {:induction false} ExprsAccepted(cx: Cx, ls: LS, vs: Scope, es: List<Expr>)
    requires Sheltered(cx, vs) && CapturedEs(es) <= cx.captured
    ensures LowerExprs(cx, ls, vs, es).0.refused == ls.refused
    decreases es, 0
  {
    hide Sheltered;
    match es
    case Nil =>
    case Cons(e, rest) =>
      ExprAccepted(cx, ls, vs, e);
      ExprsAccepted(cx, LowerExpr(cx, ls, vs, e).0, vs, rest);
  }

  lemma {:induction false} OpAccepted(cx: Cx, ls: LS, vs: Scope, op: Op, args: List<Expr>, t: IntTy)
    requires Sheltered(cx, vs) && CapturedEs(args) <= cx.captured
    ensures LowerOp(cx, ls, vs, op, args, t).0.refused == ls.refused
    decreases args, 3
  {
    hide Emit, Sheltered, LowerExpr;
    if op.And? || op.Or? {
      TestsAccepted(cx, Lbl(Loc(ls, "sc", BOOL).0, "sc_end").0, vs, args, op.Or?, Loc(ls, "sc", BOOL).1.name,
                    Lbl(Loc(ls, "sc", BOOL).0, "sc_end").1);
    } else if args.Cons? {
      var (ls1, v) := LowerExpr(cx, ls, vs, args.head);
      ExprAccepted(cx, ls, vs, args.head);
      if op.Cmp? {
        if args.tail.Cons? { ExprAccepted(cx, ls1, vs, args.tail.head); }
      } else if op.Bin? && !(op.b.Sub? && args.tail.Nil?) {
        FoldAccepted(cx, ls1, vs, op, args.tail, t, v);
      }
    }
  }

  lemma {:induction false} FoldAccepted(cx: Cx, ls: LS, vs: Scope, op: Op, args: List<Expr>, t: IntTy, acc: IVal)
    requires Sheltered(cx, vs) && CapturedEs(args) <= cx.captured
    ensures LowerFold(cx, ls, vs, op, args, t, acc).0.refused == ls.refused
    decreases args, 0
  {
    hide Emit, Sheltered, LowerExpr;
    match args
    case Nil =>
    case Cons(e, rest) =>
      var (ls1, v) := LowerExpr(cx, ls, vs, e);
      ExprAccepted(cx, ls, vs, e);
      var (ls2, dst) := Tmp(ls1, IntT(t));
      FoldAccepted(cx, Put(ls2, IBin(dst.id, op, acc, v, t, cx.chk)), vs, op, rest, t, dst);
  }

  lemma {:induction false} TestsAccepted(cx: Cx, ls: LS, vs: Scope, args: List<Expr>, short: bool, un: string,
                                         endl: string)
    requires Sheltered(cx, vs) && CapturedEs(args) <= cx.captured
    ensures LowerTests(cx, ls, vs, args, short, un, endl).refused == ls.refused
    decreases args, 0
  {
    hide Emit, Sheltered, LowerExpr;
    match args
    case Nil =>
    case Cons(e, rest) =>
      var (ls1, v) := LowerExpr(cx, ls, vs, e);
      ExprAccepted(cx, ls, vs, e);
      var (ls3, nxt) := Lbl(Put(ls1, IAssign(PLocal(un), v)), "sc_nx");
      var ls4 := Put(ls3, if short then ICondBr(v, endl, nxt) else ICondBr(v, nxt, endl));
      TestsAccepted(cx, Block0(ls4, nxt), vs, rest, short, un, endl);
  }

  lemma {:induction false} StmtsAccepted(cx: Cx, ls: LS, vs: Scope, ss: List<Stmt>)
    requires Sheltered(cx, vs) && CapturedSs(ss) <= cx.captured
    ensures LowerStmts(cx, ls, vs, ss).refused == ls.refused
    decreases ss, 0
  {
    hide Sheltered;
    match ss
    case Nil =>
    case Cons(s, rest) =>
      StmtAccepted(cx, ls, vs, s);
      var (ls1, vs1) := LowerStmt(cx, ls, vs, s);
      StmtsAccepted(cx, ls1, vs1, rest);
  }

  // What a binding adds to the scope is boxed if captured.
  lemma BoundSheltered(cx: Cx, ls: LS, x: string, ty: IRType, v: IVal, vs: Scope)
    requires Sheltered(cx, vs)
    ensures var r := BindName(cx, ls, x, ty, v); r.0.refused == ls.refused && Sheltered(cx, vs[x := r.1])
  {
    hide Emit;
  }

  lemma FallAccepted(ls: LS, l: string, l2: string)
    ensures Block0(FallTo(ls, l), l2).refused == ls.refused
  {
    hide Emit;
  }

  lemma {:induction false} StmtAccepted(cx: Cx, ls: LS, vs: Scope, s: Stmt)
    requires Sheltered(cx, vs) && CapturedS(s) <= cx.captured
    ensures var r := LowerStmt(cx, ls, vs, s); r.0.refused == ls.refused && Sheltered(cx, r.1)
    decreases s, 1
  {
    hide Emit, Sheltered, LowerExpr, BindName, FallTo;
    match s
    case SLet(x, ty, init, _) =>
      ExprAccepted(cx, ls, vs, init);
      BoundSheltered(cx, LowerExpr(cx, ls, vs, init).0, x, TyOf(ty), LowerExpr(cx, ls, vs, init).1, vs);
    case SSet(_, rhs) => ExprAccepted(cx, ls, vs, rhs);
    case SDo(e) => ExprAccepted(cx, ls, vs, e);
    case SIf(branches, orelse) =>
      var (ls1, endl) := Lbl(ls, "if_end");
      BranchesAccepted(cx, ls1, vs, branches, endl);
      var ls2 := LowerBranches(cx, ls1, vs, branches, endl);
      StmtsAccepted(cx, ls2, vs, orelse);
      FallAccepted(LowerStmts(cx, ls2, vs, orelse), endl, endl);
    case SWhile(cond, body) =>
      var (ls0, head, bodyl, endl) := WhileLabels(ls);
      ExprAccepted(cx, ls0, vs, cond);
      var (ls1, c) := LowerExpr(cx, ls0, vs, cond);
      BodyAccepted(cx, endl, head, Block0(Put(ls1, ICondBr(c, bodyl, endl)), bodyl), vs, body);
    case SForNum(_, _, _, _, _, _) => ForAccepted(cx, ls, vs, s);
    case SLoop(body) =>
      var (ls1, head) := Lbl(ls, "loop_head");
      var (ls2, endl) := Lbl(ls1, "loop_end");
      BodyAccepted(cx, endl, head, Block0(Put(ls2, IBr(head)), head), vs, body);
    case SReturn(e) => ExprAccepted(cx, ls, vs, e);
    case SChecked(body) =>
      InCx(cx, cx.(chk := true), vs);
      StmtsAccepted(cx.(chk := true), ls, vs, body);
    case _ =>
  }

  lemma InCx(cx: Cx, cx2: Cx, vs: Scope)
    requires Sheltered(cx, vs) && cx2.captured == cx.captured
    ensures Sheltered(cx2, vs)
  {
  }

  lemma {:induction false} BodyAccepted(cx: Cx, brk: string, cont: string, ls: LS, vs: Scope, body: List<Stmt>)
    requires Sheltered(cx, vs) && CapturedSs(body) <= cx.captured
    ensures LowerStmts(InLoop(cx, brk, cont), ls, vs, body).refused == ls.refused
    ensures Block0(FallTo(LowerStmts(InLoop(cx, brk, cont), ls, vs, body), cont), brk).refused == ls.refused
    decreases body, 1
  {
    hide Sheltered, FallTo, LowerStmts;
    InCx(cx, InLoop(cx, brk, cont), vs);
    StmtsAccepted(InLoop(cx, brk, cont), ls, vs, body);
    FallAccepted(LowerStmts(InLoop(cx, brk, cont), ls, vs, body), cont, brk);
  }

  lemma {:induction false} BranchesAccepted(cx: Cx, ls: LS, vs: Scope, bs: List<Branch>, endl: string)
    requires Sheltered(cx, vs) && CapturedBs(bs) <= cx.captured
    ensures LowerBranches(cx, ls, vs, bs, endl).refused == ls.refused
    decreases bs, 0
  {
    hide Emit, Sheltered, LowerExpr, FallTo, LowerStmts;
    match bs
    case Nil =>
    case Cons(br, rest) =>
      var (ls1, c) := LowerExpr(cx, ls, vs, br.cond);
      ExprAccepted(cx, ls, vs, br.cond);
      var (ls2, thenl) := Lbl(ls1, "then");
      var (ls3, elsl) := Lbl(ls2, "else");
      var ls4 := Block0(Put(ls3, ICondBr(c, thenl, elsl)), thenl);
      StmtsAccepted(cx, ls4, vs, br.bbody);
      var ls5 := FallTo(LowerStmts(cx, ls4, vs, br.bbody), endl);
      FallAccepted(LowerStmts(cx, ls4, vs, br.bbody), endl, elsl);
      BranchesAccepted(cx, Block0(ls5, elsl), vs, rest, endl);
  }

  lemma {:induction false} ForAccepted(cx: Cx, ls: LS, vs: Scope, s: Stmt)
    requires s.SForNum? && Sheltered(cx, vs) && CapturedS(s) <= cx.captured
    ensures var r := LowerStmt(cx, ls, vs, s); r.0.refused == ls.refused && r.1 == vs
    decreases s, 0
  {
    hide Emit, Sheltered, ForTail, LowerExpr;
    var t := s.ity;
    var (ls1, un, cnt) := ForNames(ls, s.v, t);
    var (ls2, a) := LowerExpr(cx, ls1, vs, s.start);
    ExprAccepted(cx, ls1, vs, s.start);
    var ls3 := Put(ls2, IAssign(PLocal(cnt.name), a));
    var (ls4, b0) := LowerExpr(cx, ls3, vs, s.stop);
    ExprAccepted(cx, ls3, vs, s.stop);
    var (ls5, b) := Snapshot(ls4, b0, t);
    var (ls6, c0) := LowerStride(cx, ls5, vs, s.stride, t);
    if s.stride.Some? { ExprAccepted(cx, ls5, vs, s.stride.value); }
    var (ls7, c) := Snapshot(ls6, c0, t);
    ForTailAccepted(cx, ls7, vs, s.v, t, un, cnt, b, c, s.body);
  }

  lemma {:induction false} ForTailAccepted(cx: Cx, ls: LS, vs: Scope, x: string, t: IntTy, un: IVal, cnt: IVal,
                                           b: IVal, c: IVal,
                                           body: List<Stmt>)
    requires un.Local? && cnt.Local? && Sheltered(cx, vs) && CapturedSs(body) <= cx.captured
    ensures ForTail(cx, ls, vs, x, t, un, cnt, b, c, body).refused == ls.refused
    decreases body, 2
  {
    hide Emit, Sheltered, LowerStmts, FallTo, ForIndex;
    var (ls8, ll) := ForHead(ls, un, cnt, b, t);
    var (ls9, idx) := ForIndex(cx, ls8, x, t, un);
    IndexSheltered(cx, ls8, x, t, un, vs);
    BodyAccepted(cx, ll.fin, ll.post, ls9, vs[x := idx], body);
    FallAccepted(LowerStmts(InLoop(cx, ll.fin, ll.post), ls9, vs[x := idx], body), ll.post, ll.post);
  }

  // The index of a counted loop, too: a fresh box per iteration if it is captured.
  lemma IndexSheltered(cx: Cx, ls: LS, x: string, t: IntTy, un: IVal, vs: Scope)
    requires Sheltered(cx, vs)
    ensures var r := ForIndex(cx, ls, x, t, un); r.0.refused == ls.refused && Sheltered(cx, vs[x := r.1])
  {
    hide Emit;
  }

  // ----- functions and modules -----

  lemma FuncBodyAccepted(mod: string, lamn: nat, funcs: seq<IRFunc>, d: FuncDecl)
    ensures !FuncBody(mod, lamn, funcs, d).refused
  {
    hide Emit, LowerStmts, Sheltered, BindParams;
    var cx := FuncCx(mod, d.body);
    var ls0 := LS(NewBuilder(Mangle(mod, d.name), IrParams(d.params)), 0, lamn, funcs, false);
    NothingInScope(cx);
    BindSheltered(cx, ls0, d.params, map[]);
    var (ls, vs) := FuncEntry(cx, lamn, funcs, d);
    StmtsAccepted(cx, ls, vs, d.body);
  }

  lemma NothingInScope(cx: Cx)
    ensures Sheltered(cx, map[])
  {
  }

  // Some function of the module is refused.
  function ModuleRefused(mod: string, lamn: nat, funcs: seq<IRFunc>, ds: List<FuncDecl>): bool
    decreases ds
  {
    match ds
    case Nil => false
    case Cons(d, rest) =>
      var (lamn1, funcs1) := LowerFunc(mod, lamn, funcs, d);
      FuncBody(mod, lamn, funcs, d).refused || ModuleRefused(mod, lamn1, funcs1, rest)
  }

  // No module is.
  lemma {:induction false} NeverRefused(mod: string, lamn: nat, funcs: seq<IRFunc>, ds: List<FuncDecl>)
    ensures !ModuleRefused(mod, lamn, funcs, ds)
    decreases ds
  {
    hide FuncBody;
    match ds
    case Nil =>
    case Cons(d, rest) =>
      FuncBodyAccepted(mod, lamn, funcs, d);
      var (lamn1, funcs1) := LowerFunc(mod, lamn, funcs, d);
      NeverRefused(mod, lamn1, funcs1, rest);
  }
}
