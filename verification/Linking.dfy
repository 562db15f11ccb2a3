// The functions of a module, lifted lambdas included, have pairwise distinct
// symbols, so linking them gives every name its own function.
module Linking {
  import opened Numeric
  import opened Syntax
  import opened Ir
  import opened Names
  import opened Lowering
  import opened Growth
  import opened Machine
  import opened Relation
  import opened Entry
  import opened Cfg

  // The module, its functions lowered so far, and names lambdas under
  // construction have taken.
  datatype NameCx = NameCx(mod: string, users: set<string>, taken: set<string>)

  ghost predicate IsLambda(mod: string, lamn: nat, s: string) { exists k: nat :: k <= lamn && s == LambdaName(mod, k) }

  ghost predicate IsUser(nc: NameCx, s: string) { exists u :: u in nc.users && s == Mangle(nc.mod, u) }

  ghost predicate NamesOk(nc: NameCx, lamn: nat, funcs: seq<IRFunc>) {
    && (forall i :: 0 <= i < |funcs| ==> IsLambda(nc.mod, lamn, funcs[i].name) || IsUser(nc, funcs[i].name))
    && (forall i :: 0 <= i < |funcs| ==> funcs[i].name !in nc.taken)
    && (forall i, j :: 0 <= i < j < |funcs| ==> funcs[i].name != funcs[j].name)
    && (forall s :: s in nc.taken ==> IsLambda(nc.mod, lamn, s))
    && (forall u :: u in nc.users ==> u == [] || !IsDigit(u[0]))
  }

  ghost predicate Named(nc: NameCx, ls: LS) { NamesOk(nc, ls.lamn, ls.funcs) }

  // A lambda takes the next number.
  lemma TakeName(nc: NameCx, lamn: nat, funcs: seq<IRFunc>)
    requires NamesOk(nc, lamn, funcs)
    ensures NamesOk(nc.(taken := nc.taken + {LambdaName(nc.mod, lamn + 1)}), lamn + 1, funcs)
    ensures LambdaName(nc.mod, lamn + 1) !in nc.taken
  {
    var l := LambdaName(nc.mod, lamn + 1);
    forall s | IsLambda(nc.mod, lamn, s) ensures s != l && IsLambda(nc.mod, lamn + 1, s) {
      var k: nat :| k <= lamn && s == LambdaName(nc.mod, k);
      if s == l { LambdaNameInjective(nc.mod, k, lamn + 1); }
    }
    var nc2 := nc.(taken := nc.taken + {l});
    forall i | 0 <= i < |funcs| ensures funcs[i].name != l && (IsLambda(nc.mod, lamn + 1, funcs[i].name) || IsUser(nc2, funcs[i].name)) {
      if IsUser(nc, funcs[i].name) {
        var u :| u in nc.users && funcs[i].name == Mangle(nc.mod, u);
        LambdaNotUser(nc.mod, lamn + 1, u);
        assert IsUser(nc2, funcs[i].name);
      }
    }
    assert IsLambda(nc.mod, lamn + 1, l);
  }

  // The finished lambda gives its name up to the list.
  lemma GiveName(nc: NameCx, nc2: NameCx, l: string, lamn: nat, funcs: seq<IRFunc>, f: IRFunc)
    requires nc2 == nc.(taken := nc.taken + {l}) && NamesOk(nc2, lamn, funcs) && f.name == l && l !in nc.taken
    ensures NamesOk(nc, lamn, funcs + [f])
  {
    assert l in nc2.taken;
    forall i | 0 <= i < |funcs| ensures IsLambda(nc.mod, lamn, funcs[i].name) || IsUser(nc, funcs[i].name) {
      if IsUser(nc2, funcs[i].name) { assert IsUser(nc, funcs[i].name); }
    }
  }

  // ----- every construct keeps the names distinct -----

  lemma {:induction false} ExprNamed(nc: NameCx, cx: Cx, ls: LS, vs: Scope, e: Expr)
    requires Named(nc, ls) && cx.mod == nc.mod
    ensures Named(nc, LowerExpr(cx, ls, vs, e).0)
    decreases e, 1
  {
    hide NamesOk;
    match e
    case EOp(op, args, t) => OpNamed(nc, cx, ls, vs, op, args, t);
    case ECast(e1, _) => ExprNamed(nc, cx, ls, vs, e1);
    case ECall(callee, args, _) =>
      if callee.EName? && callee.x !in vs {
        ExprsNamed(nc, cx, ls, vs, args);
      } else {
        ExprNamed(nc, cx, ls, vs, callee);
        ExprsNamed(nc, cx, LowerExpr(cx, ls, vs, callee).0, vs, args);
      }
    case EFunc(_, _, _) => FuncNamed(nc, cx, ls, vs, e);
    case _ =>
  }

  lemma {:induction false} FuncNamed(nc: NameCx, cx: Cx, ls: LS, vs: Scope, e: Expr)
    requires e.EFunc? && Named(nc, ls) && cx.mod == nc.mod
    ensures Named(nc, LowerExpr(cx, ls, vs, e).0)
    decreases e, 0
  {
    hide NamesOk, SortedNames, LambdaFree, LambdaBody, Finish;
    var caps := SortedNames(LambdaFree(e.params, e.fbody) * vs.Keys);
    EnvCounts(ls, vs, caps);
    var lname := LambdaName(cx.mod, ls.lamn + 1);
    var nc2 := nc.(taken := nc.taken + {lname});
    TakeName(nc, ls.lamn, ls.funcs);
    LambdaNamed(nc2, cx, ls.lamn + 1, ls.funcs, lname, e.params, e.ret, e.fbody, caps, CapTypes(vs, caps));
    var body := LambdaBody(cx, ls.lamn + 1, ls.funcs, lname, e.params, e.fbody, caps, CapTypes(vs, caps));
    GiveName(nc, nc2, lname, body.lamn, body.funcs, Finish(body, e.ret).b.fn);
  }

  lemma {:induction false} LambdaNamed(nc: NameCx, cx: Cx, lamn: nat, funcs: seq<IRFunc>, lname: string,
                                       params: List<Param>, ret: Ty,
                                       body: List<Stmt>, caps: seq<string>, capTys: seq<IRType>)
    requires NamesOk(nc, lamn, funcs) && cx.mod == nc.mod && |caps| == |capTys|
    ensures Named(nc, LambdaBody(cx, lamn, funcs, lname, params, body, caps, capTys))
    ensures Finish(LambdaBody(cx, lamn, funcs, lname, params, body, caps, capTys), ret).b.fn.name == lname
    decreases body, 3
  {
    hide NamesOk, Extends;
    var cx1 := cx.(captured := CapturedSs(body));
    var ls0 := LS(NewBuilder(lname, Cons(IRParam("__env", ENV_TY), IrParams(params))), 0, lamn, funcs, false);
    LoadCounts(ls0, caps, capTys, 0, map[]);
    var (ls1, vs1) := LoadCaps(ls0, caps, capTys, 0, map[]);
    BindCounts(cx1, ls1, params, vs1);
    var (ls2, vs2) := LambdaEntry(cx1, lamn, funcs, lname, params, caps, capTys);
    StmtsNamed(nc, cx1, ls2, vs2, body);
    var ls3 := LowerStmts(cx1, ls2, vs2, body);
    EntryGrows(cx1, lamn, funcs, lname, params, caps, capTys);
    StmtsGrows(cx1, ls2, vs2, body);
    FinishGrows(ls3, ret);
    Trans(ls0, ls2, ls3);
    Trans(ls0, ls3, Finish(ls3, ret));
    GrowsSignature(ls0, Finish(ls3, ret));
  }

  lemma {:induction false} LoadCounts(ls: LS, caps: seq<string>, capTys: seq<IRType>, i: nat, vs: Scope)
    requires i <= |caps| == |capTys|
    ensures LoadCaps(ls, caps, capTys, i, vs).0.funcs == ls.funcs && LoadCaps(ls, caps, capTys, i, vs).0.lamn == ls.lamn
    decreases |caps| - i
  {
    if i < |caps| {
      var (ls1, ptr) := Tmp(ls, Ptr(capTys[i]));
      LoadCounts(Put(ls1, IEnvLoad(ptr.id, Local("__env", ENV_TY), i)), caps, capTys, i + 1, vs[caps[i] := ptr]);
    }
  }

  lemma {:induction false} BindCounts(cx: Cx, ls: LS, ps: List<Param>, vs: Scope)
    ensures BindParams(cx, ls, ps, vs).0.funcs == ls.funcs && BindParams(cx, ls, ps, vs).0.lamn == ls.lamn
    decreases ps
  {
    match ps
    case Nil =>
    case Cons(p, rest) =>
      var arg := Local(p.name, TyOf(p.ty));
      if p.name in cx.captured {
        var (ls1, box) := MakeBox(ls, TyOf(p.ty), arg);
        BindCounts(cx, ls1, rest, vs[p.name := box]);
      } else {
        BindCounts(cx, ls, rest, vs[p.name := arg]);
      }
  }

  lemma {:induction false} ExprsNamed(nc: NameCx, cx: Cx, ls: LS, vs: Scope, es: List<Expr>)
    requires Named(nc, ls) && cx.mod == nc.mod
    ensures Named(nc, LowerExprs(cx, ls, vs, es).0)
    decreases es, 0
  {
    hide NamesOk;
    match es
    case Nil =>
    case Cons(e, rest) =>
      ExprNamed(nc, cx, ls, vs, e);
      ExprsNamed(nc, cx, LowerExpr(cx, ls, vs, e).0, vs, rest);
  }

  lemma {:induction false} OpNamed(nc: NameCx, cx: Cx, ls: LS, vs: Scope, op: Op, args: List<Expr>, t: IntTy)
    requires Named(nc, ls) && cx.mod == nc.mod
    ensures Named(nc, LowerOp(cx, ls, vs, op, args, t).0)
    decreases args, 3
  {
    hide NamesOk;
    if op.And? || op.Or? {
      TestsNamed(nc, cx, Lbl(Loc(ls, "sc", BOOL).0, "sc_end").0, vs, args, op.Or?, Loc(ls, "sc", BOOL).1.name,
                 Lbl(Loc(ls, "sc", BOOL).0, "sc_end").1);
    } else if args.Cons? {
      var (ls1, v) := LowerExpr(cx, ls, vs, args.head);
      ExprNamed(nc, cx, ls, vs, args.head);
      if op.Cmp? {
        if args.tail.Cons? { ExprNamed(nc, cx, ls1, vs, args.tail.head); }
      } else if op.Bin? && !(op.b.Sub? && args.tail.Nil?) {
        FoldNamed(nc, cx, ls1, vs, op, args.tail, t, v);
      }
    }
  }

  lemma {:induction false} FoldNamed(nc: NameCx, cx: Cx, ls: LS, vs: Scope, op: Op, args: List<Expr>, t: IntTy,
                                     acc: IVal)
    requires Named(nc, ls) && cx.mod == nc.mod
    ensures Named(nc, LowerFold(cx, ls, vs, op, args, t, acc).0)
    decreases args, 0
  {
    hide NamesOk;
    match args
    case Nil =>
    case Cons(e, rest) =>
      var (ls1, v) := LowerExpr(cx, ls, vs, e);
      ExprNamed(nc, cx, ls, vs, e);
      var (ls2, dst) := Tmp(ls1, IntT(t));
      FoldNamed(nc, cx, Put(ls2, IBin(dst.id, op, acc, v, t, cx.chk)), vs, op, rest, t, dst);
  }

  lemma {:induction false} TestsNamed(nc: NameCx, cx: Cx, ls: LS, vs: Scope, args: List<Expr>, short: bool, un: string,
                                      endl: string)
    requires Named(nc, ls) && cx.mod == nc.mod
    ensures Named(nc, LowerTests(cx, ls, vs, args, short, un, endl))
    decreases args, 0
  {
    hide NamesOk;
    match args
    case Nil =>
    case Cons(e, rest) =>
      var (ls1, v) := LowerExpr(cx, ls, vs, e);
      ExprNamed(nc, cx, ls, vs, e);
      var (ls3, nxt) := Lbl(Put(ls1, IAssign(PLocal(un), v)), "sc_nx");
      var ls4 := Put(ls3, if short then ICondBr(v, endl, nxt) else ICondBr(v, nxt, endl));
      TestsNamed(nc, cx, Block0(ls4, nxt), vs, rest, short, un, endl);
  }

  lemma {:induction false} StmtsNamed(nc: NameCx, cx: Cx, ls: LS, vs: Scope, ss: List<Stmt>)
    requires Named(nc, ls) && cx.mod == nc.mod
    ensures Named(nc, LowerStmts(cx, ls, vs, ss))
    decreases ss, 0
  {
    hide NamesOk;
    match ss
    case Nil =>
    case Cons(s, rest) =>
      StmtNamed(nc, cx, ls, vs, s);
      var (ls1, vs1) := LowerStmt(cx, ls, vs, s);
      StmtsNamed(nc, cx, ls1, vs1, rest);
  }

  lemma {:induction false} StmtNamed(nc: NameCx, cx: Cx, ls: LS, vs: Scope, s: Stmt)
    requires Named(nc, ls) && cx.mod == nc.mod
    ensures Named(nc, LowerStmt(cx, ls, vs, s).0)
    decreases s, 1
  {
    hide LowerExpr, LowerStmts, NamesOk;
    match s
    case SLet(x, ty, init, _) => ExprNamed(nc, cx, ls, vs, init);
    case SSet(_, rhs) => ExprNamed(nc, cx, ls, vs, rhs);
    case SDo(e) => ExprNamed(nc, cx, ls, vs, e);
    case SIf(branches, orelse) =>
      var (ls1, endl) := Lbl(ls, "if_end");
      BranchesNamed(nc, cx, ls1, vs, branches, endl);
      StmtsNamed(nc, cx, LowerBranches(cx, ls1, vs, branches, endl), vs, orelse);
    case SWhile(cond, body) =>
      var (ls0, head, bodyl, endl) := WhileLabels(ls);
      ExprNamed(nc, cx, ls0, vs, cond);
      var (ls1, c) := LowerExpr(cx, ls0, vs, cond);
      StmtsNamed(nc, InLoop(cx, endl, head), Block0(Put(ls1, ICondBr(c, bodyl, endl)), bodyl), vs, body);
    case SForNum(_, _, _, _, _, _) => ForNamed(nc, cx, ls, vs, s);
    case SLoop(body) =>
      var (ls1, head) := Lbl(ls, "loop_head");
      var (ls2, endl) := Lbl(ls1, "loop_end");
      StmtsNamed(nc, InLoop(cx, endl, head), Block0(Put(ls2, IBr(head)), head), vs, body);
    case SReturn(e) => ExprNamed(nc, cx, ls, vs, e);
    case SChecked(body) => StmtsNamed(nc, cx.(chk := true), ls, vs, body);
    case _ =>
  }

  lemma {:induction false} BranchesNamed(nc: NameCx, cx: Cx, ls: LS, vs: Scope, bs: List<Branch>, endl: string)
    requires Named(nc, ls) && cx.mod == nc.mod
    ensures Named(nc, LowerBranches(cx, ls, vs, bs, endl))
    decreases bs, 0
  {
    hide NamesOk;
    match bs
    case Nil =>
    case Cons(br, rest) =>
      var (ls1, c) := LowerExpr(cx, ls, vs, br.cond);
      ExprNamed(nc, cx, ls, vs, br.cond);
      var (ls2, thenl) := Lbl(ls1, "then");
      var (ls3, elsl) := Lbl(ls2, "else");
      var ls4 := Block0(Put(ls3, ICondBr(c, thenl, elsl)), thenl);
      StmtsNamed(nc, cx, ls4, vs, br.bbody);
      var ls5 := FallTo(LowerStmts(cx, ls4, vs, br.bbody), endl);
      BranchesNamed(nc, cx, Block0(ls5, elsl), vs, rest, endl);
  }

  lemma {:induction false} ForNamed(nc: NameCx, cx: Cx, ls: LS, vs: Scope, s: Stmt)
    requires s.SForNum? && Named(nc, ls) && cx.mod == nc.mod
    ensures Named(nc, LowerStmt(cx, ls, vs, s).0)
    decreases s, 0
  {
    hide NamesOk, ForTail;
    var t := s.ity;
    var (ls1, un, cnt) := ForNames(ls, s.v, t);
    var (ls2, a) := LowerExpr(cx, ls1, vs, s.start);
    ExprNamed(nc, cx, ls1, vs, s.start);
    var ls3 := Put(ls2, IAssign(PLocal(cnt.name), a));
    var (ls4, b0) := LowerExpr(cx, ls3, vs, s.stop);
    ExprNamed(nc, cx, ls3, vs, s.stop);
    var (ls5, b) := Snapshot(ls4, b0, t);
    var (ls6, c0) := LowerStride(cx, ls5, vs, s.stride, t);
    if s.stride.Some? { ExprNamed(nc, cx, ls5, vs, s.stride.value); }
    var (ls7, c) := Snapshot(ls6, c0, t);
    ForTailNamed(nc, cx, ls7, vs, s.v, t, un, cnt, b, c, s.body);
  }

  lemma {:induction false} ForTailNamed(nc: NameCx, cx: Cx, ls: LS, vs: Scope, x: string, t: IntTy, un: IVal,
                                        cnt: IVal, b: IVal, c: IVal,
                                        body: List<Stmt>)
    requires un.Local? && cnt.Local? && Named(nc, ls) && cx.mod == nc.mod
    ensures Named(nc, ForTail(cx, ls, vs, x, t, un, cnt, b, c, body))
    decreases body, 1
  {
    hide NamesOk;
    var (ls8, ll) := ForHead(ls, un, cnt, b, t);
    var (ls9, idx) := ForIndex(cx, ls8, x, t, un);
    StmtsNamed(nc, InLoop(cx, ll.fin, ll.post), ls9, vs[x := idx], body);
  }

  // ----- modules -----

  function DeclNames(ds: List<FuncDecl>): set<string> {
    match ds
    case Nil => {}
    case Cons(d, rest) => {d.name} + DeclNames(rest)
  }

  // Functions of a module have distinct names, and names do not start with a digit.
  predicate NamesFine(ds: List<FuncDecl>) {
    match ds
    case Nil => true
    case Cons(d, rest) => (d.name == [] || !IsDigit(d.name[0])) && d.name !in DeclNames(rest) && NamesFine(rest)
  }

  lemma FuncDeclNamed(mod: string, users: set<string>, lamn: nat, funcs: seq<IRFunc>, d: FuncDecl)
    requires NamesOk(NameCx(mod, users, {}), lamn, funcs) && d.name !in users && (d.name == [] || !IsDigit(d.name[0]))
    ensures var r := LowerFunc(mod, lamn, funcs, d); NamesOk(NameCx(mod, users + {d.name}, {}), r.0, r.1)
    ensures Finish(FuncBody(mod, lamn, funcs, d), d.ret).b.fn.name == Mangle(mod, d.name)
  {
    hide NamesOk, Extends;
    var nc := NameCx(mod, users, {});
    var cx := FuncCx(mod, d.body);
    var ls0 := LS(NewBuilder(Mangle(mod, d.name), IrParams(d.params)), 0, lamn, funcs, false);
    BindCounts(cx, ls0, d.params, map[]);
    var (ls1, vs1) := FuncEntry(cx, lamn, funcs, d);
    StmtsNamed(nc, cx, ls1, vs1, d.body);
    var ls2 := FuncBody(mod, lamn, funcs, d);
    BindParamsGrows(cx, ls0, d.params, map[]);
    StmtsGrows(cx, ls1, vs1, d.body);
    FinishGrows(ls2, d.ret);
    Trans(ls0, ls1, ls2);
    Trans(ls0, ls2, Finish(ls2, d.ret));
    GrowsSignature(ls0, Finish(ls2, d.ret));
    AddUser(nc, d.name, ls2.lamn, ls2.funcs, Finish(ls2, d.ret).b.fn);
  }

  lemma AddUser(nc: NameCx, u: string, lamn: nat, funcs: seq<IRFunc>, f: IRFunc)
    requires NamesOk(nc, lamn, funcs) && u !in nc.users && (u == [] || !IsDigit(u[0])) && f.name == Mangle(nc.mod, u) && nc.taken == {}
    ensures NamesOk(nc.(users := nc.users + {u}), lamn, funcs + [f])
  {
    var nc2 := nc.(users := nc.users + {u});
    assert IsUser(nc2, f.name);
    forall i | 0 <= i < |funcs| ensures funcs[i].name != f.name && (IsLambda(nc.mod, lamn, funcs[i].name) || IsUser(nc2, funcs[i].name)) {
      if IsUser(nc, funcs[i].name) {
        var w :| w in nc.users && funcs[i].name == Mangle(nc.mod, w);
        assert IsUser(nc2, funcs[i].name);
        if funcs[i].name == f.name { MangleInjective(nc.mod, u, w); }
      } else {
        var k: nat :| k <= lamn && funcs[i].name == LambdaName(nc.mod, k);
        LambdaNotUser(nc.mod, k, u);
      }
    }
  }

  // Every symbol of a module's IR names exactly one function.
  lemma {:induction false} ModuleNamed(mod: string, users: set<string>, lamn: nat, funcs: seq<IRFunc>,
                                       ds: List<FuncDecl>)
    requires NamesOk(NameCx(mod, users, {}), lamn, funcs) && NamesFine(ds) && users !! DeclNames(ds)
    ensures var r := LowerModule(mod, lamn, funcs, ds); NamesOk(NameCx(mod, users + DeclNames(ds), {}), r.0, r.1)
    decreases ds
  {
    match ds
    case Nil => assert users + {} == users;
    case Cons(d, rest) =>
      hide NamesOk;
      FuncDeclNamed(mod, users, lamn, funcs, d);
      var (lamn1, funcs1) := LowerFunc(mod, lamn, funcs, d);
      ModuleNamed(mod, users + {d.name}, lamn1, funcs1, rest);
      assert users + {d.name} + DeclNames(rest) == users + DeclNames(ds);
  }

  // The program: every function under its symbol.
  function Link(funcs: seq<IRFunc>): IRProgram {
    if funcs == [] then map[] else Link(funcs[..|funcs| - 1])[funcs[|funcs| - 1].name := funcs[|funcs| - 1]]
  }

  lemma {:induction false} LinkLinks(funcs: seq<IRFunc>)
    requires forall i, j :: 0 <= i < j < |funcs| ==> funcs[i].name != funcs[j].name
    ensures Linked(funcs, Link(funcs))
    ensures forall fn :: fn in Link(funcs) ==> exists i :: 0 <= i < |funcs| && Link(funcs)[fn] == funcs[i]
    decreases |funcs|
  {
    if funcs != [] {
      var front := funcs[..|funcs| - 1];
      LinkLinks(front);
      forall fn | fn in Link(funcs) ensures exists i :: 0 <= i < |funcs| && Link(funcs)[fn] == funcs[i] {
        if fn != funcs[|funcs| - 1].name {
          var i :| 0 <= i < |front| && Link(front)[fn] == front[i];
          assert funcs[i] == front[i];
        } else {
          assert Link(funcs)[fn] == funcs[|funcs| - 1];
        }
      }
      forall i | 0 <= i < |funcs| ensures funcs[i].name in Link(funcs) && Link(funcs)[funcs[i].name] == funcs[i] {
        if i < |front| { assert front[i] == funcs[i]; }
      }
    }
  }

  // ----- a whole module as the simulation needs it -----

  function Source(ds: List<FuncDecl>): map<string, FuncDecl> {
    match ds
    case Nil => map[]
    case Cons(d, rest) => Source(rest)[d.name := d]
  }

  lemma {:induction false} SourceKeys(ds: List<FuncDecl>)
    ensures Source(ds).Keys == DeclNames(ds)
    ensures forall f :: f in Source(ds) ==> Source(ds)[f].name == f
    decreases ds
  {
    match ds
    case Nil =>
    case Cons(d, rest) => SourceKeys(rest);
  }

  // What the module lowers to.
  function Compile(mod: string, ds: List<FuncDecl>): IRProgram { Link(LowerModule(mod, 0, [], ds).1) }

  // Each function's lowering is found in the module's function list.
  lemma {:induction false} FuncsLinked(code: Code, mod: string, lamn: nat, funcs: seq<IRFunc>, ds: List<FuncDecl>,
                                       f: string)
    requires code.mod == mod && Linked(LowerModule(mod, lamn, funcs, ds).1, code.ir) && OkModule(code.src.Keys, ds)
    requires NamesFine(ds) && f in DeclNames(ds)
    ensures f in Source(ds) && exists i :: FuncAt(code, Source(ds)[f], i)
    decreases ds
  {
    hide LowerFunc, Linked, OkSs, FuncBody;
    var d, rest := ds.head, ds.tail;
    var (lamn1, funcs1) := LowerFunc(mod, lamn, funcs, d);
    SourceKeys(rest);
    if f == d.name {
      ModuleGrows(mod, lamn1, funcs1, rest);
      PrefixLinked(funcs1, LowerModule(mod, lamn1, funcs1, rest).1, code.ir);
      FuncFound(code, mod, lamn, funcs, d);
    } else {
      FuncsLinked(code, mod, lamn1, funcs1, rest, f);
    }
  }

  lemma PrefixLinked(a: seq<IRFunc>, b: seq<IRFunc>, ir: IRProgram)
    requires a <= b && Linked(b, ir)
    ensures Linked(a, ir)
  {
    forall i | 0 <= i < |a| ensures a[i].name in ir && ir[a[i].name] == a[i] { assert b[i] == a[i]; }
  }

  lemma FuncFound(code: Code, mod: string, lamn: nat, funcs: seq<IRFunc>, d: FuncDecl)
    requires code.mod == mod && Linked(LowerFunc(mod, lamn, funcs, d).1, code.ir)
    requires OkSs(code.src.Keys, ParamNames(d.params), false, false, d.body) && DistinctParams(d.params) && OkParams(code.src.Keys, d.params)
    ensures FuncAt(code, d, FuncInfo(lamn, funcs))
  {
    hide OkSs, Extends;
    var ls := FuncBody(mod, lamn, funcs, d);
    var f := Finish(ls, d.ret).b.fn;
    assert LowerFunc(mod, lamn, funcs, d).1 == ls.funcs + [f];
    assert (ls.funcs + [f])[|ls.funcs|] == f;
    PrefixLinked(ls.funcs, ls.funcs + [f], code.ir);
    var cx := FuncCx(mod, d.body);
    var ls0 := LS(NewBuilder(Mangle(mod, d.name), IrParams(d.params)), 0, lamn, funcs, false);
    var (ls1, vs1) := FuncEntry(cx, lamn, funcs, d);
    BindParamsGrows(cx, ls0, d.params, map[]);
    StmtsGrows(cx, ls1, vs1, d.body);
    FinishGrows(ls, d.ret);
    Trans(ls0, ls1, ls);
    Trans(ls0, ls, Finish(ls, d.ret));
    GrowsSignature(ls0, Finish(ls, d.ret));
    assert {} + ParamNames(d.params) == ParamNames(d.params);
  }

  lemma {:induction false} ModuleGrows(mod: string, lamn: nat, funcs: seq<IRFunc>, ds: List<FuncDecl>)
    ensures funcs <= LowerModule(mod, lamn, funcs, ds).1
    decreases ds
  {
    match ds
    case Nil =>
    case Cons(d, rest) =>
      var (lamn1, funcs1) := LowerFunc(mod, lamn, funcs, d);
      var cx := FuncCx(mod, d.body);
      var ls0 := LS(NewBuilder(Mangle(mod, d.name), IrParams(d.params)), 0, lamn, funcs, false);
      BindParamsGrows(cx, ls0, d.params, map[]);
      StmtsGrows(cx, FuncEntry(cx, lamn, funcs, d).0, FuncEntry(cx, lamn, funcs, d).1, d.body);
      ModuleGrows(mod, lamn1, funcs1, rest);
  }

  // A module within the static conditions.
  predicate FineModule(ds: List<FuncDecl>) { NamesFine(ds) && OkModule(DeclNames(ds), ds) }

  lemma ModuleCode(mod: string, ds: List<FuncDecl>)
    requires FineModule(ds)
    ensures CodeOk(Code(Source(ds), Compile(mod, ds), mod))
  {
    hide FuncAt, LamAt, OkModule, OkSs, LowerModule;
    var code := Code(Source(ds), Compile(mod, ds), mod);
    var (lamn, funcs) := LowerModule(mod, 0, [], ds);
    SourceKeys(ds);
    ModuleNamed(mod, {}, 0, [], ds);
    LinkLinks(funcs);
    ModuleWellFormed(DeclNames(ds), mod, 0, [], ds);
    forall f | f in code.src ensures exists i :: FuncAt(code, code.src[f], i) {
      FuncsLinked(code, mod, 0, [], ds, f);
    }
    forall fn | fn in code.ir ensures DistinctLabels(code.ir[fn]) {
      var i :| 0 <= i < |funcs| && code.ir[fn] == funcs[i];
      assert WellFormed(funcs[i]);
    }
  }
}
