// AST to block IR (compiler/lower.cardinal), as functions on the lowering state.
// LoweringPass.dfy is the same pass as the object with cells and stacks that the
// source uses, proved to compute these functions.
module Lowering {
  import opened Numeric
  import opened Syntax
  import opened Ir
  import opened Names

  // Source name to the local, or to the temp holding the box of a captured name.
  type Scope = map<string, IVal>

  // What lowering of a construct reads but does not change: the lexical checked
  // flag, the break and continue targets, the boxed names, the module.
  datatype Cx = Cx(chk: bool, brk: seq<string>, cont: seq<string>, captured: set<string>, mod: string)

  // What it changes: the function being built, the uniquifier, the module-wide
  // lifted-lambda counter and function list, and whether lowering has given up.
  datatype LS = LS(b: Builder, uq: nat, lamn: nat, funcs: seq<IRFunc>, refused: bool)

  function Top(stack: seq<string>): string { if stack == [] then "" else stack[|stack| - 1] }

  predicate Boxed(v: IVal) { (v.Temp? || v.Local?) && v.ty.Ptr? }

  function Inner(t: IRType): IRType { if t.Ptr? then t.p else VoidPtr }

  const ENV_TY := Ptr(VoidPtr)

  const BOOL := TyOf(TBool)

  function IntT(t: IntTy): IRType { TyOf(TInt(t)) }

  function Put(ls: LS, i: Instr): LS { ls.(b := Emit(ls.b, i)) }

  function Block0(ls: LS, l: string): LS { ls.(b := NewBlock(ls.b, l)) }

  function Lbl(ls: LS, hint: string): (LS, string) {
    var (b, l) := FreshLabel(ls.b, hint);
    (ls.(b := b), l)
  }

  function Tmp(ls: LS, ty: IRType): (LS, IVal) {
    var (b, v) := FreshTemp(ls.b, ty);
    (ls.(b := b), v)
  }

  // uniq, then add_local.
  function Loc(ls: LS, base: string, ty: IRType): (LS, IVal) {
    var (b, v) := AddLocal(ls.b, UniqName(base, ls.uq + 1), ty);
    (ls.(b := b, uq := ls.uq + 1), v)
  }

  // Fall through to `l` unless the block has already ended.
  function FallTo(ls: LS, l: string): LS {
    if CurTerminated(ls.b) then ls else Put(ls, IBr(l))
  }

  // A one-slot heap box initialised with `init`.
  function MakeBox(ls: LS, vty: IRType, init: IVal): (LS, IVal) {
    var (ls1, t) := Tmp(ls, Ptr(vty));
    (Put(Put(ls1, IAlloc(t.id)), IAssign(PDeref(t), init)), t)
  }

  // A box if some closure of the function captures the name, else a fresh local.
  function BindName(cx: Cx, ls: LS, x: string, ty: IRType, v: IVal): (LS, IVal) {
    if x in cx.captured then MakeBox(ls, ty, v)
    else
      var (ls1, loc) := Loc(ls, x, ty);
      (Put(ls1, IAssign(PLocal(loc.name), v)), loc)
  }

  // ----- expressions -----

  function LowerExpr(cx: Cx, ls: LS, vs: Scope, e: Expr): (LS, IVal)
    decreases e, 1
  {
    match e
    case EInt(n, t) => (ls, ImmInt(n, t))
    case EBool(b) => (ls, ImmBool(b))
    case EName(x) => LowerName(ls, vs, x)
    case EOp(op, args, t) => LowerOp(cx, ls, vs, op, args, t)
    case ECast(e1, t) =>
      var (ls1, v) := LowerExpr(cx, ls, vs, e1);
      var (ls2, dst) := Tmp(ls1, IntT(t));
      (Put(ls2, ICast(dst.id, v, t)), dst)
    case ECall(callee, args, rty) =>
      if callee.EName? && callee.x !in vs then
        var (ls1, vals) := LowerExprs(cx, ls, vs, args);
        if rty == TUnit then (Put(ls1, ICall(None, Mangle(cx.mod, callee.x), vals)), ImmUnit)
        else
          var (ls2, dst) := Tmp(ls1, TyOf(rty));
          (Put(ls2, ICall(Some(dst.id), Mangle(cx.mod, callee.x), vals)), dst)
      else
        var (ls0, clos) := LowerExpr(cx, ls, vs, callee);
        var (ls1, vals) := LowerExprs(cx, ls0, vs, args);
        if rty == TUnit then (Put(ls1, ICallClosure(None, clos, vals)), ImmUnit)
        else
          var (ls2, dst) := Tmp(ls1, TyOf(rty));
          (Put(ls2, ICallClosure(Some(dst.id), clos, vals)), dst)
    case EFunc(params, ret, body) =>
      var caps := SortedNames(LambdaFree(params, body) * vs.Keys);
      var (ls3, dst, lname) := OpenLiteral(cx.mod, ls, vs, caps, TyOf(TFunc(ParamTypes(params), ret)));
      var tys := CapTypes(vs, caps);
      var inner := LambdaBody(cx, ls3.lamn, ls3.funcs, lname, params, body, caps, tys).refused;
      var (lamn, funcs) := LowerLambda(cx, ls3.lamn, ls3.funcs, lname, params, ret, body, caps, tys);
      (ls3.(lamn := lamn, funcs := funcs, refused := ls3.refused || inner), dst)
    case EPanic => (Put(ls, IPanic), ImmUnit)
  }

  function LowerName(ls: LS, vs: Scope, x: string): (LS, IVal) {
    if x !in vs then (ls, ImmUnit)
    else if Boxed(vs[x]) then
      var (ls1, dst) := Tmp(ls, Inner(vs[x].ty));
      (Put(ls1, ILoad(dst.id, vs[x])), dst)
    else (ls, vs[x])
  }

  function LowerExprs(cx: Cx, ls: LS, vs: Scope, es: List<Expr>): (LS, seq<IVal>)
    decreases es, 0
  {
    match es
    case Nil => (ls, [])
    case Cons(e, rest) =>
      var (ls1, v) := LowerExpr(cx, ls, vs, e);
      var (ls2, vals) := LowerExprs(cx, ls1, vs, rest);
      (ls2, [v] + vals)
  }

  function LowerOp(cx: Cx, ls: LS, vs: Scope, op: Op, args: List<Expr>, t: IntTy): (LS, IVal)
    decreases args, 2
  {
    if op.And? || op.Or? then LowerAndOr(cx, ls, vs, args, op.Or?)
    else if args.Nil? then (ls, ImmUnit)
    else if op.Not? then
      var (ls1, v) := LowerExpr(cx, ls, vs, args.head);
      var (ls2, dst) := Tmp(ls1, BOOL);
      (Put(ls2, IUn(dst.id, LNot, v, t, false)), dst)
    else if op.Cmp? then
      if args.tail.Nil? then (ls, ImmUnit)
      else
        var (ls1, l) := LowerExpr(cx, ls, vs, args.head);
        var (ls2, r) := LowerExpr(cx, ls1, vs, args.tail.head);
        var (ls3, dst) := Tmp(ls2, BOOL);
        (Put(ls3, IBin(dst.id, op, l, r, t, false)), dst)
    else if op.Bnot? || (op.b.Sub? && args.tail.Nil?) then
      var (ls1, v) := LowerExpr(cx, ls, vs, args.head);
      var (ls2, dst) := Tmp(ls1, IntT(t));
      (Put(ls2, IUn(dst.id, if op.Bnot? then BNot else Neg, v, t, cx.chk)), dst)
    else
      var (ls1, acc) := LowerExpr(cx, ls, vs, args.head);
      LowerFold(cx, ls1, vs, op, args.tail, t, acc)
  }

  // n-ary arithmetic: fold left, one IBin per further argument.
  function LowerFold(cx: Cx, ls: LS, vs: Scope, op: Op, args: List<Expr>, t: IntTy, acc: IVal): (LS, IVal)
    decreases args, 0
  {
    match args
    case Nil => (ls, acc)
    case Cons(e, rest) =>
      var (ls1, v) := LowerExpr(cx, ls, vs, e);
      var (ls2, dst) := Tmp(ls1, IntT(t));
      LowerFold(cx, Put(ls2, IBin(dst.id, op, acc, v, t, cx.chk)), vs, op, rest, t, dst)
  }

  // Short circuit through a bool local and an end label.
  function LowerAndOr(cx: Cx, ls: LS, vs: Scope, args: List<Expr>, shortTrue: bool): (LS, IVal)
    decreases args, 1
  {
    var (ls1, res) := Loc(ls, "sc", BOOL);
    var (ls2, endl) := Lbl(ls1, "sc_end");
    var ls3 := LowerTests(cx, ls2, vs, args, shortTrue, res.name, endl);
    (Block0(Put(ls3, IBr(endl)), endl), res)
  }

  function LowerTests(cx: Cx, ls: LS, vs: Scope, args: List<Expr>, shortTrue: bool, un: string, endl: string): LS
    decreases args, 0
  {
    match args
    case Nil => ls
    case Cons(e, rest) =>
      var (ls1, v) := LowerExpr(cx, ls, vs, e);
      var ls2 := Put(ls1, IAssign(PLocal(un), v));
      var (ls3, nxt) := Lbl(ls2, "sc_nx");
      var ls4 := Put(ls3, if shortTrue then ICondBr(v, endl, nxt) else ICondBr(v, nxt, endl));
      LowerTests(cx, Block0(ls4, nxt), vs, rest, shortTrue, un, endl)
  }

  // ----- closures -----

  function IrParams(ps: List<Param>): (r: List<IRParam>)
    ensures Length(r) == Length(ps)
  {
    match ps
    case Nil => Nil
    case Cons(p, rest) => Cons(IRParam(p.name, TyOf(p.ty)), IrParams(rest))
  }

  // Where lower_funclit panics: a captured name that has no box.
  predicate CannotCapture(vs: Scope, caps: seq<string>)
    requires forall x | x in caps :: x in vs
  {
    exists x | x in caps :: !Boxed(vs[x])
  }

  function CapTypes(vs: Scope, caps: seq<string>): (r: seq<IRType>)
    requires forall x | x in caps :: x in vs
    ensures |r| == |caps|
  {
    seq(|caps|, i requires 0 <= i < |caps| => assert caps[i] in caps; if Boxed(vs[caps[i]]) then Inner(vs[caps[i]].ty) else VoidPtr)
  }

  // The environment: an array of the captured boxes, or null when there are none.
  function MakeEnv(ls: LS, vs: Scope, caps: seq<string>): (LS, IVal)
    requires forall x | x in caps :: x in vs
  {
    if caps == [] then (ls, ImmNull)
    else
      var (ls1, env) := Tmp(ls, ENV_TY);
      (StoreCaps(Put(ls1, IEnvNew(env.id, |caps|)), vs, caps, env, 0), env)
  }

  // The closure of a literal: its environment and its function's name.
  function OpenLiteral(mod: string, ls: LS, vs: Scope, caps: seq<string>, fty: IRType): (LS, IVal, string)
    requires forall x | x in caps :: x in vs
  {
    var (ls1, env) := MakeEnv(ls, vs, caps);
    var lname := LambdaName(mod, ls1.lamn + 1);
    var (ls2, dst) := Tmp(ls1.(lamn := ls1.lamn + 1), fty);
    (Put(ls2, IMakeClosure(dst.id, lname, env)).(refused := ls.refused || CannotCapture(vs, caps)), dst, lname)
  }

  function StoreCaps(ls: LS, vs: Scope, caps: seq<string>, env: IVal, i: nat): LS
    requires forall x | x in caps :: x in vs
    requires i <= |caps|
    decreases |caps| - i
  {
    if i == |caps| then ls
    else assert caps[i] in caps; StoreCaps(Put(ls, IEnvStore(env, i, vs[caps[i]])), vs, caps, env, i + 1)
  }

  // Lift a function literal: its own builder and uniquifier, first parameter the
  // environment. The checked flag and the loop stacks are the enclosing ones.
  function LowerLambda(cx: Cx, lamn: nat, funcs: seq<IRFunc>, lname: string, params: List<Param>, ret: Ty,
                       body: List<Stmt>, caps: seq<string>, capTys: seq<IRType>): (nat, seq<IRFunc>)
    requires |caps| == |capTys|
    decreases body, 3
  {
    var ls := LambdaBody(cx, lamn, funcs, lname, params, body, caps, capTys);
    (ls.lamn, ls.funcs + [Finish(ls, ret).b.fn])
  }

  function LambdaBody(cx: Cx, lamn: nat, funcs: seq<IRFunc>, lname: string, params: List<Param>,
                      body: List<Stmt>, caps: seq<string>, capTys: seq<IRType>): LS
    requires |caps| == |capTys|
    decreases body, 2
  {
    var cx1 := cx.(captured := CapturedSs(body));
    var (ls, vs) := LambdaEntry(cx1, lamn, funcs, lname, params, caps, capTys);
    LowerStmts(cx1, ls, vs, body)
  }

  function LambdaEntry(cx: Cx, lamn: nat, funcs: seq<IRFunc>, lname: string, params: List<Param>,
                       caps: seq<string>, capTys: seq<IRType>): (LS, Scope)
    requires |caps| == |capTys|
  {
    var b := NewBuilder(lname, Cons(IRParam("__env", ENV_TY), IrParams(params)));
    var (ls1, vs1) := LoadCaps(LS(b, 0, lamn, funcs, false), caps, capTys, 0, map[]);
    BindParams(cx, ls1, params, vs1)
  }

  // Captured names: their boxes, read out of the environment array.
  function LoadCaps(ls: LS, caps: seq<string>, capTys: seq<IRType>, i: nat, vs: Scope): (LS, Scope)
    requires i <= |caps| == |capTys|
    decreases |caps| - i
  {
    if i == |caps| then (ls, vs)
    else
      var (ls1, ptr) := Tmp(ls, Ptr(capTys[i]));
      LoadCaps(Put(ls1, IEnvLoad(ptr.id, Local("__env", ENV_TY), i)), caps, capTys, i + 1, vs[caps[i] := ptr])
  }

  // Parameters: boxed if a closure of the body captures them.
  function BindParams(cx: Cx, ls: LS, ps: List<Param>, vs: Scope): (LS, Scope)
    decreases ps
  {
    match ps
    case Nil => (ls, vs)
    case Cons(p, rest) =>
      var arg := Local(p.name, TyOf(p.ty));
      if p.name in cx.captured then
        var (ls1, box) := MakeBox(ls, TyOf(p.ty), arg);
        BindParams(cx, ls1, rest, vs[p.name := box])
      else BindParams(cx, ls, rest, vs[p.name := arg])
  }

  // The tail of a body that falls through: return, or a trap if a value was due.
  function Finish(ls: LS, ret: Ty): LS {
    if CurTerminated(ls.b) then ls
    else if ret == TUnit then Put(ls, IRet(ImmUnit))
    else Put(ls, IPanic)
  }

  // ----- statements -----

  // lower_block works on a copy of the scope, so nothing escapes but the state.
  function LowerStmts(cx: Cx, ls: LS, vs: Scope, ss: List<Stmt>): LS
    decreases ss, 0
  {
    match ss
    case Nil => ls
    case Cons(s, rest) =>
      var (ls1, vs1) := LowerStmt(cx, ls, vs, s);
      LowerStmts(cx, ls1, vs1, rest)
  }

  function LowerStmt(cx: Cx, ls: LS, vs: Scope, s: Stmt): (LS, Scope)
    decreases s, 0
  {
    match s
    case SLet(x, ty, init, _) =>
      var (ls1, v) := LowerExpr(cx, ls, vs, init);
      var (ls2, loc) := BindName(cx, ls1, x, TyOf(ty), v);
      (ls2, vs[x := loc])
    case SSet(x, rhs) =>
      var (ls1, v) := LowerExpr(cx, ls, vs, rhs);
      if x !in vs then (ls1, vs)
      else if Boxed(vs[x]) then (Put(ls1, IAssign(PDeref(vs[x]), v)), vs)
      else (Put(ls1, IAssign(PLocal(if vs[x].Local? then vs[x].name else ""), v)), vs)
    case SDo(e) => (LowerExpr(cx, ls, vs, e).0, vs)
    case SIf(branches, orelse) =>
      var (ls1, endl) := Lbl(ls, "if_end");
      var ls2 := LowerBranches(cx, ls1, vs, branches, endl);
      (Block0(FallTo(LowerStmts(cx, ls2, vs, orelse), endl), endl), vs)
    case SWhile(cond, body) =>
      var (ls0, head, bodyl, endl) := WhileLabels(ls);
      var (ls1, c) := LowerExpr(cx, ls0, vs, cond);
      var ls2 := Block0(Put(ls1, ICondBr(c, bodyl, endl)), bodyl);
      (Block0(FallTo(LowerStmts(InLoop(cx, endl, head), ls2, vs, body), head), endl), vs)
    case SForNum(x, t, start, stop, stride, body) =>
      var (ls1, un, cnt) := ForNames(ls, x, t);
      var (ls2, a) := LowerExpr(cx, ls1, vs, start);
      var ls3 := Put(ls2, IAssign(PLocal(cnt.name), a));
      var (ls4, b0) := LowerExpr(cx, ls3, vs, stop);
      var (ls5, b) := Snapshot(ls4, b0, t);
      var (ls6, c0) := LowerStride(cx, ls5, vs, stride, t);
      var (ls7, c) := Snapshot(ls6, c0, t);
      (ForTail(cx, ls7, vs, x, t, un, cnt, b, c, body), vs)
    case SLoop(body) =>
      var (ls1, head) := Lbl(ls, "loop_head");
      var (ls2, endl) := Lbl(ls1, "loop_end");
      var ls3 := Block0(Put(ls2, IBr(head)), head);
      (Block0(FallTo(LowerStmts(InLoop(cx, endl, head), ls3, vs, body), head), endl), vs)
    case SBreak => (Put(ls, IBr(Top(cx.brk))), vs)
    case SContinue => (Put(ls, IBr(Top(cx.cont))), vs)
    case SPass => (ls, vs)
    case SReturn(e) =>
      var (ls1, v) := LowerExpr(cx, ls, vs, e);
      (Put(ls1, IRet(v)), vs)
    case SReturnNone => (Put(ls, IRet(ImmUnit)), vs)
    case SChecked(body) => (LowerStmts(cx.(chk := true), ls, vs, body), vs)
  }

  function InLoop(cx: Cx, brk: string, cont: string): Cx {
    cx.(brk := cx.brk + [brk], cont := cx.cont + [cont])
  }

  // Each branch: test, then-block falling to the end, else-block for the next test.
  function LowerBranches(cx: Cx, ls: LS, vs: Scope, bs: List<Branch>, endl: string): LS
    decreases bs, 0
  {
    match bs
    case Nil => ls
    case Cons(br, rest) =>
      var (ls1, c) := LowerExpr(cx, ls, vs, br.cond);
      var (ls2, thenl) := Lbl(ls1, "then");
      var (ls3, elsl) := Lbl(ls2, "else");
      var ls4 := Block0(Put(ls3, ICondBr(c, thenl, elsl)), thenl);
      var ls5 := FallTo(LowerStmts(cx, ls4, vs, br.bbody), endl);
      LowerBranches(cx, Block0(ls5, elsl), vs, rest, endl)
  }

  // Labels of a while loop, with its head block opened.
  function WhileLabels(ls: LS): (LS, string, string, string) {
    var (ls1, head) := Lbl(ls, "while_head");
    var (ls2, bodyl) := Lbl(ls1, "while_body");
    var (ls3, endl) := Lbl(ls2, "while_end");
    (Block0(Put(ls3, IBr(head)), head), head, bodyl, endl)
  }

  // The user-visible index and the hidden counter.
  function ForNames(ls: LS, x: string, t: IntTy): (LS, IVal, IVal) {
    var (ls1, un) := Loc(ls, x, IntT(t));
    var (ls2, cnt) := Loc(ls1, x + "__cnt", IntT(t));
    (ls2, un, cnt)
  }

  // `(+ v 0)` into a temp the body cannot alias.
  function Snapshot(ls: LS, v: IVal, t: IntTy): (LS, IVal) {
    var (ls1, s) := Tmp(ls, IntT(t));
    (Put(ls1, IBin(s.id, Bin(Add), v, ImmInt(0, t), t, false)), s)
  }

  function LowerStride(cx: Cx, ls: LS, vs: Scope, stride: Option<Expr>, t: IntTy): (LS, IVal)
    decreases stride, 2
  {
    match stride
    case None => (ls, ImmInt(1, t))
    case Some(e) => LowerExpr(cx, ls, vs, e)
  }

  datatype ForLabels = ForLabels(head: string, body: string, post: string, fin: string)

  // Head block: test the counter, then in the body block publish it as the index.
  function ForHead(ls: LS, un: IVal, cnt: IVal, stop: IVal, t: IntTy): (LS, ForLabels)
    requires un.Local?
  {
    var (ls1, head) := Lbl(ls, "for_head");
    var (ls2, bodyl) := Lbl(ls1, "for_body");
    var (ls3, post) := Lbl(ls2, "for_post");
    var (ls4, fin) := Lbl(ls3, "for_end");
    var (ls5, c) := Tmp(Block0(Put(ls4, IBr(head)), head), BOOL);
    var ls6 := Put(ls5, IBin(c.id, Cmp(Lt), cnt, stop, t, false));
    var ls7 := Block0(Put(ls6, ICondBr(c, bodyl, fin)), bodyl);
    (Put(ls7, IAssign(PLocal(un.name), cnt)), ForLabels(head, bodyl, post, fin))
  }

  // From the loop's head block to its end.
  function ForTail(cx: Cx, ls: LS, vs: Scope, x: string, t: IntTy, un: IVal, cnt: IVal, b: IVal, c: IVal,
                   body: List<Stmt>): LS
    requires un.Local? && cnt.Local?
    decreases body, 1
  {
    var (ls8, ll) := ForHead(ls, un, cnt, b, t);
    var (ls9, idx) := ForIndex(cx, ls8, x, t, un);
    var ls10 := LowerStmts(InLoop(cx, ll.fin, ll.post), ls9, vs[x := idx], body);
    ForPost(FallTo(ls10, ll.post), ll, cnt, c, t)
  }

  // A captured index gets a fresh box per iteration.
  function ForIndex(cx: Cx, ls: LS, x: string, t: IntTy, un: IVal): (LS, IVal) {
    if x in cx.captured then MakeBox(ls, IntT(t), un) else (ls, un)
  }

  function ForPost(ls: LS, ll: ForLabels, cnt: IVal, step: IVal, t: IntTy): LS
    requires cnt.Local?
  {
    var (ls1, nxt) := Tmp(Block0(ls, ll.post), IntT(t));
    var ls2 := Put(ls1, IBin(nxt.id, Bin(Add), cnt, step, t, false));
    var ls3 := Put(ls2, IAssign(PLocal(cnt.name), nxt));
    Block0(Put(ls3, IBr(ll.head)), ll.fin)
  }

  // ----- functions and modules -----

  function FuncEntry(cx: Cx, lamn: nat, funcs: seq<IRFunc>, d: FuncDecl): (LS, Scope) {
    BindParams(cx, LS(NewBuilder(Mangle(cx.mod, d.name), IrParams(d.params)), 0, lamn, funcs, false), d.params, map[])
  }

  function FuncCx(mod: string, body: List<Stmt>): Cx { Cx(false, [], [], CapturedSs(body), mod) }

  function FuncBody(mod: string, lamn: nat, funcs: seq<IRFunc>, d: FuncDecl): LS {
    var cx := FuncCx(mod, d.body);
    var (ls, vs) := FuncEntry(cx, lamn, funcs, d);
    LowerStmts(cx, ls, vs, d.body)
  }

  function LowerFunc(mod: string, lamn: nat, funcs: seq<IRFunc>, d: FuncDecl): (nat, seq<IRFunc>) {
    var ls := FuncBody(mod, lamn, funcs, d);
    (ls.lamn, ls.funcs + [Finish(ls, d.ret).b.fn])
  }

  function LowerModule(mod: string, lamn: nat, funcs: seq<IRFunc>, ds: List<FuncDecl>): (nat, seq<IRFunc>)
    decreases ds
  {
    match ds
    case Nil => (lamn, funcs)
    case Cons(d, rest) =>
      var (lamn1, funcs1) := LowerFunc(mod, lamn, funcs, d);
      LowerModule(mod, lamn1, funcs1, rest)
  }
}
