// Typing of the annotated tree: operands and bounds have the annotated types, only
// mutable names are set, and bodies return the declared type.
module Typing {
  import opened Numeric
  import opened Syntax

  datatype Bind = Bind(ty: Ty, mutable: bool)

  // The names in scope.
  type Ctx = map<string, Bind>

  // The module's functions; `counts` asks that every shift count be of an unsigned
  // type or a literal, `steps` that counted loops step by one.
  datatype Rules = Rules(fs: map<string, FuncDecl>, counts: bool, steps: bool)

  predicate AllAre(ts: List<Ty>, t: Ty) {
    match ts
    case Nil => true
    case Cons(u, rest) => u == t && AllAre(rest, t)
  }

  // A function literal sees no more of its surroundings than the names it uses.
  function Only(g: Ctx, xs: set<string>): Ctx { map x | x in g && x in xs :: g[x] }

  function WithParams(g: Ctx, ps: List<Param>): Ctx
    decreases ps
  {
    match ps
    case Nil => g
    case Cons(p, rest) => WithParams(g[p.name := Bind(p.ty, true)], rest)
  }

  // ----- expressions -----

  function TypeE(r: Rules, g: Ctx, e: Expr): Option<Ty>
    decreases e, 2
  {
    match e
    case EInt(n, t) => if t.Holds(n) then Some(TInt(t)) else None
    case EBool(_) => Some(TBool)
    case EName(x) =>
      if x in g then Some(g[x].ty)
      else if x in r.fs then Some(TFunc(ParamTypes(r.fs[x].params), r.fs[x].ret))
      else None
    case EOp(op, args, t) =>
      (match TypesE(r, g, args)
       case Some(ts) => if r.counts && !CountKnown(op, args, t) then None else TypeOp(op, ts, t)
       case None => None)
    case ECast(e1, t) =>
      (match TypeE(r, g, e1)
       case Some(TInt(_)) => Some(TInt(t))
       case _ => None)
    case ECall(callee, args, rty) =>
      (match TypeE(r, g, callee)
       case Some(TFunc(ps, ret)) => if ret == rty && TypesE(r, g, args) == Some(ps) then Some(rty) else None
       case _ => None)
    case EFunc(params, ret, body) =>
      if TypedSs(r, WithParams(Only(g, LambdaFree(params, body)), params), ret, body) then Some(TFunc(ParamTypes(params), ret))
      else None
    case EPanic => Some(TUnit)
  }

  function TypesE(r: Rules, g: Ctx, es: List<Expr>): Option<List<Ty>>
    decreases es, 1
  {
    match es
    case Nil => Some(Nil)
    case Cons(e, rest) =>
      match (TypeE(r, g, e), TypesE(r, g, rest))
      case (Some(t), Some(ts)) => Some(Cons(t, ts))
      case _ => None
  }

  // A shift's count is plainly not negative.
  predicate CountKnown(op: Op, args: List<Expr>, t: IntTy) {
    op.Bin? && (op.b.Shl? || op.b.Shr?) && t.Signed() ==>
      args.Cons? && args.tail.Cons? && args.tail.head.EInt? && args.tail.head.value >= 0
  }

  function TypeOp(op: Op, ts: List<Ty>, t: IntTy): Option<Ty> {
    match op
    case And => if AllAre(ts, TBool) then Some(TBool) else None
    case Or => if AllAre(ts, TBool) then Some(TBool) else None
    case Not => if ts == Cons(TBool, Nil) then Some(TBool) else None
    case Cmp(c) =>
      if ts == Cons(TInt(t), Cons(TInt(t), Nil)) || ((c.Eq? || c.Ne?) && ts == Cons(TBool, Cons(TBool, Nil))) then Some(TBool)
      else None
    case Bnot => if ts == Cons(TInt(t), Nil) then Some(TInt(t)) else None
    case Bin(b) =>
      if ts.Cons? && AllAre(ts, TInt(t)) && (b.Ring() || Length(ts) == 2) then Some(TInt(t)) else None
  }

  // ----- statements -----

  // The scope after a statement.
  function After(g: Ctx, s: Stmt): Ctx { if s.SLet? then g[s.name := Bind(s.lty, s.mutable)] else g }

  predicate StepsByOne(stride: Option<Expr>) { stride.Some? ==> stride.value.EInt? && stride.value.value == 1 }

  predicate TypedSs(r: Rules, g: Ctx, ret: Ty, ss: List<Stmt>)
    decreases ss, 1
  {
    match ss
    case Nil => true
    case Cons(s, rest) => TypedS(r, g, ret, s) && TypedSs(r, After(g, s), ret, rest)
  }

  predicate TypedS(r: Rules, g: Ctx, ret: Ty, s: Stmt)
    decreases s, 1
  {
    match s
    case SLet(_, ty, init, _) => TypeE(r, g, init) == Some(ty)
    case SSet(x, rhs) => x in g && g[x].mutable && TypeE(r, g, rhs) == Some(g[x].ty)
    case SDo(e) => TypeE(r, g, e).Some?
    case SIf(branches, orelse) => TypedBs(r, g, ret, branches) && TypedSs(r, g, ret, orelse)
    case SWhile(cond, body) => TypeE(r, g, cond) == Some(TBool) && TypedSs(r, g, ret, body)
    case SForNum(v, t, start, stop, stride, body) =>
      && TypeE(r, g, start) == Some(TInt(t)) && TypeE(r, g, stop) == Some(TInt(t))
      && (stride.Some? ==> TypeE(r, g, stride.value) == Some(TInt(t))) && (r.steps ==> StepsByOne(stride))
      && TypedSs(r, g[v := Bind(TInt(t), true)], ret, body)
    case SLoop(body) => TypedSs(r, g, ret, body)
    case SReturn(e) => TypeE(r, g, e) == Some(ret)
    case SReturnNone => ret == TUnit
    case SChecked(body) => TypedSs(r, g, ret, body)
    case _ => true
  }

  predicate TypedBs(r: Rules, g: Ctx, ret: Ty, bs: List<Branch>)
    decreases bs, 0
  {
    match bs
    case Nil => true
    case Cons(b, rest) => TypeE(r, g, b.cond) == Some(TBool) && TypedSs(r, g, ret, b.bbody) && TypedBs(r, g, ret, rest)
  }

  predicate TypedFuncs(r: Rules, ds: List<FuncDecl>) {
    match ds
    case Nil => true
    case Cons(d, rest) => TypedSs(r, WithParams(map[], d.params), d.ret, d.body) && TypedFuncs(r, rest)
  }
}
