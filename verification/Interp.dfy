// The reference semantics (bootstrap/interpreter.py): a tree walk over cells and
// mutable environments, indexed by fuel. Fuel is spent at each loop iteration and
// each call, so running out of it for every amount means running forever.
module Interp {
  import opened Numeric
  import opened Syntax

  // A closure keeps the environment it was made in, by reference; -1 is the
  // module environment, which holds only the module's functions.
  datatype Value =
    | VInt(n: int, ty: IntTy)
    | VBool(b: bool)
    | VUnit
    | VClo(params: List<Param>, ret: Ty, body: List<Stmt>, env: int)

  datatype Cell = Cell(value: Value, mutable: bool)

  datatype Env = Env(vars: map<string, nat>, parent: int)

  datatype Store = Store(cells: seq<Cell>, envs: seq<Env>)

  // Panic is an abort the compiled program must reproduce. Err is what has no
  // meaning: what a typed program cannot do (apply an operator to the wrong type,
  // assign a const, read a name that is not there), a shift by a negative count,
  // or, in a guarded run, an index that leaves its type.
  datatype Fault = Mistyped | NegativeShift | IndexLeft

  datatype Out<+T> = Ok(v: T, st: Store) | Panic | Err(why: Fault) | NoFuel

  datatype Flow = Normal | Break | Continue | Return(v: Value)

  // How a counted loop counts past the end of its index type. The interpreter
  // counts on, Exact. The compiled counter wraps, Wrapping. A Guarded run ends in
  // Err there.
  datatype Mode = Exact | Wrapping | Guarded

  datatype Program = Program(funcs: map<string, FuncDecl>, mode: Mode)

  // Env.cell: the innermost binding along the parent chain.
  function Lookup(envs: seq<Env>, e: int, x: string): Option<nat>
    decreases e
  {
    if !(0 <= e < |envs|) then None
    else if x in envs[e].vars then Some(envs[e].vars[x])
    else if envs[e].parent < e then Lookup(envs, envs[e].parent, x)
    else None
  }

  function NewEnv(st: Store, parent: int): Store {
    st.(envs := st.envs + [Env(map[], parent)])
  }

  // Env.define: a new cell, replacing any earlier one of that name in that Env.
  function Define(st: Store, e: int, x: string, v: Value, mutable: bool): Store
    requires 0 <= e < |st.envs|
  {
    Store(st.cells + [Cell(v, mutable)],
          st.envs[e := st.envs[e].(vars := st.envs[e].vars[x := |st.cells|])])
  }

  predicate HasTy(v: Value, ty: Ty) {
    match ty
    case TInt(t) => v.VInt? && v.ty == t
    case TBool => v.VBool?
    case TUnit => v.VUnit?
    case TFunc(_, _) => v.VClo?
  }

  // ----- expressions -----

  function Eval(p: Program, fuel: nat, st: Store, env: int, chk: bool, e: Expr): Out<Value>
    decreases fuel, e, 1
  {
    match e
    case EInt(v, t) => Ok(VInt(v, t), st)
    case EBool(b) => Ok(VBool(b), st)
    case EName(x) => EvalName(p, st, env, x)
    case EOp(op, args, t) => EvalOp(p, fuel, st, env, chk, op, args, t)
    case ECast(e1, t) =>
      (match Eval(p, fuel, st, env, chk, e1)
       case Ok(VInt(n, _), st1) => WrapInt(n, t, chk, st1)
       case Ok(_, _) => Err(Mistyped)
       case r => r)
    case ECall(callee, args, rty) =>
      (match Eval(p, fuel, st, env, chk, callee)
       case Ok(f, st1) =>
         (match EvalAll(p, fuel, st1, env, chk, args)
          case Ok(vals, st2) =>
            if !f.VClo? || f.ret != rty then Err(Mistyped)
            else if fuel == 0 then NoFuel
            else Apply(p, fuel - 1, st2, f, vals)
          case Panic => Panic
          case Err(why) => Err(why)
          case NoFuel => NoFuel)
       case r => r)
    case EFunc(params, ret, body) => Ok(VClo(params, ret, body, env), st)
    case EPanic => Panic
  }

  function EvalName(p: Program, st: Store, env: int, x: string): Out<Value> {
    match Lookup(st.envs, env, x)
    case Some(c) => if c < |st.cells| then Ok(st.cells[c].value, st) else Err(Mistyped)
    case None =>
      if x in p.funcs then Ok(VClo(p.funcs[x].params, p.funcs[x].ret, p.funcs[x].body, -1), st) else Err(Mistyped)
  }

  // wrap_int: reduce to the type's range, or panic in `checked` if that changes
  // the value.
  function WrapInt(n: int, t: IntTy, chk: bool, st: Store): Out<Value> {
    if chk && !t.Holds(n) then Panic else Ok(VInt(Wrap(n, t), t), st)
  }

  // Left to right; all operands before any operator is applied.
  function EvalAll(p: Program, fuel: nat, st: Store, env: int, chk: bool, es: List<Expr>): Out<seq<Value>>
    decreases fuel, es, 0
  {
    match es
    case Nil => Ok([], st)
    case Cons(e, rest) =>
      match Eval(p, fuel, st, env, chk, e)
      case Ok(v, st1) =>
        (match EvalAll(p, fuel, st1, env, chk, rest)
         case Ok(vs, st2) => Ok([v] + vs, st2)
         case r => r)
      case Panic => Panic
      case Err(why) => Err(why)
      case NoFuel => NoFuel
  }

  // EvalAll of operands that must all have the integer type t.
  function EvalInts(p: Program, fuel: nat, st: Store, env: int, chk: bool, es: List<Expr>, t: IntTy): Out<seq<int>>
    decreases fuel, es, 0
  {
    match es
    case Nil => Ok([], st)
    case Cons(e, rest) =>
      match Eval(p, fuel, st, env, chk, e)
      case Ok(v, st1) =>
        if v.VInt? && v.ty == t then
          (match EvalInts(p, fuel, st1, env, chk, rest, t)
           case Ok(ns, st2) => Ok([v.n] + ns, st2)
           case r => r)
        else Err(Mistyped)
      case Panic => Panic
      case Err(why) => Err(why)
      case NoFuel => NoFuel
  }

  // and stops at the first false argument, or at the first true one.
  function EvalAndOr(p: Program, fuel: nat, st: Store, env: int, chk: bool, es: List<Expr>, stop: bool): Out<Value>
    decreases fuel, es, 0
  {
    match es
    case Nil => Ok(VBool(!stop), st)
    case Cons(e, rest) =>
      match Eval(p, fuel, st, env, chk, e)
      case Ok(v, st1) =>
        if !v.VBool? then Err(Mistyped)
        else if v.b == stop then Ok(v, st1)
        else EvalAndOr(p, fuel, st1, env, chk, rest, stop)
      case r => r
  }

  function EvalOp(p: Program, fuel: nat, st: Store, env: int, chk: bool, op: Op, args: List<Expr>, t: IntTy): Out<Value>
    decreases fuel, args, 1
  {
    match op
    case And => EvalAndOr(p, fuel, st, env, chk, args, false)
    case Or => EvalAndOr(p, fuel, st, env, chk, args, true)
    case Not =>
      (match EvalAll(p, fuel, st, env, chk, args)
       case Ok(vs, st1) => if |vs| == 1 && vs[0].VBool? then Ok(VBool(!vs[0].b), st1) else Err(Mistyped)
       case Panic => Panic
       case Err(why) => Err(why)
       case NoFuel => NoFuel)
    case Cmp(c) =>
      (match EvalAll(p, fuel, st, env, chk, args)
       case Ok(vs, st1) => if |vs| == 2 then CompareValues(c, vs[0], vs[1], st1) else Err(Mistyped)
       case Panic => Panic
       case Err(why) => Err(why)
       case NoFuel => NoFuel)
    case Bnot =>
      (match EvalInts(p, fuel, st, env, chk, args, t)
       case Ok(ns, st1) => if |ns| == 1 then WrapInt(-ns[0] - 1, t, chk, st1) else Err(Mistyped)
       case Panic => Panic
       case Err(why) => Err(why)
       case NoFuel => NoFuel)
    case Bin(b) =>
      (match EvalInts(p, fuel, st, env, chk, args, t)
       case Ok(ns, st1) => Arith(b, ns, t, chk, st1)
       case Panic => Panic
       case Err(why) => Err(why)
       case NoFuel => NoFuel)
  }

  function CompareValues(c: CmpOp, a: Value, b: Value, st: Store): Out<Value> {
    if a.VInt? && b.VInt? && a.ty == b.ty then Ok(VBool(Compare(c, a.n, b.n)), st)
    else if a.VBool? && b.VBool? && c.Eq? then Ok(VBool(a.b == b.b), st)
    else if a.VBool? && b.VBool? && c.Ne? then Ok(VBool(a.b != b.b), st)
    else Err(Mistyped)
  }

  // Unary minus, or a left fold in unbounded integers wrapped once at the end.
  function Arith(b: BinOp, ns: seq<int>, t: IntTy, chk: bool, st: Store): Out<Value> {
    if ns == [] then Err(Mistyped)
    else if b.Sub? && |ns| == 1 then WrapInt(-ns[0], t, chk, st)
    else if b.Ring() then WrapInt(FoldMath(b, ns[0], ns[1..]), t, chk, st)
    else if |ns| != 2 then Err(Mistyped)
    else
      match BinMath(b, ns[0], ns[1])
      case Num(n) => WrapInt(n, t, chk, st)
      case DivZero => Panic
      case Undefined => Err(NegativeShift)
  }

  // ----- calls -----

  // Arguments become fresh mutable cells of the call's environment.
  function BindParams(st: Store, env: int, ps: List<Param>, vals: seq<Value>): Option<Store>
    requires 0 <= env < |st.envs|
    decreases ps
  {
    match ps
    case Nil => if vals == [] then Some(st) else None
    case Cons(p, rest) =>
      if vals == [] || !HasTy(vals[0], p.ty) then None
      else BindParams(Define(st, env, p.name, vals[0], true), env, rest, vals[1..])
  }

  // `checked` does not cross calls; a value-returning body must return.
  function Apply(p: Program, fuel: nat, st: Store, f: Value, vals: seq<Value>): Out<Value>
    requires f.VClo?
    decreases fuel, f.body, 3
  {
    match BindParams(NewEnv(st, f.env), |st.envs|, f.params, vals)
    case None => Err(Mistyped)
    case Some(st1) =>
      match ExecBlock(p, fuel, st1, |st.envs|, false, f.body)
      case Ok(Return(v), st2) => if HasTy(v, f.ret) then Ok(v, st2) else Err(Mistyped)
      case Ok(Normal, st2) => if f.ret == TUnit then Ok(VUnit, st2) else Panic
      case Ok(_, _) => Err(Mistyped)
      case Panic => Panic
      case Err(why) => Err(why)
      case NoFuel => NoFuel
  }

  // ----- statements -----

  function ExecBlock(p: Program, fuel: nat, st: Store, env: int, chk: bool, ss: List<Stmt>): Out<Flow>
    decreases fuel, ss, 2
  {
    match ss
    case Nil => Ok(Normal, st)
    case Cons(s, rest) =>
      match Exec(p, fuel, st, env, chk, s)
      case Ok(Normal, st1) => ExecBlock(p, fuel, st1, env, chk, rest)
      case r => r
  }

  // A block in an environment of its own.
  function ExecInner(p: Program, fuel: nat, st: Store, env: int, chk: bool, ss: List<Stmt>): Out<Flow>
    decreases fuel, ss, 3
  {
    ExecBlock(p, fuel, NewEnv(st, env), |st.envs|, chk, ss)
  }

  function Exec(p: Program, fuel: nat, st: Store, env: int, chk: bool, s: Stmt): Out<Flow>
    decreases fuel, s, 4
  {
    match s
    case SLet(x, ty, init, mutable) =>
      (match Eval(p, fuel, st, env, chk, init)
       case Ok(v, st1) =>
         if HasTy(v, ty) && 0 <= env < |st1.envs| then Ok(Normal, Define(st1, env, x, v, mutable)) else Err(Mistyped)
       case Panic => Panic
       case Err(why) => Err(why)
       case NoFuel => NoFuel)
    case SSet(x, rhs) =>
      (match Eval(p, fuel, st, env, chk, rhs)
       case Ok(v, st1) => Assign(st1, env, x, v)
       case Panic => Panic
       case Err(why) => Err(why)
       case NoFuel => NoFuel)
    case SDo(e) =>
      (match Eval(p, fuel, st, env, chk, e)
       case Ok(_, st1) => Ok(Normal, st1)
       case Panic => Panic
       case Err(why) => Err(why)
       case NoFuel => NoFuel)
    case SIf(branches, orelse) =>
      (match ExecBranches(p, fuel, st, env, chk, branches)
       case Ok(Some(flow), st1) => Ok(flow, st1)
       case Ok(None, st1) => ExecInner(p, fuel, st1, env, chk, orelse)
       case Panic => Panic
       case Err(why) => Err(why)
       case NoFuel => NoFuel)
    case SWhile(_, _) => ExecWhile(p, fuel, st, env, chk, s)
    case SForNum(v, t, start, stop, stride, body) =>
      (match EvalBound(p, fuel, st, env, chk, start, t)
       case Ok(a, st1) =>
         (match EvalBound(p, fuel, st1, env, chk, stop, t)
          case Ok(b, st2) =>
            (match EvalStride(p, fuel, st2, env, chk, stride, t)
             case Ok(c, st3) => ExecFor(p, fuel, st3, env, chk, v, t, a, b, c, body)
             case Panic => Panic
             case Err(why) => Err(why)
             case NoFuel => NoFuel)
          case Panic => Panic
          case Err(why) => Err(why)
          case NoFuel => NoFuel)
       case Panic => Panic
       case Err(why) => Err(why)
       case NoFuel => NoFuel)
    case SLoop(body) => ExecLoop(p, fuel, st, env, chk, body)
    case SBreak => Ok(Break, st)
    case SContinue => Ok(Continue, st)
    case SPass => Ok(Normal, st)
    case SReturn(e) =>
      (match Eval(p, fuel, st, env, chk, e)
       case Ok(v, st1) => Ok(Return(v), st1)
       case Panic => Panic
       case Err(why) => Err(why)
       case NoFuel => NoFuel)
    case SReturnNone => Ok(Return(VUnit), st)
    case SChecked(body) => ExecInner(p, fuel, st, env, true, body)
  }

  // `set x = v`: the cell must exist, be mutable, and keep its integer type.
  function Assign(st: Store, env: int, x: string, v: Value): Out<Flow> {
    match Lookup(st.envs, env, x)
    case None => Err(Mistyped)
    case Some(c) =>
      if c < |st.cells| && st.cells[c].mutable && (st.cells[c].value.VInt? ==> HasTy(v, TInt(st.cells[c].value.ty)))
      then Ok(Normal, st.(cells := st.cells[c := Cell(v, true)]))
      else Err(Mistyped)
  }

  // A bound of a counted loop, of the index type.
  function EvalBound(p: Program, fuel: nat, st: Store, env: int, chk: bool, e: Expr, t: IntTy): Out<int>
    decreases fuel, e, 2
  {
    match Eval(p, fuel, st, env, chk, e)
    case Ok(v, st1) => if HasTy(v, TInt(t)) then Ok(v.n, st1) else Err(Mistyped)
    case Panic => Panic
    case Err(why) => Err(why)
    case NoFuel => NoFuel
  }

  function EvalStride(p: Program, fuel: nat, st: Store, env: int, chk: bool, stride: Option<Expr>, t: IntTy): Out<int>
    decreases fuel, stride, 3
  {
    match stride
    case None => Ok(1, st)
    case Some(e) => EvalBound(p, fuel, st, env, chk, e, t)
  }

  // The first branch whose condition holds, or None.
  function ExecBranches(p: Program, fuel: nat, st: Store, env: int, chk: bool, bs: List<Branch>): Out<Option<Flow>>
    decreases fuel, bs, 3
  {
    match bs
    case Nil => Ok(None, st)
    case Cons(b, rest) =>
      match Eval(p, fuel, st, env, chk, b.cond)
      case Ok(v, st1) =>
        if !v.VBool? then Err(Mistyped)
        else if !v.b then ExecBranches(p, fuel, st1, env, chk, rest)
        else
          (match ExecInner(p, fuel, st1, env, chk, b.bbody)
           case Ok(flow, st2) => Ok(Some(flow), st2)
           case Panic => Panic
           case Err(why) => Err(why)
           case NoFuel => NoFuel)
      case Panic => Panic
      case Err(why) => Err(why)
      case NoFuel => NoFuel
  }

  function ExecWhile(p: Program, fuel: nat, st: Store, env: int, chk: bool, s: Stmt): Out<Flow>
    requires s.SWhile?
    decreases fuel, s, 3
  {
    match Eval(p, fuel, st, env, chk, s.cond)
    case Ok(v, st1) =>
      if !v.VBool? then Err(Mistyped)
      else if !v.b then Ok(Normal, st1)
      else if fuel == 0 then NoFuel
      else
        (match ExecInner(p, fuel - 1, st1, env, chk, s.body)
         case Ok(Break, st2) => Ok(Normal, st2)
         case Ok(Return(r), st2) => Ok(Return(r), st2)
         case Ok(_, st2) => ExecWhile(p, fuel - 1, st2, env, chk, s)
         case r => r)
    case Panic => Panic
    case Err(why) => Err(why)
    case NoFuel => NoFuel
  }

  function ExecLoop(p: Program, fuel: nat, st: Store, env: int, chk: bool, body: List<Stmt>): Out<Flow>
    decreases fuel, body, 4
  {
    if fuel == 0 then NoFuel
    else
      match ExecInner(p, fuel - 1, st, env, chk, body)
      case Ok(Break, st2) => Ok(Normal, st2)
      case Ok(Return(r), st2) => Ok(Return(r), st2)
      case Ok(_, st2) => ExecLoop(p, fuel - 1, st2, env, chk, body)
      case r => r
  }

  function NextIndex(mode: Mode, i: int, step: int, t: IntTy): int {
    if mode.Wrapping? then Wrap(i + step, t) else i + step
  }

  // exec_fornum: an independent, unbounded counter; each iteration has an
  // environment that binds the index afresh.
  function ExecFor(p: Program, fuel: nat, st: Store, env: int, chk: bool, x: string, t: IntTy,
                   i: int, limit: int, step: int, body: List<Stmt>): Out<Flow>
    decreases fuel, body, 4
  {
    if i >= limit then Ok(Normal, st)
    else if fuel == 0 then NoFuel
    else
      match ExecBlock(p, fuel - 1, Define(NewEnv(st, env), |st.envs|, x, VInt(i, t), true), |st.envs|, chk, body)
      case Ok(Break, st2) => Ok(Normal, st2)
      case Ok(Return(r), st2) => Ok(Return(r), st2)
      case Ok(_, st2) =>
        if p.mode.Guarded? && !t.Holds(i + step) then Err(IndexLeft)
        else ExecFor(p, fuel - 1, st2, env, chk, x, t, NextIndex(p.mode, i, step, t), limit, step, body)
      case r => r
  }
}
