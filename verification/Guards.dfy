// A run that never takes a counted loop's index out of its type is the same
// however the interpreter counts.
module Guards {
  import opened Numeric
  import opened Syntax
  import opened Interp

  function On(fs: map<string, FuncDecl>): Program { Program(fs, Guarded) }

  lemma {:induction false} EvalGuard(fs: map<string, FuncDecl>, m: Mode, fuel: nat, st: Store, env: int, chk: bool,
                                     e: Expr)
    ensures var o := Eval(On(fs), fuel, st, env, chk, e); o.Err? || Eval(Program(fs, m), fuel, st, env, chk, e) == o
    decreases fuel, e, 1
  {
    match e
    case EOp(op, args, t) => OpGuard(fs, m, fuel, st, env, chk, op, args, t);
    case ECast(e1, t) => EvalGuard(fs, m, fuel, st, env, chk, e1);
    case ECall(callee, args, rty) => CallGuard(fs, m, fuel, st, env, chk, e);
    case _ =>
  }

  lemma {:induction false} CallGuard(fs: map<string, FuncDecl>, m: Mode, fuel: nat, st: Store, env: int, chk: bool,
                                     e: Expr)
    requires e.ECall?
    ensures var o := Eval(On(fs), fuel, st, env, chk, e); o.Err? || Eval(Program(fs, m), fuel, st, env, chk, e) == o
    decreases fuel, e, 0
  {
    hide Apply, EvalAll;
    EvalGuard(fs, m, fuel, st, env, chk, e.callee);
    var of := Eval(On(fs), fuel, st, env, chk, e.callee);
    if of.Ok? {
      AllGuard(fs, m, fuel, of.st, env, chk, e.cargs);
      var oa := EvalAll(On(fs), fuel, of.st, env, chk, e.cargs);
      if oa.Ok? && of.v.VClo? && fuel > 0 { ApplyGuard(fs, m, fuel - 1, oa.st, of.v, oa.v); }
    }
  }

  lemma {:induction false} AllGuard(fs: map<string, FuncDecl>, m: Mode, fuel: nat, st: Store, env: int, chk: bool,
                                    es: List<Expr>)
    ensures var o := EvalAll(On(fs), fuel, st, env, chk, es); o.Err? || EvalAll(Program(fs, m), fuel, st, env, chk, es) == o
    decreases fuel, es, 0
  {
    hide Eval;
    match es
    case Nil =>
    case Cons(e, rest) =>
      EvalGuard(fs, m, fuel, st, env, chk, e);
      var o := Eval(On(fs), fuel, st, env, chk, e);
      if o.Ok? { AllGuard(fs, m, fuel, o.st, env, chk, rest); }
  }

  lemma {:induction false} IntsGuard(fs: map<string, FuncDecl>, m: Mode, fuel: nat, st: Store, env: int, chk: bool,
                                     es: List<Expr>, t: IntTy)
    ensures var o := EvalInts(On(fs), fuel, st, env, chk, es, t); o.Err? || EvalInts(Program(fs, m), fuel, st, env, chk, es, t) == o
    decreases fuel, es, 0
  {
    hide Eval;
    match es
    case Nil =>
    case Cons(e, rest) =>
      EvalGuard(fs, m, fuel, st, env, chk, e);
      var o := Eval(On(fs), fuel, st, env, chk, e);
      if o.Ok? { IntsGuard(fs, m, fuel, o.st, env, chk, rest, t); }
  }

  lemma {:induction false} AndOrGuard(fs: map<string, FuncDecl>, m: Mode, fuel: nat, st: Store, env: int, chk: bool,
                                      es: List<Expr>, stop: bool)
    ensures var o := EvalAndOr(On(fs), fuel, st, env, chk, es, stop); o.Err? || EvalAndOr(Program(fs, m), fuel, st, env, chk, es, stop) == o
    decreases fuel, es, 0
  {
    hide Eval;
    match es
    case Nil =>
    case Cons(e, rest) =>
      EvalGuard(fs, m, fuel, st, env, chk, e);
      var o := Eval(On(fs), fuel, st, env, chk, e);
      if o.Ok? { AndOrGuard(fs, m, fuel, o.st, env, chk, rest, stop); }
  }

  lemma {:induction false} OpGuard(fs: map<string, FuncDecl>, m: Mode, fuel: nat, st: Store, env: int, chk: bool,
                                   op: Op, args: List<Expr>, t: IntTy)
    ensures var o := EvalOp(On(fs), fuel, st, env, chk, op, args, t); o.Err? || EvalOp(Program(fs, m), fuel, st, env, chk, op, args, t) == o
    decreases fuel, args, 1
  {
    hide EvalAll, EvalInts, EvalAndOr;
    AllGuard(fs, m, fuel, st, env, chk, args);
    IntsGuard(fs, m, fuel, st, env, chk, args, t);
    AndOrGuard(fs, m, fuel, st, env, chk, args, op.Or?);
  }

  lemma {:induction false} ApplyGuard(fs: map<string, FuncDecl>, m: Mode, fuel: nat, st: Store, f: Value,
                                      vals: seq<Value>)
    requires f.VClo?
    ensures var o := Apply(On(fs), fuel, st, f, vals); o.Err? || Apply(Program(fs, m), fuel, st, f, vals) == o
    decreases fuel, f.body, 3
  {
    hide ExecBlock, BindParams;
    var b := BindParams(NewEnv(st, f.env), |st.envs|, f.params, vals);
    if b.Some? { BlockGuard(fs, m, fuel, b.value, |st.envs|, false, f.body); }
  }

  lemma {:induction false} BlockGuard(fs: map<string, FuncDecl>, m: Mode, fuel: nat, st: Store, env: int, chk: bool,
                                      ss: List<Stmt>)
    ensures var o := ExecBlock(On(fs), fuel, st, env, chk, ss); o.Err? || ExecBlock(Program(fs, m), fuel, st, env, chk, ss) == o
    decreases fuel, ss, 2
  {
    hide Exec;
    match ss
    case Nil =>
    case Cons(s, rest) =>
      ExecGuard(fs, m, fuel, st, env, chk, s);
      var o := Exec(On(fs), fuel, st, env, chk, s);
      if o.Ok? { BlockGuard(fs, m, fuel, o.st, env, chk, rest); }
  }

  lemma {:induction false} ExecGuard(fs: map<string, FuncDecl>, m: Mode, fuel: nat, st: Store, env: int, chk: bool,
                                     s: Stmt)
    ensures var o := Exec(On(fs), fuel, st, env, chk, s); o.Err? || Exec(Program(fs, m), fuel, st, env, chk, s) == o
    decreases fuel, s, 4
  {
    hide Eval, ExecBlock, ExecBranches, ExecWhile, ExecLoop, ExecFor, Assign;
    match s
    case SLet(_, _, init, _) => EvalGuard(fs, m, fuel, st, env, chk, init);
    case SSet(_, rhs) => EvalGuard(fs, m, fuel, st, env, chk, rhs);
    case SDo(e) => EvalGuard(fs, m, fuel, st, env, chk, e);
    case SIf(branches, orelse) =>
      BranchesGuard(fs, m, fuel, st, env, chk, branches);
      var o := ExecBranches(On(fs), fuel, st, env, chk, branches);
      if o.Ok? { BlockGuard(fs, m, fuel, NewEnv(o.st, env), |o.st.envs|, chk, orelse); }
    case SWhile(_, _) => WhileGuard(fs, m, fuel, st, env, chk, s);
    case SForNum(_, _, _, _, _, _) => ForNumGuard(fs, m, fuel, st, env, chk, s);
    case SLoop(body) => LoopGuard(fs, m, fuel, st, env, chk, body);
    case SReturn(e) => EvalGuard(fs, m, fuel, st, env, chk, e);
    case SChecked(body) => BlockGuard(fs, m, fuel, NewEnv(st, env), |st.envs|, true, body);
    case _ =>
  }

  lemma {:induction false} ForNumGuard(fs: map<string, FuncDecl>, m: Mode, fuel: nat, st: Store, env: int, chk: bool,
                                       s: Stmt)
    requires s.SForNum?
    ensures var o := Exec(On(fs), fuel, st, env, chk, s); o.Err? || Exec(Program(fs, m), fuel, st, env, chk, s) == o
    decreases fuel, s, 3
  {
    hide EvalBound, EvalStride, ExecFor;
    BoundGuard(fs, m, fuel, st, env, chk, s.start, s.ity);
    var oa := EvalBound(On(fs), fuel, st, env, chk, s.start, s.ity);
    if oa.Ok? {
      BoundGuard(fs, m, fuel, oa.st, env, chk, s.stop, s.ity);
      var ob := EvalBound(On(fs), fuel, oa.st, env, chk, s.stop, s.ity);
      if ob.Ok? {
        StrideGuard(fs, m, fuel, ob.st, env, chk, s.stride, s.ity);
        var oc := EvalStride(On(fs), fuel, ob.st, env, chk, s.stride, s.ity);
        if oc.Ok? { ForGuard(fs, m, fuel, oc.st, env, chk, s.v, s.ity, oa.v, ob.v, oc.v, s.body); }
      }
    }
  }

  lemma {:induction false} BoundGuard(fs: map<string, FuncDecl>, m: Mode, fuel: nat, st: Store, env: int, chk: bool,
                                      e: Expr, t: IntTy)
    ensures var o := EvalBound(On(fs), fuel, st, env, chk, e, t); o.Err? || EvalBound(Program(fs, m), fuel, st, env, chk, e, t) == o
    decreases fuel, e, 2
  {
    hide Eval;
    EvalGuard(fs, m, fuel, st, env, chk, e);
  }

  lemma {:induction false} StrideGuard(fs: map<string, FuncDecl>, m: Mode, fuel: nat, st: Store, env: int, chk: bool,
                                       stride: Option<Expr>, t: IntTy)
    ensures var o := EvalStride(On(fs), fuel, st, env, chk, stride, t); o.Err? || EvalStride(Program(fs, m), fuel, st, env, chk, stride, t) == o
    decreases fuel, stride, 3
  {
    hide EvalBound;
    if stride.Some? { BoundGuard(fs, m, fuel, st, env, chk, stride.value, t); }
  }

  lemma {:induction false} BranchesGuard(fs: map<string, FuncDecl>, m: Mode, fuel: nat, st: Store, env: int, chk: bool,
                                         bs: List<Branch>)
    ensures var o := ExecBranches(On(fs), fuel, st, env, chk, bs); o.Err? || ExecBranches(Program(fs, m), fuel, st, env, chk, bs) == o
    decreases fuel, bs, 3
  {
    hide Eval, ExecBlock;
    match bs
    case Nil =>
    case Cons(b, rest) =>
      EvalGuard(fs, m, fuel, st, env, chk, b.cond);
      var o := Eval(On(fs), fuel, st, env, chk, b.cond);
      if o.Ok? {
        BranchesGuard(fs, m, fuel, o.st, env, chk, rest);
        BlockGuard(fs, m, fuel, NewEnv(o.st, env), |o.st.envs|, chk, b.bbody);
      }
  }

  lemma {:induction false} WhileGuard(fs: map<string, FuncDecl>, m: Mode, fuel: nat, st: Store, env: int, chk: bool,
                                      s: Stmt)
    requires s.SWhile?
    ensures var o := ExecWhile(On(fs), fuel, st, env, chk, s); o.Err? || ExecWhile(Program(fs, m), fuel, st, env, chk, s) == o
    decreases fuel, s, 3
  {
    hide Eval, ExecBlock;
    EvalGuard(fs, m, fuel, st, env, chk, s.cond);
    var o := Eval(On(fs), fuel, st, env, chk, s.cond);
    if o.Ok? && fuel > 0 {
      BlockGuard(fs, m, fuel - 1, NewEnv(o.st, env), |o.st.envs|, chk, s.body);
      var ob := ExecInner(On(fs), fuel - 1, o.st, env, chk, s.body);
      if ob.Ok? { WhileGuard(fs, m, fuel - 1, ob.st, env, chk, s); }
    }
  }

  lemma {:induction false} LoopGuard(fs: map<string, FuncDecl>, m: Mode, fuel: nat, st: Store, env: int, chk: bool,
                                     body: List<Stmt>)
    ensures var o := ExecLoop(On(fs), fuel, st, env, chk, body); o.Err? || ExecLoop(Program(fs, m), fuel, st, env, chk, body) == o
    decreases fuel, body, 4
  {
    hide ExecBlock;
    if fuel > 0 {
      BlockGuard(fs, m, fuel - 1, NewEnv(st, env), |st.envs|, chk, body);
      var ob := ExecInner(On(fs), fuel - 1, st, env, chk, body);
      if ob.Ok? { LoopGuard(fs, m, fuel - 1, ob.st, env, chk, body); }
    }
  }

  // Here is the guard.
  lemma {:induction false} ForGuard(fs: map<string, FuncDecl>, m: Mode, fuel: nat, st: Store, env: int, chk: bool,
                                    x: string, t: IntTy,
                                    i: int, limit: int, step: int, body: List<Stmt>)
    ensures var o := ExecFor(On(fs), fuel, st, env, chk, x, t, i, limit, step, body);
            o.Err? || ExecFor(Program(fs, m), fuel, st, env, chk, x, t, i, limit, step, body) == o
    decreases fuel, body, 4
  {
    hide ExecBlock, Define, Wrap;
    WrapFits(i + step, t);
    if i < limit && fuel > 0 {
      var st1 := Define(NewEnv(st, env), |st.envs|, x, VInt(i, t), true);
      BlockGuard(fs, m, fuel - 1, st1, |st.envs|, chk, body);
      var ob := ExecBlock(On(fs), fuel - 1, st1, |st.envs|, chk, body);
      if ob.Ok? { ForGuard(fs, m, fuel - 1, ob.st, env, chk, x, t, i + step, limit, step, body); }
    }
  }
}
