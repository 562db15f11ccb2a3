// What it means for a statement's code to simulate it, and how simulations of
// parts are put together.
module Flow {
  import opened Numeric
  import opened Syntax
  import opened Ir
  import opened Names
  import opened Lowering
  import opened Machine
  import opened Growth
  import opened Relation
  import opened Steps
  import opened SimBase
  import opened Entry
  import opened Capture
  import I = Interp

  ghost predicate FlowDone(k: Act, ls: LS, vars: map<nat, string>, w: World, rg: Regs, w2: World, rg2: Regs, env: int) {
    && Inv(k.code, w2) && Moves(w, w2, vars.Keys, env)
    && RegsKept(rg, rg2, ls.b.tc, ls.uq, vars.Values)
    && Live(k.code, w2, vars, rg2, ls.uq)
  }

  // Outcomes that leave the construct other than at its end. `ls` gives the
  // registers minted before it, c0 the configuration it starts in.
  ghost predicate AbruptSim(k: Act, cx: Cx, ls: LS, c0: Conf, out: I.Out<I.Flow>, fuel: int, env: int,
                            vars: map<nat, string>,
                            w: World, rg: Regs, w2: World, rg2: Regs, m: MVal, n: nat)
  {
    var c := StepN(k.code.ir, c0, n);
    match out
    case Ok(Normal, _) => true
    case Ok(Break, st) => w2.st == st && FlowDone(k, ls, vars, w, rg, w2, rg2, env) && c == AtLabel(k, Top(cx.brk), rg2, w2.heap)
    case Ok(Continue, st) =>
      w2.st == st && FlowDone(k, ls, vars, w, rg, w2, rg2, env) && c == AtLabel(k, Top(cx.cont), rg2, w2.heap) && n >= 1
    case Ok(Return(v), st) =>
      w2.st == st && Inv(k.code, w2) && Moves(w, w2, vars.Keys, env) && VRel(k.code, w2, v, m) && c == Leave(m, k.dst, k.rest, w2.heap)
    case Panic => c == Panicked
    case NoFuel => n >= fuel && c.Run?
    case Err(_) => true
  }

  // A construct that adds no names to the scope: at its end, everything is as
  // before up to the frame's own variables.
  ghost predicate PlainSim(k: Act, cx: Cx, ls: LS, after: LS, out: I.Out<I.Flow>, fuel: int, env: int,
                           vars: map<nat, string>,
                           w: World, rg: Regs, w2: World, rg2: Regs, m: MVal, n: nat)
  {
    && AbruptSim(k, cx, ls, At(k, ls.b, rg, w.heap), out, fuel, env, vars, w, rg, w2, rg2, m, n)
    && (out.Ok? && out.v.Normal? ==>
          && w2.st == out.st && FlowDone(k, ls, vars, w, rg, w2, rg2, env) && !CurTerminated(after.b)
          && StepN(k.code.ir, At(k, ls.b, rg, w.heap), n) == At(k, after.b, rg2, w2.heap))
  }

  // New variables have new cells and freshly minted names.
  ghost predicate Extended(vars: map<nat, string>, vars2: map<nat, string>, cells: nat, uq: nat) {
    && (forall c :: c in vars ==> c in vars2 && vars2[c] == vars[c])
    && (forall c :: c in vars2 && c !in vars ==> c >= cells && Stamp(vars2[c]) > uq)
  }

  // One statement of a block; `rest` are the names the following ones declare.
  ghost predicate StmtSim(k: Act, cx: Cx, ls: LS, r: (LS, Scope), out: I.Out<I.Flow>, fuel: int, env: int,
                          vars: map<nat, string>,
                          decl: set<string>, rest: set<string>, w: World, rg: Regs, w2: World, rg2: Regs, vars2: map<nat, string>, m: MVal, n: nat)
  {
    && AbruptSim(k, cx, ls, At(k, ls.b, rg, w.heap), out, fuel, env, vars, w, rg, w2, rg2, m, n)
    && (out.Ok? && out.v.Normal? ==>
          && w2.st == out.st && FlowDone(k, ls, vars, w, rg, w2, rg2, env)
          && Ready(k, cx, r.0, r.1, w2, rg2, env, vars2) && Extended(vars, vars2, |w.st.cells|, ls.uq)
          && 0 <= env < |w2.later| && w2.later[env] == rest && decl <= w2.st.envs[env].vars.Keys
          && StepN(k.code.ir, At(k, ls.b, rg, w.heap), n) == At(k, r.0.b, rg2, w2.heap))
  }

  function DeclOf(s: Stmt): set<string> { if s.SLet? then {s.name} else {} }

  lemma FlowRefl(k: Act, ls: LS, cx: Cx, vs: Scope, vars: map<nat, string>, w: World, rg: Regs, env: int)
    requires Ready(k, cx, ls, vs, w, rg, env, vars)
    ensures FlowDone(k, ls, vars, w, rg, w, rg, env) && FlowDone(k, ls, vars, w, rg, w, rg, -1)
  {
    hide LamAt, FuncAt;
    MovesRefl(w, vars.Keys, env);
    MovesRefl(w, vars.Keys, -1);
  }

  lemma ReadyEnv(k: Act, cx: Cx, ls: LS, vs: Scope, w: World, rg: Regs, env: int, vars: map<nat, string>)
    requires Ready(k, cx, ls, vs, w, rg, env, vars)
    ensures 0 <= env < |w.st.envs| == |w.later| && -1 <= w.st.envs[env].parent < env
  {
    hide LamAt, FuncAt, Live;
  }

  // What the first statement may capture is settled, since it is not declared later.
  lemma SettleFirst(w: World, env: int, vs: Scope, s: Stmt, rest: List<Stmt>)
    requires 0 <= env < |w.st.envs| && |w.later| == |w.st.envs| && w.later[env] == Decls(Cons(s, rest))
    requires -1 <= w.st.envs[env].parent < env
    requires SettledAbove(w, env, CapturedSs(Cons(s, rest)), vs) && CapturedS(s) !! Decls(Cons(s, rest))
    ensures SettledAll(w, env, CapturedS(s), vs)
  {
    hide CapturedS;
    forall x | x in CapturedS(s) && x in vs ensures Settled(w, env, x).Some? {
      assert x in CapturedSs(Cons(s, rest));
    }
  }

  lemma SettleRest(k: Act, cx: Cx, ls: LS, vs: Scope, w: World, w2: World, env: int, vars: map<nat, string>, s: Stmt,
                   rest: List<Stmt>,
                   rg: Regs, rg2: Regs)
    requires 0 <= env < |w.st.envs| && FlowDone(k, ls, vars, w, rg, w2, rg2, env)
    requires SettledAbove(w, env, CapturedSs(Cons(s, rest)), vs)
    requires |w.later| == |w.st.envs| && w.later[env] == Decls(Cons(s, rest))
    requires DeclOf(s) <= w2.st.envs[env].vars.Keys
    ensures SettledAbove(w2, env, CapturedSs(rest), LowerStmt(cx, ls, vs, s).1)
  {
    hide CapturedS, LamAt, FuncAt, LowerExpr, LowerStmt, Live, RegsKept, Inv;
    var vs1 := LowerStmt(cx, ls, vs, s).1;
    ScopeKeys(cx, ls, vs, s);
    assert EnvMoves(w.st.envs[env], w2.st.envs[env], w.later[env], w2.later[env]);
    forall x | x in CapturedSs(rest) && x in vs1
      ensures x in w2.st.envs[env].vars || Settled(w2, w2.st.envs[env].parent, x).Some?
    {
      if !(s.SLet? && x == s.name) {
        if x !in w.st.envs[env].vars {
          SettledKept(w, w2, w.st.envs[env].parent, x);
        } else {
          assert x in w2.st.envs[env].vars;
        }
      }
    }
  }

  lemma ScopeKeys(cx: Cx, ls: LS, vs: Scope, s: Stmt)
    ensures LowerStmt(cx, ls, vs, s).1.Keys == vs.Keys + DeclOf(s)
  {
    hide LowerExpr, LowerStmts, LowerBranches;
  }

  // ----- putting flows together -----

  ghost predicate Counts(a: LS, b: LS) { a.b.tc <= b.b.tc && a.uq <= b.uq }

  // The construct that follows may run in an environment of its own.
  ghost predicate Within(env: int, env1: int, w: World) { env1 == env || (env == -1 && env1 >= |w.st.envs|) }

  lemma MovesJoin(w: World, w1: World, w2: World, own: set<nat>, own1: set<nat>, env: int, env1: int)
    requires Moves(w, w1, own, env) && Moves(w1, w2, own1, env1) && Within(env, env1, w)
    requires forall n :: n in own1 ==> n in own || n >= |w.st.cells|
    ensures Moves(w, w2, own, env)
  {
    hide Evolves;
    if env1 == env { MovesTrans(w, w1, w2, own, env, own1); } else { MovesUnder(w, w1, w2, own, own1, env1); }
  }

  lemma FlowTrans(k: Act, ls: LS, ls1: LS, env: int, env1: int, vars: map<nat, string>, vars1: map<nat, string>,
                  w: World, rg: Regs, w1: World, rg1: Regs, w2: World, rg2: Regs)
    requires Counts(ls, ls1) && Extended(vars, vars1, |w.st.cells|, ls.uq)
    requires FlowDone(k, ls, vars, w, rg, w1, rg1, env) && FlowDone(k, ls1, vars1, w1, rg1, w2, rg2, env1)
    requires Within(env, env1, w)
    ensures FlowDone(k, ls, vars, w, rg, w2, rg2, env)
  {
    hide LamAt, FuncAt, Inv, Evolves, Moves;
    MovesJoin(w, w1, w2, vars.Keys, vars1.Keys, env, env1);
    ValuesKept(vars, vars1, |w.st.cells|, ls.uq);
    KeptTrans(rg, rg1, rg2, ls.b.tc, ls.uq, vars.Values, ls1.b.tc, ls1.uq, vars1.Values);
    forall c | c in vars ensures LiveCell(k.code, w2, c, vars[c], rg2, ls.uq) {
      assert LiveCell(k.code, w2, c, vars1[c], rg2, ls1.uq);
      assert LiveCell(k.code, w1, c, vars[c], rg1, ls.uq);
    }
  }

  lemma ValuesKept(vars: map<nat, string>, vars1: map<nat, string>, cells: nat, uq: nat)
    requires Extended(vars, vars1, cells, uq)
    ensures forall n :: n in vars1.Values ==> n in vars.Values || Stamp(n) > uq
  {
    forall n | n in vars1.Values ensures n in vars.Values || Stamp(n) > uq {
      var c :| c in vars1 && vars1[c] == n;
    }
  }

  // A prefix in front of a construct that is left abruptly.
  lemma AbruptJoin(k: Act, cx: Cx, cx1: Cx, ls: LS, ls1: LS, c0: Conf, c1: Conf, out: I.Out<I.Flow>, fuel: int,
                   fuel1: int, env: int, env1: int,
                   vars: map<nat, string>, vars1: map<nat, string>, w: World, rg: Regs, w1: World, rg1: Regs, n1: nat,
                   w2: World, rg2: Regs, m: MVal, n: nat)
    requires Counts(ls, ls1) && Extended(vars, vars1, |w.st.cells|, ls.uq) && FlowDone(k, ls, vars, w, rg, w1, rg1, env)
    requires StepN(k.code.ir, c0, n1) == c1 && fuel <= fuel1 + n1
    requires AbruptSim(k, cx1, ls1, c1, out, fuel1, env1, vars1, w1, rg1, w2, rg2, m, n)
    requires cx1.brk == cx.brk && cx1.cont == cx.cont && Within(env, env1, w)
    ensures AbruptSim(k, cx, ls, c0, out, fuel, env, vars, w, rg, w2, rg2, m, n1 + n)
  {
    hide StepN, Step, LamAt, FuncAt, Inv, Moves, Live, RegsKept;
    Chain(k.code.ir, c0, n1, c1, n);
    if out.Ok? && !out.v.Normal? {
      MovesJoin(w, w1, w2, vars.Keys, vars1.Keys, env, env1);
      if !out.v.Return? { FlowTrans(k, ls, ls1, env, env1, vars, vars1, w, rg, w1, rg1, w2, rg2); }
    }
  }

  lemma PlainJoin(k: Act, cx: Cx, cx1: Cx, ls: LS, ls1: LS, after: LS, out: I.Out<I.Flow>, fuel: int, fuel1: int,
                  env: int, env1: int,
                  vars: map<nat, string>, vars1: map<nat, string>, w: World, rg: Regs, w1: World, rg1: Regs, n1: nat,
                  w2: World, rg2: Regs, m: MVal, n: nat)
    requires Counts(ls, ls1) && Extended(vars, vars1, |w.st.cells|, ls.uq) && FlowDone(k, ls, vars, w, rg, w1, rg1, env)
    requires StepN(k.code.ir, At(k, ls.b, rg, w.heap), n1) == At(k, ls1.b, rg1, w1.heap) && fuel <= fuel1 + n1
    requires PlainSim(k, cx1, ls1, after, out, fuel1, env1, vars1, w1, rg1, w2, rg2, m, n)
    requires cx1.brk == cx.brk && cx1.cont == cx.cont && Within(env, env1, w)
    ensures PlainSim(k, cx, ls, after, out, fuel, env, vars, w, rg, w2, rg2, m, n1 + n)
  {
    hide StepN, Step, LamAt, FuncAt, Inv, Evolves, Live, RegsKept, Moves, FlowDone, Extended;
    var c0, c1 := At(k, ls.b, rg, w.heap), At(k, ls1.b, rg1, w1.heap);
    AbruptJoin(k, cx, cx1, ls, ls1, c0, c1, out, fuel, fuel1, env, env1, vars, vars1, w, rg, w1, rg1, n1, w2, rg2, m, n);
    Chain(k.code.ir, c0, n1, c1, n);
    if out.Ok? && out.v.Normal? { FlowTrans(k, ls, ls1, env, env1, vars, vars1, w, rg, w1, rg1, w2, rg2); }
  }

  // ----- jumps -----

  // Like PlainSim, but a normal end is a jump to endl.
  ghost predicate JoinSim(k: Act, cx: Cx, ls: LS, c0: Conf, endl: string, out: I.Out<I.Flow>, fuel: int,
                          vars: map<nat, string>,
                          w: World, rg: Regs, w2: World, rg2: Regs, m: MVal, n: nat)
  {
    && AbruptSim(k, cx, ls, c0, out, fuel, -1, vars, w, rg, w2, rg2, m, n)
    && (out.Ok? && out.v.Normal? ==>
          && w2.st == out.st && FlowDone(k, ls, vars, w, rg, w2, rg2, -1)
          && StepN(k.code.ir, c0, n) == AtLabel(k, endl, rg2, w2.heap))
  }

  // A loop body: break leaves for endl, everything else goes on at `again`.
  ghost predicate BodySim(k: Act, ls: LS, c0: Conf, endl: string, again: string, out: I.Out<I.Flow>, fuel: int,
                          env: int,
                          vars: map<nat, string>, w: World, rg: Regs, w2: World, rg2: Regs, m: MVal, n: nat)
  {
    var c := StepN(k.code.ir, c0, n);
    match out
    case Ok(Return(v), st) =>
      w2.st == st && Inv(k.code, w2) && Moves(w, w2, vars.Keys, env) && VRel(k.code, w2, v, m) && c == Leave(m, k.dst, k.rest, w2.heap)
    case Ok(f, st) =>
      && w2.st == st && FlowDone(k, ls, vars, w, rg, w2, rg2, env)
      && c == AtLabel(k, if f.Break? then endl else again, rg2, w2.heap) && (n >= 1 || f.Break?)
    case Panic => c == Panicked
    case NoFuel => n >= fuel && c.Run?
    case Err(_) => true
  }

  // Falling off the end of a construct takes a jump.
  lemma FallSim(k: Act, cx: Cx, ls: LS, after: LS, endl: string, out: I.Out<I.Flow>, fuel: int, vars: map<nat, string>,
                w: World, rg: Regs, w2: World, rg2: Regs, m: MVal, n: nat)
    returns (n2: nat)
    requires PlainSim(k, cx, ls, after, out, fuel, -1, vars, w, rg, w2, rg2, m, n) && Placed(k, FallTo(after, endl))
    ensures JoinSim(k, cx, ls, At(k, ls.b, rg, w.heap), endl, out, fuel, vars, w, rg, w2, rg2, m, n2)
    ensures out.Ok? && out.v.Normal? ==> n2 >= 1
    ensures n2 >= n
  {
    hide StepN, Step, Exec, LamAt, FuncAt, Inv, Moves, Live, RegsKept, FlowDone, Linked, CodeIn;
    n2 := n;
    if out.Ok? && out.v.Normal? {
      RunJump(k, after, endl, rg2, w2.heap);
      OneMore(k.code.ir, At(k, ls.b, rg, w.heap), n, At(k, after.b, rg2, w2.heap));
      n2 := n + 1;
    }
  }

  lemma RunJump(k: Act, ls: LS, l: string, rg: Regs, heap: seq<HObj>)
    requires !CurTerminated(ls.b) && Placed(k, Put(ls, IBr(l)))
    ensures Step(k.code.ir, At(k, ls.b, rg, heap)) == AtLabel(k, l, rg, heap)
  {
    hide Step, LamAt, FuncAt, Linked, CodeIn;
    FetchPlaced(k, ls, IBr(l), rg, heap);
    JumpIsLabel(k, HereFrame(k, ls.b, rg), l, rg, heap);
  }

  // The block at endl opens where every normal end arrives.
  lemma JoinToPlain(k: Act, cx: Cx, ls: LS, last: LS, endl: string, out: I.Out<I.Flow>, fuel: int,
                    vars: map<nat, string>,
                    w: World, rg: Regs, w2: World, rg2: Regs, m: MVal, n: nat)
    requires JoinSim(k, cx, ls, At(k, ls.b, rg, w.heap), endl, out, fuel, vars, w, rg, w2, rg2, m, n)
    requires Placed(k, Block0(last, endl)) && ActOk(k)
    ensures PlainSim(k, cx, ls, Block0(last, endl), out, fuel, -1, vars, w, rg, w2, rg2, m, n)
  {
    hide StepN, Step, Exec, LamAt, FuncAt, Inv, Moves, Live, RegsKept, FlowDone, Linked, CodeIn, CodeOk;
    LabelOpen(k, last, endl, rg2, w2.heap);
  }

  // LabelHere, with the placement as Placed.
  lemma LabelOpen(k: Act, ls: LS, l: string, rg: Regs, heap: seq<HObj>)
    requires Placed(k, Block0(ls, l)) && ActOk(k)
    ensures AtLabel(k, l, rg, heap) == At(k, Block0(ls, l).b, rg, heap)
    ensures !CurTerminated(Block0(ls, l).b)
  {
    hide LamAt, FuncAt, Linked, CodeIn, CodeOk;
    LabelHere(k, ls, l, rg, heap);
  }

  lemma JoinJoin(k: Act, cx: Cx, cx1: Cx, ls: LS, ls1: LS, c0: Conf, c1: Conf, endl: string, out: I.Out<I.Flow>,
                 fuel: int, fuel1: int,
                 vars: map<nat, string>, w: World, rg: Regs, w1: World, rg1: Regs, n1: nat, w2: World, rg2: Regs, m: MVal, n: nat)
    requires Counts(ls, ls1) && FlowDone(k, ls, vars, w, rg, w1, rg1, -1)
    requires StepN(k.code.ir, c0, n1) == c1 && fuel <= fuel1 + n1
    requires JoinSim(k, cx1, ls1, c1, endl, out, fuel1, vars, w1, rg1, w2, rg2, m, n)
    requires cx1.brk == cx.brk && cx1.cont == cx.cont
    ensures JoinSim(k, cx, ls, c0, endl, out, fuel, vars, w, rg, w2, rg2, m, n1 + n)
  {
    hide StepN, Step, LamAt, FuncAt, Inv, Evolves, Live, RegsKept, Moves, FlowDone;
    AbruptJoin(k, cx, cx1, ls, ls1, c0, c1, out, fuel, fuel1, -1, -1, vars, vars, w, rg, w1, rg1, n1, w2, rg2, m, n);
    Chain(k.code.ir, c0, n1, c1, n);
    if out.Ok? && out.v.Normal? { FlowTrans(k, ls, ls1, -1, -1, vars, vars, w, rg, w1, rg1, w2, rg2); }
  }

  // A loop body's code, from the outcome of its statements.
  lemma PlainToBody(k: Act, cx: Cx, ls: LS, after: LS, endl: string, again: string, out: I.Out<I.Flow>, fuel: int,
                    env: int,
                    vars: map<nat, string>, w: World, rg: Regs, w2: World, rg2: Regs, m: MVal, n: nat)
    returns (n2: nat)
    requires PlainSim(k, InLoop(cx, endl, again), ls, after, out, fuel, env, vars, w, rg, w2, rg2, m, n)
    requires Placed(k, FallTo(after, again))
    ensures BodySim(k, ls, At(k, ls.b, rg, w.heap), endl, again, out, fuel, env, vars, w, rg, w2, rg2, m, n2)
  {
    hide StepN, Step, Exec, LamAt, FuncAt, Inv, Moves, Live, RegsKept, FlowDone, Linked, CodeIn;
    assert Top(InLoop(cx, endl, again).brk) == endl && Top(InLoop(cx, endl, again).cont) == again;
    n2 := n;
    if out.Ok? {
      match out.v
      case Normal =>
        RunJump(k, after, again, rg2, w2.heap);
        OneMore(k.code.ir, At(k, ls.b, rg, w.heap), n, At(k, after.b, rg2, w2.heap));
        n2 := n + 1;
      case Break =>
      case Continue =>
      case Return(_) =>
    }
  }

  lemma BodyJoin(k: Act, ls: LS, ls1: LS, c0: Conf, c1: Conf, endl: string, again: string, out: I.Out<I.Flow>,
                 fuel: int, fuel1: int,
                 env1: int, vars: map<nat, string>, vars1: map<nat, string>, w: World, rg: Regs, w1: World, rg1: Regs, n1: nat,
                 w2: World, rg2: Regs, m: MVal, n: nat)
    requires Counts(ls, ls1) && FlowDone(k, ls, vars, w, rg, w1, rg1, -1) && Extended(vars, vars1, |w.st.cells|, ls.uq)
    requires StepN(k.code.ir, c0, n1) == c1 && fuel <= fuel1 + n1 && Within(-1, env1, w)
    requires BodySim(k, ls1, c1, endl, again, out, fuel1, env1, vars1, w1, rg1, w2, rg2, m, n)
    ensures BodySim(k, ls, c0, endl, again, out, fuel, -1, vars, w, rg, w2, rg2, m, n1 + n)
  {
    hide StepN, Step, LamAt, FuncAt, Inv, Live, RegsKept, Moves;
    Chain(k.code.ir, c0, n1, c1, n);
    if out.Ok? {
      MovesJoin(w, w1, w2, vars.Keys, vars1.Keys, -1, env1);
      if !out.v.Return? { FlowTrans(k, ls, ls1, -1, env1, vars, vars1, w, rg, w1, rg1, w2, rg2); }
    }
  }

  // ----- readiness -----

  lemma ExprFlow(k: Act, cx: Cx, ls: LS, r: (LS, IVal), vs: Scope, w: World, rg: Regs, env: int, vars: map<nat, string>,
                 w2: World, rg2: Regs, m: MVal)
    requires Ready(k, cx, ls, vs, w, rg, env, vars) && ExprDone(k, ls, r, w, rg, w2, rg2, m)
    ensures FlowDone(k, ls, vars, w, rg, w2, rg2, -1)
  {
    hide FuncAt, LamAt;
    LiveKept(k.code, w, w2, vars, rg, rg2, ls.b.tc, ls.uq, ls.uq, {});
    MovesWiden(w, w2, vars.Keys, -1);
  }

  lemma ReadyFlow(k: Act, cx: Cx, cx2: Cx, ls: LS, ls2: LS, vs: Scope, w: World, rg: Regs, env: int,
                  vars: map<nat, string>, w2: World, rg2: Regs)
    requires Ready(k, cx, ls, vs, w, rg, env, vars) && FlowDone(k, ls, vars, w, rg, w2, rg2, -1)
    requires Counts(ls, ls2) && !CurTerminated(ls2.b) && cx2.mod == cx.mod && cx2.captured == cx.captured
    ensures Ready(k, cx2, ls2, vs, w2, rg2, env, vars)
  {
    hide FuncAt, LamAt, Inv;
    LiveMore(k.code, w2, vars, rg2, ls.uq, ls2.uq);
    ScopeKept(w, w2, vars.Keys, -1, vs, env, vars, vars, rg, rg2, ls.b.tc, ls.uq, ls2.b.tc, vars.Values, cx.captured);
  }

  lemma LiveMore(code: Code, w: World, vars: map<nat, string>, rg: Regs, uq: nat, uq2: nat)
    requires Live(code, w, vars, rg, uq) && uq <= uq2
    ensures Live(code, w, vars, rg, uq2)
  {
    hide LamAt;
    forall c | c in vars ensures LiveCell(code, w, c, vars[c], rg, uq2) { assert LiveCell(code, w, c, vars[c], rg, uq); }
  }

  lemma SettledFlow(k: Act, ls: LS, w: World, rg: Regs, w2: World, rg2: Regs, env: int, vars: map<nat, string>,
                    N: set<string>, vs: Scope)
    requires FlowDone(k, ls, vars, w, rg, w2, rg2, -1) && SettledAll(w, env, N, vs)
    ensures SettledAll(w2, env, N, vs)
  {
    hide FuncAt, LamAt, Inv, Live, RegsKept;
    SettledAllKept(w, w2, env, N, vs);
  }

  // A construct that declares nothing, as a statement of a block.
  lemma PlainToStmt(k: Act, cx: Cx, ls: LS, after: LS, vs: Scope, out: I.Out<I.Flow>, fuel: int, env: int,
                    vars: map<nat, string>,
                    rest: set<string>, w: World, rg: Regs, w2: World, rg2: Regs, m: MVal, n: nat)
    requires Ready(k, cx, ls, vs, w, rg, env, vars) && Grows(ls, after)
    requires 0 <= env < |w.later| && w.later[env] == rest
    requires PlainSim(k, cx, ls, after, out, fuel, -1, vars, w, rg, w2, rg2, m, n)
    ensures StmtSim(k, cx, ls, (after, vs), out, fuel, env, vars, {}, rest, w, rg, w2, rg2, vars, m, n)
  {
    hide FuncAt, LamAt, Inv, Live, ScopeRel, RegsKept, StepN, Step, Grows;
    if out.Ok? {
      MovesWiden(w, w2, vars.Keys, env);
      match out.v
      case Normal =>
        GrowsCount(ls, after);
        ReadyFlow(k, cx, cx, ls, after, vs, w, rg, env, vars, w2, rg2);
      case Break =>
      case Continue =>
      case Return(_) =>
    }
  }

  // ----- blocks -----

  function Inside(w: World, env: int, decls: set<string>): World {
    World(I.NewEnv(w.st, env), w.boxes, w.later + [decls], w.heap)
  }

  lemma EnterInner(k: Act, cx: Cx, ls: LS, vs: Scope, w: World, rg: Regs, env: int, vars: map<nat, string>,
                   N: set<string>,
                   decls: set<string>)
    requires Ready(k, cx, ls, vs, w, rg, env, vars) && SettledAll(w, env, N, vs)
    ensures var w1 := Inside(w, env, decls);
            var e := |w.st.envs|;
            && Ready(k, cx, ls, vs, w1, rg, e, vars) && SettledAbove(w1, e, N, vs) && w1.later[e] == decls
            && FlowDone(k, ls, vars, w, rg, w1, rg, -1)
  {
    hide FuncAt, LamAt, Live, VRel, Inv;
    var w1 := Inside(w, env, decls);
    var e := |w.st.envs|;
    InsideInv(k.code, w, env, decls);
    LiveKept(k.code, w, w1, vars, rg, rg, ls.b.tc, ls.uq, ls.uq, {});
    SettledAllKept(w, w1, env, N, vs);
    forall x | x in vs
      ensures I.Lookup(w1.st.envs, e, x) == I.Lookup(w.st.envs, env, x)
      ensures NameAt(w1, I.Lookup(w1.st.envs, e, x).value, vs[x], vars, rg, ls.b.tc)
    {
      LookupKept(w, w1, {}, -1, env, x);
    }
    MovesWiden(w, w1, vars.Keys, -1);
  }

  lemma InsideInv(code: Code, w: World, env: int, decls: set<string>)
    requires Inv(code, w) && 0 <= env < |w.st.envs|
    ensures var w1 := Inside(w, env, decls); Inv(code, w1) && Moves(w, w1, {}, -1)
  {
    hide FuncAt, LamAt;
    var w1 := Inside(w, env, decls);
    assert Moves(w, w1, {}, -1);
    forall c | c in w.boxes ensures BoxRel(code, w1, c) {
      assert BoxRel(code, w, c);
      VRelKept(code, w, w1, w.st.cells[c].value, w.heap[w.boxes[c]].v);
    }
  }
}
