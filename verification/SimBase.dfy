// What it means for lowered code to simulate the interpreter, and how simulations
// of parts are put together.
module SimBase {
  import opened Numeric
  import opened Syntax
  import opened Ir
  import opened Names
  import opened Lowering
  import opened Machine
  import opened Growth
  import opened Relation
  import opened Restrict
  import opened Steps
  import I = Interp

  // Everything a construct may assume when control reaches it.
  ghost predicate Ready(k: Act, cx: Cx, ls: LS, vs: Scope, w: World, rg: Regs, env: int, vars: map<nat, string>) {
    && ActOk(k) && cx.mod == k.code.mod
    && !CurTerminated(ls.b)
    && Inv(k.code, w)
    && Live(k.code, w, vars, rg, ls.uq)
    && ScopeRel(w, vs, env, vars, rg, ls.b.tc, cx.captured)
  }

  // What else it needs of its own code.
  ghost predicate Able(k: Act, cx: Cx, vs: Scope, w: World, env: int, captured: set<string>, after: LS) {
    SettledAll(w, env, captured, vs) && captured <= cx.captured && Placed(k, after)
  }

  ghost predicate ExprDone(k: Act, ls: LS, r: (LS, IVal), w: World, rg: Regs, w2: World, rg2: Regs, m: MVal) {
    && Inv(k.code, w2) && Moves(w, w2, {}, -1)
    && RegsKept(rg, rg2, ls.b.tc, ls.uq, {})
    && ValOf(rg2, r.1) == Some(m) && Steady(r.1, r.0.b.tc, r.0.uq)
    && !CurTerminated(r.0.b)
  }

  lemma KeptGrows(ls: LS, ls2: LS, a: Regs, b: Regs, c: Regs)
    requires Grows(ls, ls2) && RegsKept(a, b, ls.b.tc, ls.uq, {}) && RegsKept(b, c, ls2.b.tc, ls2.uq, {})
    ensures RegsKept(a, c, ls.b.tc, ls.uq, {})
  {
    KeptTrans(a, b, c, ls.b.tc, ls.uq, {}, ls2.b.tc, ls2.uq, {});
  }

  // The code from ls to r.0 does what the interpreter's outcome says. Running out
  // of fuel means the machine is still running after at least that many steps.
  ghost predicate ExprSim(k: Act, ls: LS, r: (LS, IVal), out: I.Out<I.Value>, fuel: nat,
                          w: World, rg: Regs, w2: World, rg2: Regs, m: MVal, n: nat)
  {
    var c := StepN(k.code.ir, At(k, ls.b, rg, w.heap), n);
    match out
    case Ok(v, st) =>
      w2.st == st && ExprDone(k, ls, r, w, rg, w2, rg2, m) && VRel(k.code, w2, v, m) && c == At(k, r.0.b, rg2, w2.heap)
    case Panic => c == Panicked
    case NoFuel => n >= fuel && c.Run?
    case Err(_) => true
  }

  lemma ReadyAfter(k: Act, cx: Cx, ls: LS, r: (LS, IVal), vs: Scope, w: World, rg: Regs, env: int,
                   vars: map<nat, string>,
                   w2: World, rg2: Regs, m: MVal)
    requires Ready(k, cx, ls, vs, w, rg, env, vars) && Grows(ls, r.0) && ExprDone(k, ls, r, w, rg, w2, rg2, m)
    ensures Ready(k, cx, r.0, vs, w2, rg2, env, vars)
  {
    hide FuncAt, LamAt;
    LiveKept(k.code, w, w2, vars, rg, rg2, ls.b.tc, ls.uq, r.0.uq, {});
    ScopeKept(w, w2, {}, -1, vs, env, vars, vars, rg, rg2, ls.b.tc, ls.uq, r.0.b.tc, {}, cx.captured);
  }

  // Two sub-expressions in sequence, keeping what the first one computed.
  lemma ExprThen(k: Act, ls: LS, r: (LS, IVal), r2: (LS, IVal), w: World, rg: Regs, w1: World, rg1: Regs, m: MVal,
                 w2: World, rg2: Regs, m2: MVal, v: I.Value)
    requires Grows(ls, r.0)
    requires ExprDone(k, ls, r, w, rg, w1, rg1, m) && ExprDone(k, r.0, r2, w1, rg1, w2, rg2, m2)
    requires VRel(k.code, w1, v, m)
    ensures Moves(w, w2, {}, -1) && RegsKept(rg, rg2, ls.b.tc, ls.uq, {})
    ensures ValOf(rg2, r.1) == Some(m) && VRel(k.code, w2, v, m)
  {
    hide FuncAt, LamAt;
    MovesTrans(w, w1, w2, {}, -1, {});
    KeptGrows(ls, r.0, rg, rg1, rg2);
    SteadyKept(r.1, rg1, rg2, r.0.b.tc, r.0.uq);
    VRelKept(k.code, w1, w2, v, m);
  }

  // One instruction into a fresh temp.
  lemma RunTmp(k: Act, ls: LS, ty: IRType, i: Instr, rg: Regs, heap: seq<HObj>, m: MVal)
    requires !CurTerminated(ls.b) && Placed(k, Put(Tmp(ls, ty).0, i)) && !IsTerminator(i)
    requires Exec(k.code.ir, i, HereFrame(k, ls.b, rg), k.rest, heap)
          == Run(Next(HereFrame(k, ls.b, rg), SetTemp(rg, ls.b.tc, m)), k.rest, heap)
    ensures Step(k.code.ir, At(k, ls.b, rg, heap)) == At(k, Put(Tmp(ls, ty).0, i).b, SetTemp(rg, ls.b.tc, m), heap)
    ensures !CurTerminated(Put(Tmp(ls, ty).0, i).b)
    ensures RegsKept(rg, SetTemp(rg, ls.b.tc, m), ls.b.tc, ls.uq, {})
  {
    var ls1 := Tmp(ls, ty).0;
    Fetch(k, ls1, i, rg, heap);
    assert At(k, ls.b, rg, heap) == At(k, ls1.b, rg, heap);
    assert HereFrame(k, ls.b, rg) == HereFrame(k, ls1.b, rg);
  }

  // An instruction that traps.
  lemma RunTrap(k: Act, ls: LS, ty: IRType, i: Instr, rg: Regs, heap: seq<HObj>)
    requires !CurTerminated(ls.b) && Placed(k, Put(Tmp(ls, ty).0, i))
    requires Exec(k.code.ir, i, HereFrame(k, ls.b, rg), k.rest, heap) == Panicked
    ensures Step(k.code.ir, At(k, ls.b, rg, heap)) == Panicked
  {
    var ls1 := Tmp(ls, ty).0;
    Fetch(k, ls1, i, rg, heap);
    assert At(k, ls.b, rg, heap) == At(k, ls1.b, rg, heap);
    assert HereFrame(k, ls.b, rg) == HereFrame(k, ls1.b, rg);
  }

  // A pure instruction on values already computed, appended to a simulation.
  lemma AppendTmp(k: Act, ls: LS, ls1: LS, ty: IRType, i: Instr, w: World, rg: Regs, w1: World, rg1: Regs, n: nat,
                  m: MVal)
    returns (rg2: Regs)
    requires Grows(ls, ls1) && !CurTerminated(ls1.b) && Placed(k, Put(Tmp(ls1, ty).0, i)) && !IsTerminator(i)
    requires Moves(w, w1, {}, -1) && RegsKept(rg, rg1, ls.b.tc, ls.uq, {}) && Inv(k.code, w1)
    requires StepN(k.code.ir, At(k, ls.b, rg, w.heap), n) == At(k, ls1.b, rg1, w1.heap)
    requires Exec(k.code.ir, i, HereFrame(k, ls1.b, rg1), k.rest, w1.heap)
          == Run(Next(HereFrame(k, ls1.b, rg1), SetTemp(rg1, ls1.b.tc, m)), k.rest, w1.heap)
    ensures var (ls2, dst) := Tmp(ls1, ty);
            ExprDone(k, ls, (Put(ls2, i), dst), w, rg, w1, rg2, m)
            && StepN(k.code.ir, At(k, ls.b, rg, w.heap), n + 1) == At(k, Put(ls2, i).b, rg2, w1.heap)
  {
    hide StepN, Step, Grows, Extends, Exec, FuncAt, LamAt;
    rg2 := SetTemp(rg1, ls1.b.tc, m);
    RunTmp(k, ls1, ty, i, rg1, w1.heap, m);
    OneMore(k.code.ir, At(k, ls.b, rg, w.heap), n, At(k, ls1.b, rg1, w1.heap));
    KeptGrows(ls, ls1, rg, rg1, rg2);
  }

  lemma KeptWiden(ls: LS, a: Regs, b: Regs, c: Regs, un: string, m: MVal)
    requires RegsKept(a, b, ls.b.tc, ls.uq, {}) && c == SetLocal(b, un, m)
    ensures RegsKept(a, c, ls.b.tc, ls.uq, {un})
  {
  }

  lemma GrowsCount(a: LS, b: LS)
    requires Grows(a, b)
    ensures a.b.tc <= b.b.tc && a.uq <= b.uq
  {
  }

  lemma PlacedBack2(k: Act, ls: LS, i: Instr, ls3: LS, br: Instr, l: string)
    requires ls3 == Put(ls, i).(b := Put(ls, i).b.(bc := ls3.b.bc)) && ls3.b.bc >= Put(ls, i).b.bc
    requires Placed(k, Block0(Put(ls3, br), l))
    ensures Placed(k, Put(ls, i)) && Placed(k, Put(ls3, br))
  {
    BlockGrows(Put(ls3, br), l);
    PlacedEarlier(k, Put(ls3, br), Block0(Put(ls3, br), l));
    PutGrows(ls3, br);
    PlacedEarlier(k, ls3, Put(ls3, br));
  }

  // Readiness when only registers of no interest to the scope changed.
  lemma ReadyMoved(k: Act, cx: Cx, ls: LS, ls2: LS, vs: Scope, w: World, rg: Regs, env: int, vars: map<nat, string>,
                   w2: World, rg2: Regs, own: set<string>)
    requires Ready(k, cx, ls, vs, w, rg, env, vars) && ls.b.tc <= ls2.b.tc && ls.uq <= ls2.uq && !CurTerminated(ls2.b)
    requires Inv(k.code, w2) && Moves(w, w2, {}, -1) && RegsKept(rg, rg2, ls.b.tc, ls.uq, own)
    requires forall c :: c in vars ==> vars[c] !in own
    ensures Ready(k, cx, ls2, vs, w2, rg2, env, vars)
  {
    hide FuncAt, LamAt;
    LiveKept(k.code, w, w2, vars, rg, rg2, ls.b.tc, ls.uq, ls2.uq, own);
    ScopeKept(w, w2, {}, -1, vs, env, vars, vars, rg, rg2, ls.b.tc, ls.uq, ls2.b.tc, own, cx.captured);
  }
}
