// Declaring and assigning variables: the interpreter's cells against locals and
// heap boxes.
module Variables {
  import opened Numeric
  import opened Syntax
  import opened Ir
  import opened Names
  import opened Lowering
  import opened Machine
  import opened Growth
  import opened Relation
  import opened Steps
  import opened SimBase
  import opened Entry
  import opened Capture
  import opened Flow
  import I = Interp

  // ----- a new cell -----

  // The world with a new cell for x in `env`, which may still declare `rest`.
  function Defined(w: World, env: int, x: string, v: I.Value, mutable: bool, rest: set<string>): World
    requires 0 <= env < |w.st.envs| == |w.later|
  {
    w.(st := I.Define(w.st, env, x, v, mutable), later := w.later[env := rest])
  }

  lemma DefineInv(code: Code, w: World, env: int, x: string, v: I.Value, m: MVal, mutable: bool, rest: set<string>)
    requires Inv(code, w) && 0 <= env < |w.st.envs| && VRel(code, w, v, m) && x !in code.src
    requires w.later[env] == {x} + rest
    ensures var w1 := Defined(w, env, x, v, mutable, rest);
            Inv(code, w1) && Moves(w, w1, {}, env) && VRel(code, w1, v, m)
            && |w.st.cells| !in w1.boxes
  {
    hide LamAt, FuncAt;
    var w1 := Defined(w, env, x, v, mutable, rest);
    forall c | c in w.boxes ensures c < |w.st.cells| { assert BoxRel(code, w, c); }
    assert Moves(w, w1, {}, env);
    VRelKept(code, w, w1, v, m);
    forall c | c in w1.boxes ensures BoxRel(code, w1, c) {
      assert BoxRel(code, w, c);
      VRelKept(code, w, w1, w.st.cells[c].value, w.heap[w.boxes[c]].v);
    }
  }

  lemma LiveMoved(code: Code, w: World, w1: World, vars: map<nat, string>, rg: Regs, uq: nat, env: int)
    requires Live(code, w, vars, rg, uq) && Moves(w, w1, {}, env)
    ensures Live(code, w1, vars, rg, uq) && |w.st.cells| !in vars
  {
    hide LamAt, FuncAt;
    forall c | c in vars ensures c < |w.st.cells| && LiveCell(code, w1, c, vars[c], rg, uq) {
      assert LiveCell(code, w, c, vars[c], rg, uq);
      VRelKept(code, w, w1, w.st.cells[c].value, rg.locals[vars[c]]);
    }
  }

  // The names other than x are where they were.
  lemma DefineReady(k: Act, cx: Cx, ls: LS, vs: Scope, w: World, rg: Regs, env: int, vars: map<nat, string>,
                    x: string, v: I.Value, m: MVal, mutable: bool, rest: set<string>)
    requires Ready(k, cx, ls, vs, w, rg, env, vars) && VRel(k.code, w, v, m) && x !in k.code.src
    requires w.later[env] == {x} + rest
    ensures var w1 := Defined(w, env, x, v, mutable, rest);
            && Ready(k, cx, ls, vs - {x}, w1, rg, env, vars) && VRel(k.code, w1, v, m)
            && |w.st.cells| !in w1.boxes && |w.st.cells| !in vars
    ensures var w1 := Defined(w, env, x, v, mutable, rest); FlowDone(k, ls, vars, w, rg, w1, rg, env)
  {
    hide LamAt, FuncAt, Live, VRel, BoxRel;
    var w1 := Defined(w, env, x, v, mutable, rest);
    DefineInv(k.code, w, env, x, v, m, mutable, rest);
    LiveMoved(k.code, w, w1, vars, rg, ls.uq, env);
    var vs1 := vs - {x};
    forall y | y in vs1
      ensures I.Lookup(w1.st.envs, env, y) == I.Lookup(w.st.envs, env, y)
      ensures NameAt(w1, I.Lookup(w1.st.envs, env, y).value, vs1[y], vars, rg, ls.b.tc)
    {
      if y !in w.st.envs[env].vars { LookupKept(w, w1, {}, env, w.st.envs[env].parent, y); }
    }
  }

  // The new cell in a new local.
  lemma ScopePlaced(k: Act, cx: Cx, ls: LS, ls1: LS, vs: Scope, w: World, rg: Regs, env: int, vars: map<nat, string>,
                    x: string, c: nat, loc: IVal, m: MVal)
    requires Ready(k, cx, ls, vs, w, rg, env, vars)
    requires x in w.st.envs[env].vars && w.st.envs[env].vars[x] == c && c !in vars && c !in w.boxes && x !in cx.captured
    requires loc.Local? && !Boxed(loc) && ls.uq < Stamp(loc.name) <= ls1.uq
    requires c < |w.st.cells| && VRel(k.code, w, w.st.cells[c].value, m)
    requires !CurTerminated(ls1.b) && ls1.b.tc >= ls.b.tc
    ensures Ready(k, cx, ls1, vs[x := loc], w, SetLocal(rg, loc.name, m), env, vars[c := loc.name])
  {
    hide LamAt, FuncAt, Inv;
    var rg1, vars1 := SetLocal(rg, loc.name, m), vars[c := loc.name];
    forall d | d in vars ensures LiveCell(k.code, w, d, vars1[d], rg1, ls1.uq) && vars[d] != loc.name {
      assert LiveCell(k.code, w, d, vars[d], rg, ls.uq);
    }
    var vs1 := vs[x := loc];
    forall y | y in vs1
      ensures I.Lookup(w.st.envs, env, y).Some? && NameAt(w, I.Lookup(w.st.envs, env, y).value, vs1[y], vars1, rg1, ls1.b.tc)
    {
      if y != x { assert y in vs; }
    }
  }

  // ----- binding a name (bind_name) -----

  // The name in its new place, and nothing else changed.
  ghost predicate BindDone(k: Act, cx: Cx, ls: LS, r: (LS, IVal), vs: Scope, w: World, rg: Regs, env: int,
                           vars: map<nat, string>, x: string,
                           w1: World, w2: World, rg2: Regs, vars2: map<nat, string>, n: nat)
  {
    && Ready(k, cx, r.0, vs[x := r.1], w2, rg2, env, vars2)
    && StepN(k.code.ir, At(k, ls.b, rg, w.heap), n) == At(k, r.0.b, rg2, w2.heap)
    && FlowDone(k, ls, vars, w, rg, w2, rg2, env) && Extended(vars, vars2, |w.st.cells|, ls.uq)
    && w2.st == w1.st && w2.later == w1.later
  }

  // w1 is the world in which x has its cell c, whose value the machine has at hand.
  ghost predicate Binding(k: Act, cx: Cx, ls: LS, vs: Scope, w: World, rg: Regs, env: int, vars: map<nat, string>,
                          x: string, ty: IRType,
                          val: IVal, m: MVal, w1: World)
  {
    && Ready(k, cx, ls, vs - {x}, w1, rg, env, vars) && FlowDone(k, ls, vars, w, rg, w1, rg, env)
    && x in w1.st.envs[env].vars && w1.st.envs[env].vars[x] == |w.st.cells| < |w1.st.cells|
    && |w.st.cells| !in w1.boxes && |w.st.cells| !in vars && VRel(k.code, w1, w1.st.cells[|w.st.cells|].value, m)
    && w1.heap == w.heap
    && ValOf(rg, val) == Some(m) && Steady(val, ls.b.tc, ls.uq) && !ty.Ptr?
    && Placed(k, BindName(cx, ls, x, ty, val).0)
  }

  lemma BindBox(k: Act, cx: Cx, ls: LS, vs: Scope, w: World, rg: Regs, env: int, vars: map<nat, string>, x: string,
                ty: IRType,
                val: IVal, m: MVal, w1: World)
    returns (w2: World, rg2: Regs)
    requires Binding(k, cx, ls, vs, w, rg, env, vars, x, ty, val, m, w1) && x in cx.captured
    ensures BindDone(k, cx, ls, BindName(cx, ls, x, ty, val), vs, w, rg, env, vars, x, w1, w2, rg2, vars, 2)
  {
    hide StepN, Step, Exec, LamAt, FuncAt, CodeIn, Linked, Extends, Grows, Inv, Live, ScopeRel, Moves, Evolves,
         FlowDone, VRel, Settled, RegsKept, CodeOk;
    var (ls1, box) := MakeBox(ls, ty, val);
    var c := |w.st.cells|;
    RunMakeBox(k, ls, ty, val, rg, w.heap, m);
    ReadyInv(k, cx, ls, vs - {x}, w1, rg, env, vars);
    BoxCell(k.code, w1, c, m);
    w2, rg2 := Boxing(w1, c, m), SetTemp(rg, ls.b.tc, MBox(|w.heap|));
    ScopeBoxed(k, cx, ls, ls1, vs - {x}, w1, rg, env, vars, x, c, box, w2, rg2);
    assert (vs - {x})[x := box] == vs[x := box];
    BoxedFlow(k, ls, vars, w, rg, w1, rg, w2, env, c, m);
    KeptTemp(rg, ls.b.tc, MBox(|w.heap|), ls.b.tc, ls.uq);
    RegFlow(k, ls, vars, w, rg, w2, rg, rg2, env);
  }

  lemma BindLocal(k: Act, cx: Cx, ls: LS, vs: Scope, w: World, rg: Regs, env: int, vars: map<nat, string>, x: string,
                  ty: IRType,
                  val: IVal, m: MVal, w1: World)
    returns (rg2: Regs, vars2: map<nat, string>)
    requires Binding(k, cx, ls, vs, w, rg, env, vars, x, ty, val, m, w1) && x !in cx.captured
    ensures BindDone(k, cx, ls, BindName(cx, ls, x, ty, val), vs, w, rg, env, vars, x, w1, w1, rg2, vars2, 1)
  {
    hide StepN, Step, Exec, LamAt, FuncAt, CodeIn, Linked, Extends, Grows, Inv, Live, ScopeRel, Moves, Evolves,
         FlowDone, VRel, Settled, RegsKept, CodeOk, Stamp, Dec, UniqName;
    var (ls1, loc) := Loc(ls, x, ty);
    var c := |w.st.cells|;
    StampOfUniq(x, ls.uq + 1);
    var ins := IAssign(PLocal(loc.name), val);
    FetchPlaced(k, ls1, ins, rg, w.heap);
    assert At(k, ls.b, rg, w.heap) == At(k, ls1.b, rg, w.heap);
    rg2, vars2 := SetLocal(rg, loc.name, m), vars[c := loc.name];
    ExecSetLocal(k, loc.name, val, HereFrame(k, ls1.b, rg), w.heap, m);
    NoSteps(k.code.ir, At(k, ls.b, rg, w.heap));
    OneMore(k.code.ir, At(k, ls.b, rg, w.heap), 0, At(k, ls.b, rg, w.heap));
    ScopePlaced(k, cx, ls, Put(ls1, ins), vs - {x}, w1, rg, env, vars, x, c, loc, m);
    assert (vs - {x})[x := loc] == vs[x := loc];
    KeptLocal(rg, loc.name, m, ls.b.tc, ls.uq);
    RegFlow(k, ls, vars, w, rg, w1, rg, rg2, env);
  }

  // What is left to prove once the value is computed. `m` is its machine value.
  lemma RunBind(k: Act, cx: Cx, ls: LS, vs: Scope, w: World, rg: Regs, env: int, vars: map<nat, string>,
                x: string, ty: IRType, val: IVal, v: I.Value, m: MVal, mutable: bool, rest: set<string>)
    returns (w2: World, rg2: Regs, vars2: map<nat, string>, n: nat)
    requires Ready(k, cx, ls, vs, w, rg, env, vars) && VRel(k.code, w, v, m) && x !in k.code.src && w.later[env] == {x} + rest
    requires ValOf(rg, val) == Some(m) && Steady(val, ls.b.tc, ls.uq) && !ty.Ptr?
    requires Placed(k, BindName(cx, ls, x, ty, val).0)
    ensures var r := BindName(cx, ls, x, ty, val);
            && Ready(k, cx, r.0, vs[x := r.1], w2, rg2, env, vars2)
            && StepN(k.code.ir, At(k, ls.b, rg, w.heap), n) == At(k, r.0.b, rg2, w2.heap)
    ensures FlowDone(k, ls, vars, w, rg, w2, rg2, env) && Extended(vars, vars2, |w.st.cells|, ls.uq)
    ensures w2.st == I.Define(w.st, env, x, v, mutable) && |w2.later| > env && w2.later[env] == rest
  {
    hide StepN, Step, Exec, LamAt, FuncAt, CodeIn, Linked, Extends, Grows, Inv, Live, ScopeRel, Moves, Evolves,
         FlowDone, Stamp, VRel, Settled, RegsKept, BindName, Ready, Extended;
    ReadyEnv(k, cx, ls, vs, w, rg, env, vars);
    DefineReady(k, cx, ls, vs, w, rg, env, vars, x, v, m, mutable, rest);
    var w1 := Defined(w, env, x, v, mutable, rest);
    w2, rg2, vars2, n := w1, rg, vars, if x in cx.captured then 2 else 1;
    if x in cx.captured {
      w2, rg2 := BindBox(k, cx, ls, vs, w, rg, env, vars, x, ty, val, m, w1);
    } else {
      rg2, vars2 := BindLocal(k, cx, ls, vs, w, rg, env, vars, x, ty, val, m, w1);
    }
  }

  lemma ExecSetLocal(k: Act, n: string, val: IVal, fr: Frame, heap: seq<HObj>, m: MVal)
    requires ValOf(fr.rg, val) == Some(m)
    ensures Exec(k.code.ir, IAssign(PLocal(n), val), fr, k.rest, heap) == Run(Next(fr, SetLocal(fr.rg, n, m)), k.rest, heap)
  {
  }

  // A box on the heap disturbs nothing.
  lemma BoxedFlow(k: Act, ls: LS, vars: map<nat, string>, w: World, rg: Regs, w1: World, rg1: Regs, w2: World,
                  env: int, c: nat, m: MVal)
    requires FlowDone(k, ls, vars, w, rg, w1, rg1, env) && w2 == Boxing(w1, c, m) && Inv(k.code, w2) && Evolves(w1, w2)
    requires c == |w.st.cells| && c !in vars
    ensures FlowDone(k, ls, vars, w, rg, w2, rg1, env)
  {
    hide LamAt, FuncAt, Inv;
    EvolvesTrans(w, w1, w2);
    forall d | d in vars ensures LiveCell(k.code, w2, d, vars[d], rg1, ls.uq) {
      assert LiveCell(k.code, w1, d, vars[d], rg1, ls.uq);
      VRelKept(k.code, w1, w2, w1.st.cells[d].value, rg1.locals[vars[d]]);
    }
  }

  // Neither do newly minted registers.
  lemma RegFlow(k: Act, ls: LS, vars: map<nat, string>, w: World, rg: Regs, w1: World, rg1: Regs, rg2: Regs, env: int)
    requires FlowDone(k, ls, vars, w, rg, w1, rg1, env) && RegsKept(rg1, rg2, ls.b.tc, ls.uq, {})
    ensures FlowDone(k, ls, vars, w, rg, w1, rg2, env)
  {
    hide LamAt, FuncAt, Inv, Moves;
    KeptTrans(rg, rg1, rg2, ls.b.tc, ls.uq, vars.Values, ls.b.tc, ls.uq, {});
    forall d | d in vars ensures LiveCell(k.code, w1, d, vars[d], rg2, ls.uq) {
      assert LiveCell(k.code, w1, d, vars[d], rg1, ls.uq);
    }
  }

  lemma KeptTemp(rg: Regs, t: nat, m: MVal, tc: nat, uq: nat)
    requires t >= tc
    ensures RegsKept(rg, SetTemp(rg, t, m), tc, uq, {})
  {
  }

  lemma KeptLocal(rg: Regs, n: string, m: MVal, tc: nat, uq: nat)
    requires Stamp(n) > uq
    ensures RegsKept(rg, SetLocal(rg, n, m), tc, uq, {})
  {
  }

  // ----- assignment -----

  function SetCode(vs: Scope, x: string, val: IVal): Instr
    requires x in vs
  {
    if Boxed(vs[x]) then IAssign(PDeref(vs[x]), val) else IAssign(PLocal(if vs[x].Local? then vs[x].name else ""), val)
  }

  function Assigned(w: World, c: nat, v: I.Value, m: MVal): World
    requires c < |w.st.cells| && (c in w.boxes ==> w.boxes[c] < |w.heap|)
  {
    w.(st := w.st.(cells := w.st.cells[c := I.Cell(v, true)]),
       heap := if c in w.boxes then w.heap[w.boxes[c] := HBox(m)] else w.heap)
  }

  lemma AssignInv(code: Code, w: World, c: nat, v: I.Value, m: MVal)
    requires Inv(code, w) && c < |w.st.cells| && VRel(code, w, v, m)
    ensures c in w.boxes ==> w.boxes[c] < |w.heap| && w.heap[w.boxes[c]].HBox?
    ensures var w1 := Assigned(w, c, v, m); Inv(code, w1) && Moves(w, w1, {c}, -1)
  {
    hide LamAt, FuncAt;
    assert c in w.boxes ==> BoxRel(code, w, c);
    var w1 := Assigned(w, c, v, m);
    assert Moves(w, w1, {c}, -1);
    forall d | d in w1.boxes ensures BoxRel(code, w1, d) {
      assert BoxRel(code, w, d);
      VRelKept(code, w, w1, if d == c then v else w.st.cells[d].value, if d == c then m else w.heap[w.boxes[d]].v);
    }
  }

  // Storing a value at the place of x gives the cell of x that value.
  lemma RunAssign(k: Act, cx: Cx, ls: LS, vs: Scope, w: World, rg: Regs, env: int, vars: map<nat, string>,
                  x: string, val: IVal, v: I.Value, m: MVal)
    returns (w2: World, rg2: Regs)
    requires Ready(k, cx, ls, vs, w, rg, env, vars) && VRel(k.code, w, v, m) && x in vs
    requires ValOf(rg, val) == Some(m) && I.Assign(w.st, env, x, v).Ok?
    ensures I.Assign(w.st, env, x, v) == I.Ok(I.Normal, w2.st) && FlowDone(k, ls, vars, w, rg, w2, rg2, -1)
    ensures Exec(k.code.ir, SetCode(vs, x, val), HereFrame(k, ls.b, rg), k.rest, w.heap)
         == Run(Next(HereFrame(k, ls.b, rg), rg2), k.rest, w2.heap)
  {
    hide CodeOk, I.Lookup, LamAt, FuncAt, Inv, Moves, StepN, Step, RegsKept, VRel, FlowDone, Settled;
    var c := I.Lookup(w.st.envs, env, x).value;
    assert NameAt(w, c, vs[x], vars, rg, ls.b.tc);
    AssignInv(k.code, w, c, v, m);
    w2 := Assigned(w, c, v, m);
    rg2 := if Boxed(vs[x]) then rg else SetLocal(rg, vs[x].name, m);
    AssignFlow(k, ls, vars, w, rg, c, v, m, w2, rg2);
  }

  lemma AssignFlow(k: Act, ls: LS, vars: map<nat, string>, w: World, rg: Regs, c: nat, v: I.Value, m: MVal, w2: World,
                   rg2: Regs)
    requires Live(k.code, w, vars, rg, ls.uq) && c < |w.st.cells| && VRel(k.code, w, v, m)
    requires (c in w.boxes ==> w.boxes[c] < |w.heap|) && w2 == Assigned(w, c, v, m)
    requires Inv(k.code, w2) && Moves(w, w2, {c}, -1)
    requires if c in w.boxes then rg2 == rg else c in vars && rg2 == SetLocal(rg, vars[c], m)
    ensures FlowDone(k, ls, vars, w, rg, w2, rg2, -1)
  {
    hide LamAt, FuncAt, Inv;
    forall d | d in vars ensures LiveCell(k.code, w2, d, vars[d], rg2, ls.uq) {
      assert LiveCell(k.code, w, d, vars[d], rg, ls.uq);
      VRelKept(k.code, w, w2, if d == c then v else w.st.cells[d].value, if d == c then m else rg.locals[vars[d]]);
    }
  }
}
