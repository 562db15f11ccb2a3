// Making a closure: the captured boxes are stored into an environment array, and
// the function literal's lifted form is among the program's functions.
module Capture {
  import opened Numeric
  import opened Syntax
  import opened Ir
  import opened Names
  import opened Lowering
  import opened Machine
  import opened Growth
  import opened Relation
  import opened Restrict
  import opened Steps
  import opened SimBase
  import opened Entry
  import I = Interp

  // Names whose temps hold the boxes of their cells.
  ghost predicate InBoxes(w: World, env: int, vs: Scope, rg: Regs, tc: nat, caps: seq<string>) {
    forall i :: 0 <= i < |caps| ==> BoxAt(w, env, vs, rg, tc, caps[i])
  }

  ghost predicate BoxAt(w: World, env: int, vs: Scope, rg: Regs, tc: nat, x: string) {
    var c := Settled(w, env, x);
    && x in vs && vs[x].Temp? && vs[x].id < tc
    && c.Some? && c.value in w.boxes && ValOf(rg, vs[x]) == Some(MBox(w.boxes[c.value]))
  }

  lemma CapsInBoxes(k: Act, cx: Cx, ls: LS, vs: Scope, w: World, rg: Regs, env: int, vars: map<nat, string>,
                    free: set<string>)
    requires Ready(k, cx, ls, vs, w, rg, env, vars) && SettledAll(w, env, free, vs) && free <= cx.captured
    ensures InBoxes(w, env, vs, rg, ls.b.tc, SortedNames(free * vs.Keys))
  {
    hide LamAt, FuncAt, Live, Inv;
    var caps := SortedNames(free * vs.Keys);
    forall i | 0 <= i < |caps| ensures BoxAt(w, env, vs, rg, ls.b.tc, caps[i]) {
      assert caps[i] in caps;
      SettledIsLookup(w, env, caps[i]);
    }
  }

  // The slots filled so far, the rest null.
  ghost function Slots(w: World, env: int, caps: seq<string>, i: nat): seq<MVal> {
    seq(|caps|, j requires 0 <= j < |caps| =>
      var c := Settled(w, env, caps[j]);
      if j < i && c.Some? && c.value in w.boxes then MBox(w.boxes[c.value]) else MNull)
  }

  lemma {:induction false} RunStores(k: Act, ls: LS, vs: Scope, w: World, env: int, caps: seq<string>, t: IVal, i: nat,
                                     rg: Regs)
    returns (n: nat)
    requires i <= |caps| && (forall x | x in caps :: x in vs) && !CurTerminated(ls.b)
    requires Placed(k, StoreCaps(ls, vs, caps, t, i))
    requires ValOf(rg, t) == Some(MEnv(|w.heap|)) && InBoxes(w, env, vs, rg, ls.b.tc, caps)
    ensures var ls2 := StoreCaps(ls, vs, caps, t, i);
            && StepN(k.code.ir, At(k, ls.b, rg, w.heap + [HEnv(Slots(w, env, caps, i))]), n)
               == At(k, ls2.b, rg, w.heap + [HEnv(Slots(w, env, caps, |caps|))])
            && !CurTerminated(ls2.b)
    decreases |caps| - i
  {
    hide StepN, Step, Exec, FuncAt, LamAt, CodeIn, Linked, Extends, Grows, Settled;
    n := 0;
    var heap := w.heap + [HEnv(Slots(w, env, caps, i))];
    NoSteps(k.code.ir, At(k, ls.b, rg, heap));
    if i < |caps| {
      assert caps[i] in caps;
      var ins := IEnvStore(t, i, vs[caps[i]]);
      var ls1 := Put(ls, ins);
      StoreCapsGrows(ls1, vs, caps, t, i + 1);
      PlacedEarlier(k, ls1, StoreCaps(ls, vs, caps, t, i));
      FetchPlaced(k, ls, ins, rg, heap);
      assert BoxAt(w, env, vs, rg, ls.b.tc, caps[i]);
      ExecStore(k, t, vs[caps[i]], w, env, caps, i, HereFrame(k, ls.b, rg));
      OneMore(k.code.ir, At(k, ls.b, rg, heap), 0, At(k, ls.b, rg, heap));
      n := RunStores(k, ls1, vs, w, env, caps, t, i + 1, rg);
      Chain(k.code.ir, At(k, ls.b, rg, heap), 1, At(k, ls1.b, rg, w.heap + [HEnv(Slots(w, env, caps, i + 1))]), n);
      n := n + 1;
    }
  }

  // Fetch, with the placement as Placed.
  lemma FetchPlaced(k: Act, ls: LS, i: Instr, rg: Regs, heap: seq<HObj>)
    requires !CurTerminated(ls.b) && Placed(k, Put(ls, i))
    ensures Step(k.code.ir, At(k, ls.b, rg, heap)) == Exec(k.code.ir, i, HereFrame(k, ls.b, rg), k.rest, heap)
    ensures forall rg2, heap2 :: At(k, Put(ls, i).b, rg2, heap2) == Run(Next(HereFrame(k, ls.b, rg), rg2), k.rest, heap2)
    ensures CurTerminated(Put(ls, i).b) <==> IsTerminator(i)
  {
    hide Step, Exec, FuncAt, LamAt, CodeIn, Linked;
    Fetch(k, ls, i, rg, heap);
  }

  lemma ExecStore(k: Act, t: IVal, v: IVal, w: World, env: int, caps: seq<string>, i: nat, fr: Frame)
    requires i < |caps| && ValOf(fr.rg, t) == Some(MEnv(|w.heap|))
    requires var c := Settled(w, env, caps[i]); c.Some? && c.value in w.boxes && ValOf(fr.rg, v) == Some(MBox(w.boxes[c.value]))
    ensures Exec(k.code.ir, IEnvStore(t, i, v), fr, k.rest, w.heap + [HEnv(Slots(w, env, caps, i))])
         == Run(Next(fr, fr.rg), k.rest, w.heap + [HEnv(Slots(w, env, caps, i + 1))])
  {
    hide Settled;
    var heap := w.heap + [HEnv(Slots(w, env, caps, i))];
    var c := Settled(w, env, caps[i]).value;
    assert heap[|w.heap|].slots[i := MBox(w.boxes[c])] == Slots(w, env, caps, i + 1);
    assert heap[|w.heap| := HEnv(Slots(w, env, caps, i + 1))] == w.heap + [HEnv(Slots(w, env, caps, i + 1))];
  }

  // The world with the environment array of a closure.
  ghost function WithEnv(w: World, env: int, caps: seq<string>): World {
    if caps == [] then w else w.(heap := w.heap + [HEnv(Slots(w, env, caps, |caps|))])
  }

  function EnvVal(w: World, caps: seq<string>): MVal { if caps == [] then MNull else MEnv(|w.heap|) }

  lemma RunMakeEnv(k: Act, ls: LS, vs: Scope, w: World, env: int, caps: seq<string>, rg: Regs)
    returns (rg2: Regs, n: nat)
    requires (forall x | x in caps :: x in vs) && !CurTerminated(ls.b) && Placed(k, MakeEnv(ls, vs, caps).0)
    requires InBoxes(w, env, vs, rg, ls.b.tc, caps)
    ensures var r := MakeEnv(ls, vs, caps);
            && StepN(k.code.ir, At(k, ls.b, rg, w.heap), n) == At(k, r.0.b, rg2, WithEnv(w, env, caps).heap)
            && ValOf(rg2, r.1) == Some(EnvVal(w, caps)) && !CurTerminated(r.0.b)
    ensures RegsKept(rg, rg2, ls.b.tc, ls.uq, {})
  {
    hide StepN, Step, FuncAt, LamAt, CodeIn, Linked, Extends, Grows, Settled, StoreCaps;
    rg2, n := rg, 0;
    NoSteps(k.code.ir, At(k, ls.b, rg, w.heap));
    if caps != [] {
      var (ls1, t) := Tmp(ls, ENV_TY);
      var ins := IEnvNew(t.id, |caps|);
      var ls2 := Put(ls1, ins);
      StoreCapsGrows(ls2, vs, caps, t, 0);
      PlacedEarlier(k, ls2, StoreCaps(ls2, vs, caps, t, 0));
      rg2 := SetTemp(rg, t.id, MEnv(|w.heap|));
      FetchPlaced(k, ls1, ins, rg, w.heap);
      assert At(k, ls.b, rg, w.heap) == At(k, ls1.b, rg, w.heap);
      assert seq(|caps|, _ => MNull) == Slots(w, env, caps, 0);
      OneMore(k.code.ir, At(k, ls.b, rg, w.heap), 0, At(k, ls.b, rg, w.heap));
      assert InBoxes(w, env, vs, rg2, ls2.b.tc, caps) by {
        forall i | 0 <= i < |caps| ensures BoxAt(w, env, vs, rg2, ls2.b.tc, caps[i]) {
          assert BoxAt(w, env, vs, rg, ls.b.tc, caps[i]);
        }
      }
      n := RunStores(k, ls2, vs, w, env, caps, t, 0, rg2);
      Chain(k.code.ir, At(k, ls.b, rg, w.heap), 1, At(k, ls2.b, rg2, w.heap + [HEnv(Slots(w, env, caps, 0))]), n);
      n := n + 1;
    }
  }

  lemma EnvMade(code: Code, w: World, env: int, vs: Scope, rg: Regs, tc: nat, caps: seq<string>)
    requires Inv(code, w) && InBoxes(w, env, vs, rg, tc, caps) && 0 <= env < |w.st.envs|
    ensures var w2 := WithEnv(w, env, caps);
            Inv(code, w2) && Moves(w, w2, {}, -1) && EnvRel(w2, env, caps, EnvVal(w, caps))
  {
    hide LamAt, FuncAt;
    var w2 := WithEnv(w, env, caps);
    assert Moves(w, w2, {}, -1);
    forall c | c in w2.boxes ensures BoxRel(code, w2, c) {
      assert BoxRel(code, w, c);
      VRelKept(code, w, w2, w.st.cells[c].value, w.heap[w.boxes[c]].v);
    }
    if caps != [] {
      forall i | 0 <= i < |caps| ensures SlotRel(w2, env, caps[i], w2.heap[|w.heap|].slots[i]) {
        assert BoxAt(w, env, vs, rg, tc, caps[i]);
        SettledKept(w, w2, env, caps[i]);
      }
    }
  }

  // ----- the lifted function -----

  lemma {:induction false} LookupNotGlobal(code: Code, w: World, e: int, x: string)
    requires Inv(code, w) && e < |w.st.envs|
    ensures I.Lookup(w.st.envs, e, x).Some? ==> x !in code.src
    decreases e
  {
    hide LamAt, FuncAt, BoxesOk;
    if 0 <= e { LookupNotGlobal(code, w, w.st.envs[e].parent, x); }
  }

  // Lowering a function literal, in two parts: the environment, then the closure.
  function Literal(cx: Cx, ls: LS, vs: Scope, e: Expr): (r: ((LS, IVal), (LS, IVal), LamInfo))
    requires e.EFunc?
  {
    var caps := SortedNames(LambdaFree(e.params, e.fbody) * vs.Keys);
    var r1 := MakeEnv(ls, vs, caps);
    var lname := LambdaName(cx.mod, r1.0.lamn + 1);
    var (ls2, dst) := Tmp(r1.0.(lamn := r1.0.lamn + 1), TyOf(TFunc(ParamTypes(e.params), e.ret)));
    var ls3 := Put(ls2, IMakeClosure(dst.id, lname, r1.1));
    (r1, (ls3, dst), LamInfo(cx, ls3.lamn, ls3.funcs, e.params, e.ret, e.fbody, caps, CapTypes(vs, caps)))
  }

  lemma LowerLiteral(cx: Cx, ls: LS, vs: Scope, e: Expr)
    requires e.EFunc?
    ensures var (r1, r3, i) := Literal(cx, ls, vs, e);
            var lname := LambdaName(cx.mod, r1.0.lamn + 1);
            |i.caps| == |i.capTys|
            && var l := LowerLambda(cx, i.lamn, i.funcs, lname, i.params, i.ret, i.body, i.caps, i.capTys);
               LowerExpr(cx, ls, vs, e) == (r3.0.(lamn := l.0, funcs := l.1, refused := LowerExpr(cx, ls, vs, e).0.refused), r3.1)
  {
    hide LowerLambda, MakeEnv, CapTypes, LambdaBody, CannotCapture;
  }

  lemma LiteralLifted(k: Act, cx: Cx, ls: LS, vs: Scope, e: Expr, w: World, rg: Regs, env: int, vars: map<nat, string>)
    requires e.EFunc? && Ready(k, cx, ls, vs, w, rg, env, vars) && OkE(k.code.src.Keys, vs.Keys, cx.chk, e)
    requires Placed(k, LowerExpr(cx, ls, vs, e).0)
    ensures var (r1, r3, i) := Literal(cx, ls, vs, e); LamAt(k.code, LambdaName(cx.mod, r1.0.lamn + 1), i)
  {
    hide Emit, LowerExpr, FuncAt, Live, Inv, MakeEnv, CapTypes, Extends, LowerLambda, Grows, CodeIn, OkSs, LambdaBody,
         Finish, SortedNames, LambdaFree, StrLt;
    LowerLiteral(cx, ls, vs, e);
    var (r1, r3, i) := Literal(cx, ls, vs, e);
    var free := LambdaFree(e.params, e.fbody);
    var lname := LambdaName(cx.mod, r1.0.lamn + 1);
    LiteralOk(k.code.src.Keys, vs, cx.chk, e);
    forall x | x in i.caps ensures x !in k.code.src {
      LookupNotGlobal(k.code, w, env, x);
    }
    forall a, b | 0 <= a < b < |i.caps| ensures i.caps[a] != i.caps[b] {
      if i.caps[a] == i.caps[b] { StrLtAsymmetric(i.caps[a], i.caps[b]); }
    }
    LambdaLinked(k.code.ir, cx, i.lamn, i.funcs, lname, i.params, i.ret, i.body, i.caps, i.capTys);
  }

  // The literal's body meets the static conditions on its own.
  lemma LiteralOk(g: set<string>, vs: Scope, chk: bool, e: Expr)
    requires e.EFunc? && OkE(g, vs.Keys, chk, e)
    ensures var caps := SortedNames(LambdaFree(e.params, e.fbody) * vs.Keys);
            && !chk && DistinctParams(e.params) && OkParams(g, e.params)
            && (set x | x in caps) !! ParamNames(e.params)
            && OkSs(g, (set x | x in caps) + ParamNames(e.params), false, false, e.fbody)
  {
    hide OkSs;
    var free := LambdaFree(e.params, e.fbody);
    var caps := SortedNames(free * vs.Keys);
    LambdaFreeDisjoint(e.params, e.fbody);
    LambdaScopeSuffices(g, vs.Keys, e.params, e.fbody);
    assert (set x | x in caps) == free * vs.Keys;
  }

  lemma LambdaLinked(ir: IRProgram, cx: Cx, lamn: nat, funcs: seq<IRFunc>, lname: string, params: List<Param>, ret: Ty,
                     body: List<Stmt>, caps: seq<string>, capTys: seq<IRType>)
    requires |caps| == |capTys|
    requires Linked(LowerLambda(cx, lamn, funcs, lname, params, ret, body, caps, capTys).1, ir)
    ensures var ls := LambdaBody(cx, lamn, funcs, lname, params, body, caps, capTys);
            lname in ir && ir[lname] == Finish(ls, ret).b.fn && Linked(ls.funcs, ir)
  {
    hide Extends, LambdaEntry, LowerStmts;
    var ls := LambdaBody(cx, lamn, funcs, lname, params, body, caps, capTys);
    var f := Finish(ls, ret).b.fn;
    var all := ls.funcs + [f];
    assert all[|ls.funcs|] == f;
    forall i | 0 <= i < |ls.funcs| ensures ls.funcs[i].name in ir && ir[ls.funcs[i].name] == ls.funcs[i] {
      assert all[i] == ls.funcs[i];
    }
    var cx1 := cx.(captured := CapturedSs(body));
    var (ls1, vs1) := LambdaEntry(cx1, lamn, funcs, lname, params, caps, capTys);
    var ls0 := LS(NewBuilder(lname, Cons(IRParam("__env", ENV_TY), IrParams(params))), 0, lamn, funcs, false);
    EntryGrows(cx1, lamn, funcs, lname, params, caps, capTys);
    StmtsGrows(cx1, ls1, vs1, body);
    FinishGrows(ls, ret);
    Trans(ls0, ls1, ls);
    Trans(ls0, ls, Finish(ls, ret));
    GrowsSignature(ls0, Finish(ls, ret));
  }

  // ----- the whole literal -----

  lemma SimFunc(k: Act, fuel: nat, cx: Cx, ls: LS, vs: Scope, w: World, rg: Regs, env: int, vars: map<nat, string>,
                e: Expr)
    returns (w2: World, rg2: Regs, m: MVal, n: nat)
    requires e.EFunc? && Ready(k, cx, ls, vs, w, rg, env, vars)
    requires Able(k, cx, vs, w, env, CapturedE(e), LowerExpr(cx, ls, vs, e).0)
    requires OkE(k.code.src.Keys, vs.Keys, cx.chk, e)
    ensures ExprSim(k, ls, LowerExpr(cx, ls, vs, e), I.Eval(k.code.prog(), fuel, w.st, env, cx.chk, e), fuel, w, rg,
                    w2, rg2, m, n)
  {
    hide Emit, StepN, Step, Exec, FuncAt, LamAt, CodeIn, Linked, Extends, Grows, LowerExpr, OkE, Live, Inv, MakeEnv,
         LowerLambda, CapTypes, Moves, RegsKept, CapturedE, ScopeRel, EnvRel, I.Eval, Settled, SortedNames, LambdaFree;
    EvalFunc(k.code.prog(), fuel, w.st, env, cx.chk, e);
    LowerLiteral(cx, ls, vs, e);
    var (r1, r3, i) := Literal(cx, ls, vs, e);
    var lname := LambdaName(cx.mod, r1.0.lamn + 1);
    LiteralLifted(k, cx, ls, vs, e, w, rg, env, vars);
    CapsInBoxes(k, cx, ls, vs, w, rg, env, vars, LambdaFree(e.params, e.fbody));
    LiteralPlaced(k, cx, ls, vs, e);
    var n1;
    rg2, n1 := RunMakeEnv(k, ls, vs, w, env, i.caps, rg);
    w2 := WithEnv(w, env, i.caps);
    ReadyInv(k, cx, ls, vs, w, rg, env, vars);
    EnvMade(k.code, w, env, vs, rg, ls.b.tc, i.caps);
    m := MClo(lname, EnvVal(w, i.caps));
    var ty := TyOf(TFunc(ParamTypes(e.params), e.ret));
    var ls1 := r1.0.(lamn := r1.0.lamn + 1);
    ExecClosure(k, ls1.b.tc, lname, r1.1, HereFrame(k, ls1.b, rg2), w2.heap);
    assert At(k, r1.0.b, rg2, w2.heap) == At(k, ls1.b, rg2, w2.heap);
    rg2 := AppendTmp(k, ls, ls1, ty, IMakeClosure(ls1.b.tc, lname, r1.1), w, rg, w2, rg2, n1, m);
    n := n1 + 1;
    var v := I.VClo(e.params, e.ret, e.fbody, env);
    assert CloRel(k.code, w2, v, m, i);
    assert w2.st == w.st;
    ClosureSim(k, ls, r3, LowerExpr(cx, ls, vs, e), v, fuel, w, rg, w2, rg2, m, n, env, i);
  }

  lemma ClosureSim(k: Act, ls: LS, r3: (LS, IVal), r: (LS, IVal), v: I.Value, fuel: nat, w: World, rg: Regs, w2: World,
                   rg2: Regs,
                   m: MVal, n: nat, env: int, i: LamInfo)
    requires r == (r3.0.(lamn := r.0.lamn, funcs := r.0.funcs, refused := r.0.refused), r3.1)
    requires ExprDone(k, ls, r3, w, rg, w2, rg2, m) && StepN(k.code.ir, At(k, ls.b, rg, w.heap), n) == At(k, r3.0.b, rg2, w2.heap)
    requires v.VClo? && v.env == env && 0 <= env < |w2.st.envs| && m.MClo? && CloRel(k.code, w2, v, m, i) && w2.st == w.st
    ensures ExprSim(k, ls, r, I.Ok(v, w.st), fuel, w, rg, w2, rg2, m, n)
  {
    hide StepN, LamAt, FuncAt, Inv, Moves, RegsKept;
  }

  lemma EvalFunc(p: I.Program, fuel: nat, st: I.Store, env: int, chk: bool, e: Expr)
    requires e.EFunc?
    ensures I.Eval(p, fuel, st, env, chk, e) == I.Ok(I.VClo(e.params, e.ret, e.fbody, env), st)
    ensures CapturedE(e) == LambdaFree(e.params, e.fbody)
  {
  }

  lemma ReadyInv(k: Act, cx: Cx, ls: LS, vs: Scope, w: World, rg: Regs, env: int, vars: map<nat, string>)
    requires Ready(k, cx, ls, vs, w, rg, env, vars)
    ensures Inv(k.code, w) && 0 <= env < |w.st.envs| && !CurTerminated(ls.b)
  {
    hide LamAt, FuncAt, Live, Inv;
  }

  lemma ExecClosure(k: Act, dst: nat, fn: string, v: IVal, fr: Frame, heap: seq<HObj>)
    requires ValOf(fr.rg, v).Some?
    ensures Exec(k.code.ir, IMakeClosure(dst, fn, v), fr, k.rest, heap)
         == Run(Next(fr, SetTemp(fr.rg, dst, MClo(fn, ValOf(fr.rg, v).value))), k.rest, heap)
  {
  }

  lemma LiteralPlaced(k: Act, cx: Cx, ls: LS, vs: Scope, e: Expr)
    requires e.EFunc? && Placed(k, LowerExpr(cx, ls, vs, e).0)
    ensures var (r1, r3, i) := Literal(cx, ls, vs, e);
            Placed(k, r1.0) && Placed(k, r3.0) && Grows(ls, r1.0) && Grows(ls, r1.0.(lamn := r1.0.lamn + 1))
  {
    hide LowerExpr, MakeEnv, LowerLambda, Extends, CodeIn, Linked, CapTypes;
    LowerLiteral(cx, ls, vs, e);
    var (r1, r3, i) := Literal(cx, ls, vs, e);
    var lname := LambdaName(cx.mod, r1.0.lamn + 1);
    LambdaGrows(cx, i.lamn, i.funcs, lname, i.params, i.ret, i.body, i.caps, i.capTys);
    GrowsRest(r3.0, LowerExpr(cx, ls, vs, e).0);
    PlacedEarlier(k, r3.0, LowerExpr(cx, ls, vs, e).0);
    MakeEnvGrows(ls, vs, i.caps);
    var ls1 := r1.0.(lamn := r1.0.lamn + 1);
    GrowsRest(r1.0, ls1);
    Trans(ls, r1.0, ls1);
    TmpPutGrows(ls1, TyOf(TFunc(ParamTypes(e.params), e.ret)), IMakeClosure(ls1.b.tc, lname, r1.1));
    Trans(r1.0, ls1, r3.0);
    PlacedEarlier(k, r1.0, r3.0);
  }

  lemma GrowsRest(a: LS, b: LS)
    requires b == a.(lamn := b.lamn, funcs := b.funcs, refused := b.refused) && a.lamn <= b.lamn && a.funcs <= b.funcs
    ensures Grows(a, b)
  {
    GrowsRefl(a);
  }
}
