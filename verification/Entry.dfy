// Entering a function: the interpreter binds arguments to fresh cells; the
// machine reads the captured boxes out of the environment array and boxes the
// parameters closures capture.
module Entry {
  import opened Numeric
  import opened Syntax
  import opened Ir
  import opened Names
  import opened Lowering
  import opened Machine
  import opened Growth
  import opened Relation
  import opened Steps
  import opened SimBase
  import I = Interp

  ghost predicate VRels(code: Code, w: World, vs: seq<I.Value>, ms: seq<MVal>) {
    |vs| == |ms| && forall i :: 0 <= i < |vs| ==> VRel(code, w, vs[i], ms[i])
  }

  // ----- the interpreter's side -----

  // What binding parameters does to the store.
  ghost predicate Bound(st: I.Store, st2: I.Store, env: int, ps: List<Param>) {
    && 0 <= env < |st.envs| == |st2.envs|
    && (forall e :: 0 <= e < |st.envs| && e != env ==> st2.envs[e] == st.envs[e])
    && st2.envs[env].parent == st.envs[env].parent
    && |st.cells| <= |st2.cells| && st2.cells[..|st.cells|] == st.cells
    && (forall x :: x in st2.envs[env].vars <==> x in st.envs[env].vars || x in ParamNames(ps))
    && (forall x :: x in ParamNames(ps) ==> |st.cells| <= st2.envs[env].vars[x] < |st2.cells|)
    && (forall x :: x in st.envs[env].vars && x !in ParamNames(ps) ==> st2.envs[env].vars[x] == st.envs[env].vars[x])
    && (forall x, y :: x in ParamNames(ps) && y in ParamNames(ps) && x != y ==>
          st2.envs[env].vars[x] != st2.envs[env].vars[y])
  }

  lemma {:induction false} BindBound(st: I.Store, env: int, ps: List<Param>, vals: seq<I.Value>)
    requires 0 <= env < |st.envs| && DistinctParams(ps)
    requires I.BindParams(st, env, ps, vals).Some?
    ensures Bound(st, I.BindParams(st, env, ps, vals).value, env, ps)
    ensures |vals| == Length(ps)
    decreases ps
  {
    match ps
    case Nil =>
    case Cons(p, rest) =>
      assert vals != [];
      var st1 := I.Define(st, env, p.name, vals[0], true);
      BindBound(st1, env, rest, vals[1..]);
      var st2 := I.BindParams(st, env, ps, vals).value;
      assert st2.cells[..|st.cells|] == st.cells by {
        assert st2.cells[..|st1.cells|][..|st.cells|] == st1.cells[..|st.cells|] == st.cells;
      }
      assert st2.envs[env].vars[p.name] == |st.cells|;
  }

  // Each parameter's cell and local hold related values.
  lemma {:induction false} BindValues(code: Code, w: World, st: I.Store, env: int, ps: List<Param>, vals: seq<I.Value>,
                                      ms: seq<MVal>)
    requires 0 <= env < |st.envs| && DistinctParams(ps)
    requires I.BindParams(st, env, ps, vals).Some? && VRels(code, w, vals, ms) && |ms| == Length(ps)
    ensures var st2 := I.BindParams(st, env, ps, vals).value;
            Bound(st, st2, env, ps) && forall x :: x in ParamNames(ps) ==>
              && x in BindArgs(IrParams(ps), ms)
              && VRel(code, w, st2.cells[st2.envs[env].vars[x]].value, BindArgs(IrParams(ps), ms)[x])
    decreases ps
  {
    hide LamAt, FuncAt;
    BindBound(st, env, ps, vals);
    match ps
    case Nil =>
    case Cons(p, rest) =>
      var st1 := I.Define(st, env, p.name, vals[0], true);
      var st2 := I.BindParams(st, env, ps, vals).value;
      BindBound(st1, env, rest, vals[1..]);
      BindValues(code, w, st1, env, rest, vals[1..], ms[1..]);
      assert st2.envs[env].vars[p.name] == |st.cells|;
      assert st2.cells[|st.cells|] == st2.cells[..|st1.cells|][|st.cells|] == st1.cells[|st.cells|];
      assert VRel(code, w, vals[0], ms[0]);
  }

  // The world once the parameters are bound, before any of them is boxed.
  function EnteredWorld(w: World, st2: I.Store, body: List<Stmt>): World {
    World(st2, w.boxes, w.later + [Decls(body)], w.heap)
  }

  lemma EnterWorld(code: Code, w: World, f: I.Value, vals: seq<I.Value>)
    requires Inv(code, w) && f.VClo? && -1 <= f.env < |w.st.envs| && DistinctParams(f.params) && OkParams(code.src.Keys, f.params)
    requires I.BindParams(I.NewEnv(w.st, f.env), |w.st.envs|, f.params, vals).Some?
    ensures var w2 := EnteredWorld(w, I.BindParams(I.NewEnv(w.st, f.env), |w.st.envs|, f.params, vals).value, f.body);
            Inv(code, w2) && Moves(w, w2, {}, -1)
  {
    hide LamAt, FuncAt;
    var st1 := I.NewEnv(w.st, f.env);
    var st2 := I.BindParams(st1, |w.st.envs|, f.params, vals).value;
    BindBound(st1, |w.st.envs|, f.params, vals);
    var w2 := EnteredWorld(w, st2, f.body);
    forall c | 0 <= c < |w.st.cells| ensures st2.cells[c] == w.st.cells[c] {
      assert st2.cells[c] == st2.cells[..|st1.cells|][c];
    }
    forall e | 0 <= e < |w.st.envs| ensures w2.st.envs[e] == w.st.envs[e] {
      assert st1.envs[e] == w.st.envs[e];
    }
    assert Moves(w, w2, {}, -1);
    ParamsNotGlobal(code.src.Keys, f.params);
    forall c | c in w.boxes ensures BoxRel(code, w2, c) {
      assert BoxRel(code, w, c);
      VRelKept(code, w, w2, w.st.cells[c].value, w.heap[w.boxes[c]].v);
    }
  }

  lemma {:induction false} ParamsNotGlobal(g: set<string>, ps: List<Param>)
    requires OkParams(g, ps)
    ensures ParamNames(ps) !! g
    ensures forall x :: x in ParamNames(ps) ==> Stamp(x) == 0 && x != "__env"
    decreases ps
  {
    match ps
    case Nil =>
    case Cons(p, rest) => ParamsNotGlobal(g, rest);
  }

  // ----- boxes -----

  // Code that allocates a box and stores a value.
  lemma RunMakeBox(k: Act, ls: LS, ty: IRType, v: IVal, rg: Regs, heap: seq<HObj>, m: MVal)
    requires !CurTerminated(ls.b) && Placed(k, MakeBox(ls, ty, v).0)
    requires ValOf(rg, v) == Some(m) && Steady(v, ls.b.tc, ls.uq)
    ensures StepN(k.code.ir, At(k, ls.b, rg, heap), 2)
         == At(k, MakeBox(ls, ty, v).0.b, SetTemp(rg, ls.b.tc, MBox(|heap|)), heap + [HBox(m)])
    ensures !CurTerminated(MakeBox(ls, ty, v).0.b)
    ensures RegsKept(rg, SetTemp(rg, ls.b.tc, MBox(|heap|)), ls.b.tc, ls.uq, {})
  {
    hide Emit, StepN, Step, LamAt, FuncAt, Extends;
    var (ls1, t) := Tmp(ls, Ptr(ty));
    var ls2 := Put(ls1, IAlloc(t.id));
    var st := IAssign(PDeref(t), v);
    PutGrows(ls2, st);
    PlacedEarlier(k, ls2, Put(ls2, st));
    var rg2 := SetTemp(rg, ls.b.tc, MBox(|heap|));
    Fetch(k, ls1, IAlloc(t.id), rg, heap);
    assert At(k, ls.b, rg, heap) == At(k, ls1.b, rg, heap);
    NoSteps(k.code.ir, At(k, ls.b, rg, heap));
    OneMore(k.code.ir, At(k, ls.b, rg, heap), 0, At(k, ls1.b, rg, heap));
    Fetch(k, ls2, st, rg2, heap + [HBox(MNull)]);
    assert (heap + [HBox(MNull)])[|heap| := HBox(m)] == heap + [HBox(m)];
    assert ValOf(rg2, v) == Some(m);
    OneMore(k.code.ir, At(k, ls.b, rg, heap), 1, At(k, ls2.b, rg2, heap + [HBox(MNull)]));
  }

  function Boxing(w: World, c: nat, m: MVal): World {
    w.(boxes := w.boxes[c := |w.heap|], heap := w.heap + [HBox(m)])
  }

  // A cell moves into a new box.
  lemma BoxCell(code: Code, w: World, c: nat, m: MVal)
    requires Inv(code, w) && c < |w.st.cells| && c !in w.boxes && VRel(code, w, w.st.cells[c].value, m)
    ensures Evolves(w, Boxing(w, c, m)) && Inv(code, Boxing(w, c, m))
  {
    hide LamAt, FuncAt;
    var w2 := Boxing(w, c, m);
    forall d | d in w2.boxes ensures BoxRel(code, w2, d) {
      if d == c {
        VRelKept(code, w, w2, w.st.cells[c].value, m);
      } else {
        assert BoxRel(code, w, d);
        VRelKept(code, w, w2, w.st.cells[d].value, w.heap[w.boxes[d]].v);
      }
    }
    forall d, e | d in w2.boxes && e in w2.boxes && d != e ensures w2.boxes[d] != w2.boxes[e] {
      assert d in w.boxes ==> BoxRel(code, w, d);
      assert e in w.boxes ==> BoxRel(code, w, e);
    }
  }

  // ----- parameters -----

  // Parameters not yet placed: their cells are unboxed and their locals hold them.
  ghost predicate Pending(code: Code, w: World, env: int, ps: List<Param>, vars: map<nat, string>, rg: Regs,
                          base: nat) {
    && 0 <= env < |w.st.envs|
    && (forall x :: x in ParamNames(ps) ==> x in w.st.envs[env].vars && PendingOne(code, w, x, w.st.envs[env].vars[x], vars, rg, base))
    && (forall x, y :: x in ParamNames(ps) && y in ParamNames(ps) && x != y ==>
          w.st.envs[env].vars[x] != w.st.envs[env].vars[y])
  }

  ghost predicate PendingOne(code: Code, w: World, x: string, c: nat, vars: map<nat, string>, rg: Regs, base: nat) {
    && base <= c < |w.st.cells| && c !in w.boxes && c !in vars && x !in vars.Values
    && Stamp(x) == 0 && x in rg.locals && VRel(code, w, w.st.cells[c].value, rg.locals[x])
  }

  lemma {:induction false} RunParams(k: Act, cx: Cx, ls: LS, vs: Scope, ps: List<Param>, w0: World, w: World, rg: Regs,
                                     env: int, vars: map<nat, string>)
    returns (w2: World, rg2: Regs, vars2: map<nat, string>, n: nat)
    requires Ready(k, cx, ls, vs, w, rg, env, vars) && DistinctParams(ps)
    requires Pending(k.code, w, env, ps, vars, rg, |w0.st.cells|) && Moves(w0, w, {}, -1)
    requires forall c :: c in vars ==> c >= |w0.st.cells|
    requires Placed(k, BindParams(cx, ls, ps, vs).0)
    ensures var r := BindParams(cx, ls, ps, vs);
            && Ready(k, cx, r.0, r.1, w2, rg2, env, vars2)
            && r.1.Keys == vs.Keys + ParamNames(ps)
            && StepN(k.code.ir, At(k, ls.b, rg, w.heap), n) == At(k, r.0.b, rg2, w2.heap)
    ensures Moves(w0, w2, {}, -1) && w2.st == w.st && w2.later == w.later && Evolves(w, w2)
    ensures forall c :: c in vars2 ==> c >= |w0.st.cells|
    decreases ps
  {
    hide StepN, Step, Exec, LamAt, FuncAt, Extends, Grows, CodeIn, Linked, Inv, Live, ScopeRel, Evolves;
    w2, rg2, vars2, n := w, rg, vars, 0;
    EvolvesRefl(w0, w);
    match ps
    case Nil =>
      NoSteps(k.code.ir, At(k, ls.b, rg, w.heap));
    case Cons(p, rest) =>
      var c := w.st.envs[env].vars[p.name];
      assert PendingOne(k.code, w, p.name, c, vars, rg, |w0.st.cells|);
      var arg := Local(p.name, TyOf(p.ty));
      if p.name in cx.captured {
        var (ls1, box) := MakeBox(ls, TyOf(p.ty), arg);
        BindParamsGrows(cx, ls1, rest, vs[p.name := box]);
        PlacedEarlier(k, ls1, BindParams(cx, ls1, rest, vs[p.name := box]).0);
        var w1, rg1 := RunBoxParam(k, cx, ls, vs, p, rest, w0, w, rg, env, vars);
        w2, rg2, vars2, n := RunParams(k, cx, ls1, vs[p.name := box], rest, w0, w1, rg1, env, vars);
        Chain(k.code.ir, At(k, ls.b, rg, w.heap), 2, At(k, ls1.b, rg1, w1.heap), n);
        n := n + 2;
        EvolvesTrans(w, w1, w2);
      } else {
        PlaceParam(k, cx, ls, vs, p, rest, w0, w, rg, env, vars);
        w2, rg2, vars2, n := RunParams(k, cx, ls, vs[p.name := arg], rest, w0, w, rg, env, vars[c := p.name]);
      }
  }

  lemma EvolvesRefl(w0: World, w: World)
    requires Moves(w0, w, {}, -1)
    ensures Evolves(w, w)
  {
  }

  lemma EvolvesTrans(a: World, b: World, c: World)
    requires Evolves(a, b) && Evolves(b, c)
    ensures Evolves(a, c)
  {
    forall e | 0 <= e < |a.st.envs| ensures EnvMoves(a.st.envs[e], c.st.envs[e], a.later[e], c.later[e]) {
      assert EnvMoves(a.st.envs[e], b.st.envs[e], a.later[e], b.later[e]);
      assert EnvMoves(b.st.envs[e], c.st.envs[e], b.later[e], c.later[e]);
    }
    forall k | 0 <= k < |a.heap|
      ensures (a.heap[k].HEnv? ==> c.heap[k] == a.heap[k]) && (a.heap[k].HBox? ==> c.heap[k].HBox?)
    {
      assert a.heap[k].HEnv? ==> b.heap[k] == a.heap[k];
      assert a.heap[k].HBox? ==> b.heap[k].HBox?;
    }
  }

  // The other variables of the frame and the parameters still to come.
  lemma PlacedLive(k: Act, p: Param, rest: List<Param>, w: World, rg: Regs, env: int, vars: map<nat, string>, uq: nat,
                   low: nat)
    requires Live(k.code, w, vars, rg, uq) && DistinctParams(Cons(p, rest)) && 0 <= env < |w.st.envs|
    requires Pending(k.code, w, env, Cons(p, rest), vars, rg, low)
    ensures var c := w.st.envs[env].vars[p.name];
            Live(k.code, w, vars[c := p.name], rg, uq) && Pending(k.code, w, env, rest, vars[c := p.name], rg, low) && c >= low
  {
    hide LamAt, FuncAt, VRel;
    var c := w.st.envs[env].vars[p.name];
    assert PendingOne(k.code, w, p.name, c, vars, rg, low);
    var vars2 := vars[c := p.name];
    forall d | d in vars2 ensures LiveCell(k.code, w, d, vars2[d], rg, uq) {
      if d != c { assert LiveCell(k.code, w, d, vars[d], rg, uq); }
    }
    forall x | x in ParamNames(rest) ensures PendingOne(k.code, w, x, w.st.envs[env].vars[x], vars2, rg, low) {
      assert PendingOne(k.code, w, x, w.st.envs[env].vars[x], vars, rg, low);
    }
  }

  // A parameter no closure captures stays in its own local.
  lemma PlaceParam(k: Act, cx: Cx, ls: LS, vs: Scope, p: Param, rest: List<Param>, w0: World, w: World, rg: Regs,
                   env: int,
                   vars: map<nat, string>)
    requires Ready(k, cx, ls, vs, w, rg, env, vars) && DistinctParams(Cons(p, rest)) && p.name !in cx.captured
    requires Pending(k.code, w, env, Cons(p, rest), vars, rg, |w0.st.cells|)
    ensures var c := w.st.envs[env].vars[p.name];
            && Ready(k, cx, ls, vs[p.name := Local(p.name, TyOf(p.ty))], w, rg, env, vars[c := p.name])
            && Pending(k.code, w, env, rest, vars[c := p.name], rg, |w0.st.cells|)
            && c >= |w0.st.cells|
  {
    hide LamAt, FuncAt, VRel, Inv;
    var c := w.st.envs[env].vars[p.name];
    PlacedLive(k, p, rest, w, rg, env, vars, ls.uq, |w0.st.cells|);
    assert PendingOne(k.code, w, p.name, c, vars, rg, |w0.st.cells|);
    var vars2 := vars[c := p.name];
    var vs2 := vs[p.name := Local(p.name, TyOf(p.ty))];
    forall x | x in vs2
      ensures I.Lookup(w.st.envs, env, x).Some? && NameAt(w, I.Lookup(w.st.envs, env, x).value, vs2[x], vars2, rg, ls.b.tc)
    {
      if x != p.name { assert x in vs; }
    }
  }

  lemma RunBoxParam(k: Act, cx: Cx, ls: LS, vs: Scope, p: Param, rest: List<Param>, w0: World, w: World, rg: Regs,
                    env: int, vars: map<nat, string>)
    returns (w1: World, rg1: Regs)
    requires Ready(k, cx, ls, vs, w, rg, env, vars) && DistinctParams(Cons(p, rest))
    requires Pending(k.code, w, env, Cons(p, rest), vars, rg, |w0.st.cells|) && Moves(w0, w, {}, -1)
    requires Placed(k, MakeBox(ls, TyOf(p.ty), Local(p.name, TyOf(p.ty))).0)
    ensures var (ls1, box) := MakeBox(ls, TyOf(p.ty), Local(p.name, TyOf(p.ty)));
            && StepN(k.code.ir, At(k, ls.b, rg, w.heap), 2) == At(k, ls1.b, rg1, w1.heap)
            && Ready(k, cx, ls1, vs[p.name := box], w1, rg1, env, vars)
    ensures Pending(k.code, w1, env, rest, vars, rg1, |w0.st.cells|) && Moves(w0, w1, {}, -1)
    ensures w1.st == w.st && w1.later == w.later && Evolves(w, w1)
  {
    hide StepN, Step, Exec, LamAt, FuncAt, Extends, CodeIn, Linked;
    var c := w.st.envs[env].vars[p.name];
    assert PendingOne(k.code, w, p.name, c, vars, rg, |w0.st.cells|);
    var arg := Local(p.name, TyOf(p.ty));
    var (ls1, box) := MakeBox(ls, TyOf(p.ty), arg);
    var m := rg.locals[p.name];
    RunMakeBox(k, ls, TyOf(p.ty), arg, rg, w.heap, m);
    BoxCell(k.code, w, c, m);
    w1, rg1 := Boxing(w, c, m), SetTemp(rg, ls.b.tc, MBox(|w.heap|));
    ScopeBoxed(k, cx, ls, ls1, vs, w, rg, env, vars, p.name, c, box, w1, rg1);
    PendingBoxed(k.code, w, w1, env, p, rest, vars, rg, rg1, |w0.st.cells|, m);
    MovesBoxed(w0, w, w1, c, m);
  }

  lemma MovesBoxed(w0: World, w: World, w1: World, c: nat, m: MVal)
    requires Moves(w0, w, {}, -1) && w1 == Boxing(w, c, m) && Evolves(w, w1) && c >= |w0.st.cells|
    ensures Moves(w0, w1, {}, -1)
  {
    EvolvesTrans(w0, w, w1);
  }

  lemma PendingBoxed(code: Code, w: World, w1: World, env: int, p: Param, rest: List<Param>, vars: map<nat, string>,
                     rg: Regs, rg1: Regs, base: nat, m: MVal)
    requires Pending(code, w, env, Cons(p, rest), vars, rg, base) && DistinctParams(Cons(p, rest))
    requires w1 == Boxing(w, w.st.envs[env].vars[p.name], m) && Evolves(w, w1) && rg1.locals == rg.locals
    ensures Pending(code, w1, env, rest, vars, rg1, base)
  {
    hide LamAt, FuncAt;
    forall x | x in ParamNames(rest) ensures PendingOne(code, w1, x, w1.st.envs[env].vars[x], vars, rg1, base) {
      assert PendingOne(code, w, x, w.st.envs[env].vars[x], vars, rg, base);
      VRelKept(code, w, w1, w.st.cells[w.st.envs[env].vars[x]].value, rg.locals[x]);
    }
  }

  // The scope after a name of the current environment has been boxed.
  lemma ScopeBoxed(k: Act, cx: Cx, ls: LS, ls1: LS, vs: Scope, w: World, rg: Regs, env: int, vars: map<nat, string>,
                   x: string, c: nat, box: IVal, w1: World, rg1: Regs)
    requires Ready(k, cx, ls, vs, w, rg, env, vars)
    requires x in w.st.envs[env].vars && w.st.envs[env].vars[x] == c && c !in vars && c !in w.boxes
    requires w1.st == w.st && w1.boxes == w.boxes[c := |w.heap|] && Inv(k.code, w1) && Evolves(w, w1)
    requires rg1 == SetTemp(rg, ls.b.tc, MBox(|w.heap|)) && Boxed(box) && box.Temp? && box.id == ls.b.tc
    requires !CurTerminated(ls1.b) && ls1.b.tc > ls.b.tc && ls1.uq >= ls.uq
    ensures Ready(k, cx, ls1, vs[x := box], w1, rg1, env, vars)
  {
    hide BoxRel, BoxesOk, LamAt, FuncAt;
    forall d | d in vars ensures LiveCell(k.code, w1, d, vars[d], rg1, ls1.uq) {
      assert LiveCell(k.code, w, d, vars[d], rg, ls.uq);
      VRelKept(k.code, w, w1, w.st.cells[d].value, rg.locals[vars[d]]);
    }
    var vs2 := vs[x := box];
    forall y | y in vs2
      ensures I.Lookup(w1.st.envs, env, y).Some? && NameAt(w1, I.Lookup(w1.st.envs, env, y).value, vs2[y], vars, rg1, ls1.b.tc)
    {
      if y != x { assert y in vs; }
    }
  }

  // ----- captured names -----

  // A name found in a box whose address a new temp holds.
  lemma ScopeLoaded(k: Act, cx: Cx, ls: LS, ls1: LS, vs: Scope, w: World, rg: Regs, env: int, vars: map<nat, string>,
                    x: string, c: nat, ptr: IVal)
    requires Ready(k, cx, ls, vs, w, rg, env, vars)
    requires I.Lookup(w.st.envs, env, x) == Some(c) && c in w.boxes
    requires Boxed(ptr) && ptr.Temp? && ptr.id == ls.b.tc
    requires !CurTerminated(ls1.b) && ls1.b.tc > ls.b.tc && ls1.uq >= ls.uq
    ensures Ready(k, cx, ls1, vs[x := ptr], w, SetTemp(rg, ls.b.tc, MBox(w.boxes[c])), env, vars)
  {
    hide LamAt, FuncAt, Inv;
    var rg1 := SetTemp(rg, ls.b.tc, MBox(w.boxes[c]));
    forall d | d in vars ensures LiveCell(k.code, w, d, vars[d], rg1, ls1.uq) {
      assert LiveCell(k.code, w, d, vars[d], rg, ls.uq);
    }
    var vs2 := vs[x := ptr];
    forall y | y in vs2
      ensures I.Lookup(w.st.envs, env, y).Some? && NameAt(w, I.Lookup(w.st.envs, env, y).value, vs2[y], vars, rg1, ls1.b.tc)
    {
      if y != x { assert y in vs; }
    }
  }

  // One captured name: the box read out of the environment array.
  lemma LoadOne(k: Act, cx: Cx, ls: LS, caps: seq<string>, capTys: seq<IRType>, i: nat, vs: Scope, w: World, rg: Regs,
                env: int, fenv: int)
    returns (rg1: Regs)
    requires i < |caps| == |capTys| && Ready(k, cx, ls, vs, w, rg, env, map[])
    requires "__env" in rg.locals && EnvRel(w, fenv, caps, rg.locals["__env"])
    requires I.Lookup(w.st.envs, env, caps[i]) == Settled(w, fenv, caps[i])
    requires var (ls1, ptr) := Tmp(ls, Ptr(capTys[i])); Placed(k, Put(ls1, IEnvLoad(ptr.id, Local("__env", ENV_TY), i)))
    ensures var (ls1, ptr) := Tmp(ls, Ptr(capTys[i]));
            var ls2 := Put(ls1, IEnvLoad(ptr.id, Local("__env", ENV_TY), i));
            && StepN(k.code.ir, At(k, ls.b, rg, w.heap), 1) == At(k, ls2.b, rg1, w.heap)
            && Ready(k, cx, ls2, vs[caps[i] := ptr], w, rg1, env, map[])
    ensures rg1.locals == rg.locals
  {
    hide StepN, Step, Exec, LamAt, FuncAt, Extends, Grows, CodeIn, Linked, Inv, Live, ScopeRel, Settled, RegsKept,
         CodeOk;
    var (ls1, ptr) := Tmp(ls, Ptr(capTys[i]));
    var ins := IEnvLoad(ptr.id, Local("__env", ENV_TY), i);
    assert SlotRel(w, fenv, caps[i], w.heap[rg.locals["__env"].addr].slots[i]);
    var c := Settled(w, fenv, caps[i]).value;
    ExecEnvLoad(k, ls.b.tc, i, HereFrame(k, ls.b, rg), w.heap);
    RunTmp(k, ls, Ptr(capTys[i]), ins, rg, w.heap, MBox(w.boxes[c]));
    ScopeLoaded(k, cx, ls, Put(ls1, ins), vs, w, rg, env, map[], caps[i], c, ptr);
    NoSteps(k.code.ir, At(k, ls.b, rg, w.heap));
    OneMore(k.code.ir, At(k, ls.b, rg, w.heap), 0, At(k, ls.b, rg, w.heap));
    rg1 := SetTemp(rg, ls.b.tc, MBox(w.boxes[c]));
  }

  lemma {:induction false} RunCaps(k: Act, cx: Cx, ls: LS, caps: seq<string>, capTys: seq<IRType>, i: nat, vs: Scope,
                                   w: World, rg: Regs, env: int, fenv: int)
    returns (rg2: Regs, n: nat)
    requires i <= |caps| == |capTys|
    requires Ready(k, cx, ls, vs, w, rg, env, map[])
    requires "__env" in rg.locals && EnvRel(w, fenv, caps, rg.locals["__env"])
    requires forall j :: 0 <= j < |caps| ==> I.Lookup(w.st.envs, env, caps[j]) == Settled(w, fenv, caps[j])
    requires Placed(k, LoadCaps(ls, caps, capTys, i, vs).0)
    ensures var r := LoadCaps(ls, caps, capTys, i, vs);
            && Ready(k, cx, r.0, r.1, w, rg2, env, map[])
            && r.1.Keys == vs.Keys + (set x | x in caps[i..])
            && StepN(k.code.ir, At(k, ls.b, rg, w.heap), n) == At(k, r.0.b, rg2, w.heap)
    ensures rg2.locals == rg.locals
    decreases |caps| - i
  {
    hide StepN, Step, Exec, LamAt, FuncAt, Extends, Grows, CodeIn, Linked, Inv, Live, ScopeRel, LoadCaps, Settled,
         EnvRel, Ready, RegsKept, CodeOk, Placed;
    rg2, n := rg, 0;
    NoSteps(k.code.ir, At(k, ls.b, rg, w.heap));
    if i < |caps| {
      var (ls1, ptr) := Tmp(ls, Ptr(capTys[i]));
      var ins := IEnvLoad(ptr.id, Local("__env", ENV_TY), i);
      var ls2 := Put(ls1, ins);
      CapsStep(k, ls, caps, capTys, i, vs);
      var rg1 := LoadOne(k, cx, ls, caps, capTys, i, vs, w, rg, env, fenv);
      rg2, n := RunCaps(k, cx, ls2, caps, capTys, i + 1, vs[caps[i] := ptr], w, rg1, env, fenv);
      Chain(k.code.ir, At(k, ls.b, rg, w.heap), 1, At(k, ls2.b, rg1, w.heap), n);
      n := n + 1;
      SetDrop(caps, i);
    } else {
      CapsDone(ls, caps, capTys, vs);
    }
  }

  lemma SetDrop(caps: seq<string>, i: nat)
    requires i < |caps|
    ensures var rest := caps[i + 1..]; (set x | x in caps[i..]) == {caps[i]} + (set x | x in rest)
  {
    assert caps[i..] == [caps[i]] + caps[i + 1..];
  }

  lemma CapsDone(ls: LS, caps: seq<string>, capTys: seq<IRType>, vs: Scope)
    requires |caps| == |capTys|
    ensures LoadCaps(ls, caps, capTys, |caps|, vs) == (ls, vs)
    ensures (set x | x in caps[|caps|..]) == {}
  {
  }

  lemma CapsStep(k: Act, ls: LS, caps: seq<string>, capTys: seq<IRType>, i: nat, vs: Scope)
    requires i < |caps| == |capTys|
    requires Placed(k, LoadCaps(ls, caps, capTys, i, vs).0)
    ensures var (ls1, ptr) := Tmp(ls, Ptr(capTys[i]));
            var ls2 := Put(ls1, IEnvLoad(ptr.id, Local("__env", ENV_TY), i));
            LoadCaps(ls, caps, capTys, i, vs) == LoadCaps(ls2, caps, capTys, i + 1, vs[caps[i] := ptr]) && Placed(k, ls2)
  {
    hide Extends, CodeIn, Linked;
    var (ls1, ptr) := Tmp(ls, Ptr(capTys[i]));
    var ls2 := Put(ls1, IEnvLoad(ptr.id, Local("__env", ENV_TY), i));
    LoadCapsGrows(ls2, caps, capTys, i + 1, vs[caps[i] := ptr]);
    PlacedEarlier(k, ls2, LoadCaps(ls2, caps, capTys, i + 1, vs[caps[i] := ptr]).0);
  }

  lemma ExecEnvLoad(k: Act, dst: nat, i: nat, fr: Frame, heap: seq<HObj>)
    requires "__env" in fr.rg.locals && fr.rg.locals["__env"].MEnv?
    requires fr.rg.locals["__env"].addr < |heap| && heap[fr.rg.locals["__env"].addr].HEnv?
    requires i < |heap[fr.rg.locals["__env"].addr].slots|
    ensures Exec(k.code.ir, IEnvLoad(dst, Local("__env", ENV_TY), i), fr, k.rest, heap)
         == Run(Next(fr, SetTemp(fr.rg, dst, heap[fr.rg.locals["__env"].addr].slots[i])), k.rest, heap)
  {
  }

  // ----- the two kinds of function -----

  // Ready to run the body: `scope` are the names in scope.
  ghost predicate Entered(k: Act, cx: Cx, ls: LS, vs: Scope, w0: World, w: World, rg: Regs, env: int,
                          vars: map<nat, string>,
                          scope: set<string>, body: List<Stmt>)
  {
    && Ready(k, cx, ls, vs, w, rg, env, vars)
    && vs.Keys == scope
    && env == |w0.st.envs| && Moves(w0, w, {}, -1)
    && (forall c :: c in vars ==> c >= |w0.st.cells|)
    && w.later[env] == Decls(body)
    && SettledAbove(w, env, CapturedSs(body), vs)
  }

  // Starting registers, with the parameters still to be placed.
  lemma StartParams(code: Code, w: World, f: I.Value, vals: seq<I.Value>, ms: seq<MVal>, rg: Regs)
    requires Inv(code, w) && f.VClo? && -1 <= f.env < |w.st.envs| && DistinctParams(f.params) && OkParams(code.src.Keys, f.params)
    requires I.BindParams(I.NewEnv(w.st, f.env), |w.st.envs|, f.params, vals).Some?
    requires VRels(code, w, vals, ms) && |ms| == Length(f.params)
    requires forall x :: x in ParamNames(f.params) ==>
               x in rg.locals && x in BindArgs(IrParams(f.params), ms) && rg.locals[x] == BindArgs(IrParams(f.params), ms)[x]
    ensures var w2 := EnteredWorld(w, I.BindParams(I.NewEnv(w.st, f.env), |w.st.envs|, f.params, vals).value, f.body);
            Pending(code, w2, |w.st.envs|, f.params, map[], rg, |w.st.cells|)
  {
    hide LamAt, FuncAt;
    var st1 := I.NewEnv(w.st, f.env);
    var st2 := I.BindParams(st1, |w.st.envs|, f.params, vals).value;
    var w2 := EnteredWorld(w, st2, f.body);
    BindBound(st1, |w.st.envs|, f.params, vals);
    BindValues(code, w, st1, |w.st.envs|, f.params, vals, ms);
    EnterWorld(code, w, f, vals);
    ParamsNotGlobal(code.src.Keys, f.params);
    forall d | d in w.boxes ensures d < |w.st.cells| { assert BoxRel(code, w, d); }
    forall x | x in ParamNames(f.params)
      ensures PendingOne(code, w2, x, st2.envs[|w.st.envs|].vars[x], map[], rg, |w.st.cells|)
    {
      var c := st2.envs[|w.st.envs|].vars[x];
      VRelKept(code, w, w2, st2.cells[c].value, rg.locals[x]);
    }
  }

  lemma {:induction false} ArgsCover(ps: List<Param>, ms: seq<MVal>)
    requires |ms| == Length(ps)
    ensures BindArgs(IrParams(ps), ms).Keys == ParamNames(ps)
    decreases ps
  {
    match ps
    case Nil =>
    case Cons(_, rest) => ArgsCover(rest, ms[1..]);
  }

  lemma FinishPlaced(k: Act, ls: LS, ret: Ty)
    requires k.f == Finish(ls, ret).b.fn && Linked(ls.funcs, k.code.ir)
    ensures Placed(k, Finish(ls, ret)) && Placed(k, ls)
  {
    PutGrows(ls, IRet(ImmUnit));
    PutGrows(ls, IPanic);
    GrowsRefl(ls);
    PlacedEarlier(k, ls, Finish(ls, ret));
  }

  // ----- entering a lifted function literal -----

  lemma LambdaShape(code: Code, fn: string, i: LamInfo, dst: Option<nat>, rest: List<Frame>)
    requires LamAt(code, fn, i)
    ensures code.ir[fn].params == Cons(IRParam("__env", ENV_TY), IrParams(i.params))
    ensures var k := Act(code, code.ir[fn], dst, rest);
            var cx := i.cx.(captured := CapturedSs(i.body));
            var ls := LambdaEntry(cx, i.lamn, i.funcs, fn, i.params, i.caps, i.capTys).0;
            var body := LambdaBody(i.cx, i.lamn, i.funcs, fn, i.params, i.body, i.caps, i.capTys);
            Placed(k, ls) && Placed(k, body) && Placed(k, Finish(body, i.ret))
  {
    hide Extends, CodeIn;
    var k := Act(code, code.ir[fn], dst, rest);
    var cx := i.cx.(captured := CapturedSs(i.body));
    var (ls, vs) := LambdaEntry(cx, i.lamn, i.funcs, fn, i.params, i.caps, i.capTys);
    var body := LambdaBody(i.cx, i.lamn, i.funcs, fn, i.params, i.body, i.caps, i.capTys);
    FinishPlaced(k, body, i.ret);
    StmtsGrows(cx, ls, vs, i.body);
    PlacedEarlier(k, ls, body);
    EntryGrows(cx, i.lamn, i.funcs, fn, i.params, i.caps, i.capTys);
    var b := NewBuilder(fn, Cons(IRParam("__env", ENV_TY), IrParams(i.params)));
    Trans(LS(b, 0, i.lamn, i.funcs, false), ls, body);
    FinishGrows(body, i.ret);
    Trans(LS(b, 0, i.lamn, i.funcs, false), body, Finish(body, i.ret));
    GrowsSignature(LS(b, 0, i.lamn, i.funcs, false), Finish(body, i.ret));
  }

  lemma GrowsSignature(a: LS, b: LS)
    requires Grows(a, b)
    ensures b.b.fn.name == a.b.fn.name && b.b.fn.params == a.b.fn.params
  {
  }

  lemma FinishGrows(ls: LS, ret: Ty)
    ensures Grows(ls, Finish(ls, ret))
  {
    PutGrows(ls, IRet(ImmUnit));
    PutGrows(ls, IPanic);
    GrowsRefl(ls);
  }

  lemma EntryGrows(cx: Cx, lamn: nat, funcs: seq<IRFunc>, fn: string, params: List<Param>, caps: seq<string>,
                   capTys: seq<IRType>)
    requires |caps| == |capTys|
    ensures var b := NewBuilder(fn, Cons(IRParam("__env", ENV_TY), IrParams(params)));
            var ls0 := LS(b, 0, lamn, funcs, false);
            var (ls1, vs1) := LoadCaps(ls0, caps, capTys, 0, map[]);
            Grows(ls0, ls1) && Grows(ls1, LambdaEntry(cx, lamn, funcs, fn, params, caps, capTys).0)
            && Grows(ls0, LambdaEntry(cx, lamn, funcs, fn, params, caps, capTys).0)
  {
    hide Extends;
    var b := NewBuilder(fn, Cons(IRParam("__env", ENV_TY), IrParams(params)));
    var ls0 := LS(b, 0, lamn, funcs, false);
    var (ls1, vs1) := LoadCaps(ls0, caps, capTys, 0, map[]);
    LoadCapsGrows(ls0, caps, capTys, 0, map[]);
    BindParamsGrows(cx, ls1, params, vs1);
    Trans(ls0, ls1, BindParams(cx, ls1, params, vs1).0);
  }

  // The names captured resolve the same way from inside the call.
  lemma CapsResolve(w: World, w1: World, fenv: int, caps: seq<string>, m: MVal)
    requires Moves(w, w1, {}, -1) && 0 <= fenv < |w.st.envs| == |w1.st.envs| - 1
    requires w1.st.envs[|w.st.envs|].parent == fenv && EnvRel(w, fenv, caps, m)
    requires forall x :: x in caps ==> x !in w1.st.envs[|w.st.envs|].vars
    ensures EnvRel(w1, fenv, caps, m)
    ensures forall j :: 0 <= j < |caps| ==>
              Settled(w1, fenv, caps[j]).Some? && I.Lookup(w1.st.envs, |w.st.envs|, caps[j]) == Settled(w1, fenv, caps[j])
  {
    EnvRelKept(w, w1, fenv, caps, m);
    forall j | 0 <= j < |caps|
      ensures Settled(w1, fenv, caps[j]).Some? && I.Lookup(w1.st.envs, |w.st.envs|, caps[j]) == Settled(w1, fenv, caps[j])
    {
      assert SlotRel(w1, fenv, caps[j], w1.heap[m.addr].slots[j]);
      SettledIsLookup(w1, fenv, caps[j]);
      assert caps[j] in caps;
    }
  }

  ghost predicate Callable(code: Code, w: World, f: I.Value, vals: seq<I.Value>, ms: seq<MVal>) {
    && Inv(code, w) && f.VClo? && -1 <= f.env < |w.st.envs|
    && I.BindParams(I.NewEnv(w.st, f.env), |w.st.envs|, f.params, vals).Some?
    && VRels(code, w, vals, ms) && |ms| == Length(f.params)
  }

  // Before the first instruction: nothing in scope yet.
  lemma ReadyStart(k: Act, cx: Cx, ls: LS, w: World, rg: Regs, env: int)
    requires ActOk(k) && cx.mod == k.code.mod && !CurTerminated(ls.b) && Inv(k.code, w) && 0 <= env < |w.st.envs|
    ensures Ready(k, cx, ls, map[], w, rg, env, map[])
  {
  }

  lemma PendingRegs(code: Code, w: World, env: int, ps: List<Param>, rg: Regs, rg2: Regs, base: nat)
    requires Pending(code, w, env, ps, map[], rg, base) && rg2.locals == rg.locals
    ensures Pending(code, w, env, ps, map[], rg2, base)
  {
    hide LamAt;
    forall x | x in ParamNames(ps) ensures PendingOne(code, w, x, w.st.envs[env].vars[x], map[], rg2, base) {
      assert PendingOne(code, w, x, w.st.envs[env].vars[x], map[], rg, base);
    }
  }

  lemma EnterLambda(code: Code, w: World, f: I.Value, vals: seq<I.Value>, ms: seq<MVal>, fn: string, i: LamInfo,
                    menv: MVal,
                    dst: Option<nat>, stack: List<Frame>)
    returns (w1: World, rg1: Regs, vars: map<nat, string>, n: nat)
    requires CodeOk(code) && Callable(code, w, f, vals, ms) && 0 <= f.env
    requires CloRel(code, w, f, MClo(fn, menv), i) && fn in code.ir && DistinctLabels(code.ir[fn])
    ensures var cx := i.cx.(captured := CapturedSs(i.body));
            var k := Act(code, code.ir[fn], dst, stack);
            var (ls, vs) := LambdaEntry(cx, i.lamn, i.funcs, fn, i.params, i.caps, i.capTys);
            && Entered(k, cx, ls, vs, w, w1, rg1, |w.st.envs|, vars, (set x | x in i.caps) + ParamNames(i.params), i.body)
            && StepN(code.ir, Enter(code.ir, fn, [menv] + ms, dst, stack, w.heap), n) == At(k, ls.b, rg1, w1.heap)
            && w1.st == I.BindParams(I.NewEnv(w.st, f.env), |w.st.envs|, f.params, vals).value
  {
    hide ParamNames, DistinctLabels, SortedNames, CodeOk, IrParams, VRel, OkBody, StepN, Step, Exec, FuncAt, LamAt,
         Extends, Grows, CodeIn, Linked, Inv, Live, ScopeRel, Evolves, LowerStmts, LoadCaps, BindParams, Ready, Pending,
         Settled, SettledAbove, EnvRel, VRels, Moves, I.Lookup, I.BindParams, Placed;
    var cx := i.cx.(captured := CapturedSs(i.body));
    var k := Act(code, code.ir[fn], dst, stack);
    LamFacts(code, fn, i);
    LambdaShape(code, fn, i, dst, stack);
    var ls0 := LS(NewBuilder(fn, Cons(IRParam("__env", ENV_TY), IrParams(i.params))), 0, i.lamn, i.funcs, false);
    var (ls1, vs1) := LoadCaps(ls0, i.caps, i.capTys, 0, map[]);
    EntryGrows(cx, i.lamn, i.funcs, fn, i.params, i.caps, i.capTys);
    var (ls2, vs2) := LambdaEntry(cx, i.lamn, i.funcs, fn, i.params, i.caps, i.capTys);
    PlacedEarlier(k, ls1, ls2);
    var rg0;
    rg0 := StartLambda(k, ls0, w, fn, i, menv, ms, dst, stack);
    w1 := EnteredWorld(w, I.BindParams(I.NewEnv(w.st, f.env), |w.st.envs|, f.params, vals).value, f.body);
    EnterWorld(code, w, f, vals);
    StartParams(code, w, f, vals, ms, rg0);
    StartCaps(code, w, w1, f, vals, i, menv);
    InvCounts(code, w, w1);
    ReadyStart(k, cx, ls0, w1, rg0, |w.st.envs|);
    var rga, na := RunCaps(k, cx, ls0, i.caps, i.capTys, 0, map[], w1, rg0, |w.st.envs|, f.env);
    PendingRegs(code, w1, |w.st.envs|, i.params, rg0, rga, |w.st.cells|);
    var w2, nb;
    w2, rg1, vars, nb := RunParams(k, cx, ls1, vs1, i.params, w, w1, rga, |w.st.envs|, map[]);
    Chain(code.ir, At(k, ls0.b, rg0, w.heap), na, At(k, ls1.b, rga, w1.heap), nb);
    n := na + nb;
    assert i.caps[0..] == i.caps;
    assert vs2.Keys == (set x | x in i.caps) + ParamNames(i.params);
    EnteredSettled(w1, w2, |w.st.envs|, f.env, i.caps, i.params, vs2, i.body);
    LaterHere(code, w, w2, I.BindParams(I.NewEnv(w.st, f.env), |w.st.envs|, f.params, vals).value, f.body);
    w1 := w2;
  }

  lemma LamFacts(code: Code, fn: string, i: LamInfo)
    requires LamAt(code, fn, i)
    ensures |i.caps| == |i.capTys| && i.cx.mod == code.mod && fn in code.ir
    ensures DistinctParams(i.params) && OkParams(code.src.Keys, i.params)
    ensures forall x :: x in i.caps ==> x !in ParamNames(i.params)
  {
    forall x | x in i.caps ensures x !in ParamNames(i.params) {
      assert x in (set y | y in i.caps);
    }
  }

  lemma LaterHere(code: Code, w: World, w2: World, st2: I.Store, body: List<Stmt>)
    requires Inv(code, w) && w2.later == EnteredWorld(w, st2, body).later
    ensures |w2.later| > |w.st.envs| && w2.later[|w.st.envs|] == Decls(body)
  {
    hide LamAt;
  }

  lemma InvCounts(code: Code, w: World, w1: World)
    requires Inv(code, w1) && Moves(w, w1, {}, -1) && |w1.later| == |w.later| + 1
    ensures |w.st.envs| < |w1.st.envs|
  {
    hide LamAt;
  }

  // The registers a lifted function starts with.
  lemma StartLambda(k: Act, ls0: LS, w: World, fn: string, i: LamInfo, menv: MVal, ms: seq<MVal>,
                    dst: Option<nat>, stack: List<Frame>)
    returns (rg0: Regs)
    requires fn in k.code.ir && k == Act(k.code, k.code.ir[fn], dst, stack) && |ms| == Length(i.params)
    requires k.f.params == Cons(IRParam("__env", ENV_TY), IrParams(i.params))
    requires ls0 == LS(NewBuilder(fn, Cons(IRParam("__env", ENV_TY), IrParams(i.params))), 0, i.lamn, i.funcs, false)
    requires OkParams(k.code.src.Keys, i.params)
    ensures Enter(k.code.ir, fn, [menv] + ms, dst, stack, w.heap) == At(k, ls0.b, rg0, w.heap)
    ensures "__env" in rg0.locals && rg0.locals["__env"] == menv
    ensures forall x :: x in ParamNames(i.params) ==>
              x in rg0.locals && x in BindArgs(IrParams(i.params), ms) && rg0.locals[x] == BindArgs(IrParams(i.params), ms)[x]
  {
    var args := [menv] + ms;
    assert args[1..] == ms;
    rg0 := Regs(map[], BindArgs(k.f.params, args));
    ArgsCover(i.params, ms);
    ParamsNotGlobal(k.code.src.Keys, i.params);
  }

  lemma StartCaps(code: Code, w: World, w1: World, f: I.Value, vals: seq<I.Value>, i: LamInfo, menv: MVal)
    requires Inv(code, w) && f.VClo? && 0 <= f.env < |w.st.envs| && DistinctParams(i.params) && i.params == f.params
    requires I.BindParams(I.NewEnv(w.st, f.env), |w.st.envs|, f.params, vals).Some?
    requires w1 == EnteredWorld(w, I.BindParams(I.NewEnv(w.st, f.env), |w.st.envs|, f.params, vals).value, f.body)
    requires Moves(w, w1, {}, -1) && EnvRel(w, f.env, i.caps, menv)
    requires forall x :: x in i.caps ==> x !in ParamNames(i.params)
    ensures EnvRel(w1, f.env, i.caps, menv)
    ensures |w1.st.envs| == |w.st.envs| + 1 && w1.st.envs[|w.st.envs|].parent == f.env
    ensures forall x :: x in ParamNames(f.params) ==> x in w1.st.envs[|w.st.envs|].vars
    ensures forall j :: 0 <= j < |i.caps| ==>
              Settled(w1, f.env, i.caps[j]).Some? && I.Lookup(w1.st.envs, |w.st.envs|, i.caps[j]) == Settled(w1, f.env, i.caps[j])
  {
    hide LamAt, FuncAt;
    BindBound(I.NewEnv(w.st, f.env), |w.st.envs|, f.params, vals);
    CapsResolve(w, w1, f.env, i.caps, menv);
  }

  lemma EnteredSettled(w1: World, w2: World, env: int, fenv: int, caps: seq<string>, ps: List<Param>, vs: Scope,
                       body: List<Stmt>)
    requires Evolves(w1, w2) && w2.st == w1.st && 0 <= env < |w1.st.envs| && w1.st.envs[env].parent == fenv
    requires forall x :: x in ParamNames(ps) ==> x in w1.st.envs[env].vars
    requires forall j :: 0 <= j < |caps| ==> Settled(w1, fenv, caps[j]).Some?
    requires vs.Keys == (set x | x in caps) + ParamNames(ps)
    ensures SettledAbove(w2, env, CapturedSs(body), vs)
  {
    forall x | x in vs
      ensures x in w2.st.envs[env].vars || Settled(w2, fenv, x).Some?
    {
      if x !in ParamNames(ps) {
        var j :| 0 <= j < |caps| && caps[j] == x;
        SettledKept(w1, w2, fenv, x);
      }
    }
  }

  // ----- entering a module function -----

  lemma FuncShape(code: Code, d: FuncDecl, i: FuncInfo, dst: Option<nat>, rest: List<Frame>)
    requires FuncAt(code, d, i)
    ensures code.ir[Mangle(code.mod, d.name)].params == IrParams(d.params)
    ensures var k := Act(code, code.ir[Mangle(code.mod, d.name)], dst, rest);
            var ls := FuncEntry(FuncCx(code.mod, d.body), i.lamn, i.funcs, d).0;
            var body := FuncBody(code.mod, i.lamn, i.funcs, d);
            Placed(k, ls) && Placed(k, body) && Placed(k, Finish(body, d.ret))
  {
    hide Extends, CodeIn;
    var fn := Mangle(code.mod, d.name);
    var k := Act(code, code.ir[fn], dst, rest);
    var cx := FuncCx(code.mod, d.body);
    var (ls, vs) := FuncEntry(cx, i.lamn, i.funcs, d);
    var body := FuncBody(code.mod, i.lamn, i.funcs, d);
    var ls0 := LS(NewBuilder(fn, IrParams(d.params)), 0, i.lamn, i.funcs, false);
    FinishPlaced(k, body, d.ret);
    StmtsGrows(cx, ls, vs, d.body);
    PlacedEarlier(k, ls, body);
    BindParamsGrows(cx, ls0, d.params, map[]);
    Trans(ls0, ls, body);
    FinishGrows(body, d.ret);
    Trans(ls0, body, Finish(body, d.ret));
    GrowsSignature(ls0, Finish(body, d.ret));
  }

  lemma EnterFunc(code: Code, w: World, d: FuncDecl, i: FuncInfo, vals: seq<I.Value>, ms: seq<MVal>,
                  dst: Option<nat>, stack: List<Frame>)
    returns (w1: World, rg1: Regs, vars: map<nat, string>, n: nat)
    requires CodeOk(code) && FuncAt(code, d, i) && DistinctLabels(code.ir[Mangle(code.mod, d.name)])
    requires Callable(code, w, I.VClo(d.params, d.ret, d.body, -1), vals, ms)
    ensures var cx := FuncCx(code.mod, d.body);
            var fn := Mangle(code.mod, d.name);
            var k := Act(code, code.ir[fn], dst, stack);
            var (ls, vs) := FuncEntry(cx, i.lamn, i.funcs, d);
            && Entered(k, cx, ls, vs, w, w1, rg1, |w.st.envs|, vars, ParamNames(d.params), d.body)
            && StepN(code.ir, Enter(code.ir, fn, ms, dst, stack, w.heap), n) == At(k, ls.b, rg1, w1.heap)
            && w1.st == I.BindParams(I.NewEnv(w.st, -1), |w.st.envs|, d.params, vals).value
  {
    hide StepN, Step, Exec, LamAt, Extends, Grows, CodeIn, Linked, Inv, Live, ScopeRel, LowerStmts, BindParams, Ready,
         Pending, Settled, SettledAbove, VRels, Moves, Evolves, I.Lookup, I.BindParams, Placed;
    var f := I.VClo(d.params, d.ret, d.body, -1);
    var fn := Mangle(code.mod, d.name);
    var cx := FuncCx(code.mod, d.body);
    var k := Act(code, code.ir[fn], dst, stack);
    FuncShape(code, d, i, dst, stack);
    var ls0 := LS(NewBuilder(fn, IrParams(d.params)), 0, i.lamn, i.funcs, false);
    var rg0 := Regs(map[], BindArgs(IrParams(d.params), ms));
    ArgsCover(d.params, ms);
    assert Enter(code.ir, fn, ms, dst, stack, w.heap) == At(k, ls0.b, rg0, w.heap);
    w1 := EnteredWorld(w, I.BindParams(I.NewEnv(w.st, -1), |w.st.envs|, d.params, vals).value, d.body);
    EnterWorld(code, w, f, vals);
    BindBound(I.NewEnv(w.st, -1), |w.st.envs|, d.params, vals);
    StartParams(code, w, f, vals, ms, rg0);
    InvCounts(code, w, w1);
    ReadyStart(k, cx, ls0, w1, rg0, |w.st.envs|);
    var w2;
    w2, rg1, vars, n := RunParams(k, cx, ls0, map[], d.params, w, w1, rg0, |w.st.envs|, map[]);
    EnteredSettled(w1, w2, |w.st.envs|, -1, [], d.params, FuncEntry(cx, i.lamn, i.funcs, d).1, d.body);
    LaterHere(code, w, w2, I.BindParams(I.NewEnv(w.st, -1), |w.st.envs|, d.params, vals).value, d.body);
    w1 := w2;
  }
}
