// The simulation relation between the interpreter's store and the machine:
// cells of captured names live in heap boxes, the others in locals of a frame.
module Relation {
  import opened Numeric
  import opened Syntax
  import opened Ir
  import opened Names
  import opened Lowering
  import opened Machine
  import opened Growth
  import I = Interp

  // Both sides at one moment. `boxes` sends a captured cell to its box; `later`
  // gives, per environment, the names its block may still declare.
  datatype World = World(st: I.Store, boxes: map<nat, nat>, later: seq<set<string>>, heap: seq<HObj>)

  // A program and its lowering.
  datatype Code = Code(src: map<string, FuncDecl>, ir: IRProgram, mod: string) {
    // What the machine is compared with: the interpreter whose loop counters wrap.
    function prog(): I.Program { I.Program(src, I.Wrapping) }
  }

  // A lookup that no declaration still to come can change.
  ghost function Settled(w: World, e: int, x: string): Option<nat>
    decreases e
  {
    if !(0 <= e < |w.st.envs| && e < |w.later|) || x in w.later[e] then None
    else if x in w.st.envs[e].vars then Some(w.st.envs[e].vars[x])
    else if w.st.envs[e].parent < e then Settled(w, w.st.envs[e].parent, x)
    else None
  }

  // ----- which IR functions belong to which source code -----

  datatype LamInfo = LamInfo(cx: Cx, lamn: nat, funcs: seq<IRFunc>, params: List<Param>, ret: Ty,
                             body: List<Stmt>, caps: seq<string>, capTys: seq<IRType>)

  ghost predicate Linked(funcs: seq<IRFunc>, ir: IRProgram) {
    forall i :: 0 <= i < |funcs| ==> funcs[i].name in ir && ir[funcs[i].name] == funcs[i]
  }

  ghost predicate OkBody(code: Code, caps: set<string>, params: List<Param>, body: List<Stmt>) {
    && DistinctParams(params)
    && OkParams(code.src.Keys, params)
    && caps !! ParamNames(params)
    && OkSs(code.src.Keys, caps + ParamNames(params), false, false, body)
  }

  // fn is the lifted form of a function literal.
  ghost predicate LamAt(code: Code, fn: string, i: LamInfo) {
    && |i.caps| == |i.capTys|
    && (forall j, k :: 0 <= j < k < |i.caps| ==> i.caps[j] != i.caps[k])
    && i.cx.mod == code.mod && !i.cx.chk
    && OkBody(code, (set x | x in i.caps), i.params, i.body)
    && (forall x :: x in i.caps ==> x !in code.src)
    && var ls := LambdaBody(i.cx, i.lamn, i.funcs, fn, i.params, i.body, i.caps, i.capTys);
       fn in code.ir && code.ir[fn] == Finish(ls, i.ret).b.fn && Linked(ls.funcs, code.ir)
  }

  datatype FuncInfo = FuncInfo(lamn: nat, funcs: seq<IRFunc>)

  ghost predicate FuncAt(code: Code, d: FuncDecl, i: FuncInfo) {
    && OkBody(code, {}, d.params, d.body)
    && var ls := FuncBody(code.mod, i.lamn, i.funcs, d);
       Mangle(code.mod, d.name) in code.ir
       && code.ir[Mangle(code.mod, d.name)] == Finish(ls, d.ret).b.fn && Linked(ls.funcs, code.ir)
  }

  ghost predicate DistinctLabels(f: IRFunc) {
    forall i, j :: 0 <= i < j < |f.blocks| ==> f.blocks[i].lbl != f.blocks[j].lbl
  }

  ghost predicate CodeOk(code: Code) {
    && (forall f :: f in code.src ==> code.src[f].name == f && exists i :: FuncAt(code, code.src[f], i))
    && (forall fn :: fn in code.ir ==> DistinctLabels(code.ir[fn]))
  }

  // ----- values -----

  ghost predicate EnvRel(w: World, env: int, caps: seq<string>, m: MVal) {
    if caps == [] then m == MNull
    else
      && m.MEnv? && m.addr < |w.heap| && w.heap[m.addr].HEnv? && |w.heap[m.addr].slots| == |caps|
      && forall i :: 0 <= i < |caps| ==> SlotRel(w, env, caps[i], w.heap[m.addr].slots[i])
  }

  // A slot of an environment array holds the box of the name it stands for.
  ghost predicate SlotRel(w: World, env: int, x: string, m: MVal) {
    var c := Settled(w, env, x);
    c.Some? && c.value in w.boxes && m == MBox(w.boxes[c.value])
  }

  ghost predicate CloRel(code: Code, w: World, v: I.Value, m: MVal, i: LamInfo)
    requires v.VClo? && m.MClo?
  {
    LamAt(code, m.fn, i) && i.params == v.params && i.ret == v.ret && i.body == v.body && EnvRel(w, v.env, i.caps, m.env)
  }

  ghost predicate VRel(code: Code, w: World, v: I.Value, m: MVal) {
    match v
    case VInt(n, t) => m == MInt(n) && t.Holds(n)
    case VBool(b) => m == MBool(b)
    case VUnit => m == MUnit
    case VClo(_, _, _, env) => m.MClo? && 0 <= env < |w.st.envs| && exists i :: CloRel(code, w, v, m, i)
  }

  // ----- stores -----

  ghost predicate EnvsOk(code: Code, w: World) {
    && |w.later| == |w.st.envs|
    && forall e :: 0 <= e < |w.st.envs| ==>
         && -1 <= w.st.envs[e].parent < e
         && w.st.envs[e].vars.Keys !! code.src.Keys
         && forall x :: x in w.st.envs[e].vars ==> w.st.envs[e].vars[x] < |w.st.cells|
  }

  ghost predicate BoxRel(code: Code, w: World, c: nat)
    requires c in w.boxes
  {
    && c < |w.st.cells| && w.boxes[c] < |w.heap| && w.heap[w.boxes[c]].HBox?
    && VRel(code, w, w.st.cells[c].value, w.heap[w.boxes[c]].v)
  }

  ghost predicate BoxesOk(code: Code, w: World) {
    && (forall c :: c in w.boxes ==> BoxRel(code, w, c))
    && (forall c, d :: c in w.boxes && d in w.boxes && c != d ==> w.boxes[c] != w.boxes[d])
  }

  ghost predicate Inv(code: Code, w: World) { EnvsOk(code, w) && BoxesOk(code, w) }

  // ----- what execution may change -----

  ghost predicate EnvMoves(a: I.Env, b: I.Env, la: set<string>, lb: set<string>) {
    && b.parent == a.parent && lb <= la && a.vars.Keys <= b.vars.Keys
    && forall x :: x !in la ==> (x in a.vars <==> x in b.vars) && (x in a.vars ==> a.vars[x] == b.vars[x])
  }

  ghost predicate HeapMoves(a: seq<HObj>, b: seq<HObj>) {
    && |a| <= |b|
    && forall k :: 0 <= k < |a| ==> (a[k].HEnv? ==> b[k] == a[k]) && (a[k].HBox? ==> b[k].HBox?)
  }

  // From w to w2 environments gain only what they were still to declare, boxes
  // stay where they are, and environment arrays are never written.
  ghost predicate Evolves(w: World, w2: World) {
    && |w.st.envs| <= |w2.st.envs| && |w.later| == |w.st.envs| && |w2.later| == |w2.st.envs|
    && (forall e :: 0 <= e < |w.st.envs| ==> EnvMoves(w.st.envs[e], w2.st.envs[e], w.later[e], w2.later[e]))
    && (forall c :: c in w.boxes ==> c in w2.boxes && w2.boxes[c] == w.boxes[c])
    && HeapMoves(w.heap, w2.heap)
  }

  // Moreover only the cells in `own`, captured cells and new cells are written,
  // and only the environment `env` and new ones gain declarations.
  ghost predicate Moves(w: World, w2: World, own: set<nat>, env: int) {
    && Evolves(w, w2)
    && |w.st.cells| <= |w2.st.cells|
    && (forall e :: 0 <= e < |w.st.envs| && e != env ==> w2.st.envs[e] == w.st.envs[e] && w2.later[e] == w.later[e])
    && (forall c :: c in w2.boxes && c !in w.boxes ==> c >= |w.st.cells|)
    && (forall c :: 0 <= c < |w.st.cells| && c !in w.boxes && c !in own ==> w2.st.cells[c] == w.st.cells[c])
  }

  // Registers below the counters, other than the locals in `own`, keep their values.
  ghost predicate RegsKept(a: Regs, b: Regs, tc: nat, uq: nat, own: set<string>) {
    && (forall t :: t in a.temps && t < tc ==> t in b.temps && b.temps[t] == a.temps[t])
    && (forall n :: n in a.locals && Stamp(n) <= uq && n !in own ==> n in b.locals && b.locals[n] == a.locals[n])
  }

  // ----- a frame's variables -----

  // `vars` sends the frame's unboxed cells to its locals.
  ghost predicate Live(code: Code, w: World, vars: map<nat, string>, rg: Regs, uq: nat) {
    && (forall c :: c in vars ==> LiveCell(code, w, c, vars[c], rg, uq))
    && (forall c, d :: c in vars && d in vars && c != d ==> vars[c] != vars[d])
  }

  ghost predicate LiveCell(code: Code, w: World, c: nat, n: string, rg: Regs, uq: nat) {
    c < |w.st.cells| && c !in w.boxes && n in rg.locals && Stamp(n) <= uq
    && VRel(code, w, w.st.cells[c].value, rg.locals[n])
  }

  // Name x, whose cell is c, is where the scope says it is.
  ghost predicate NameAt(w: World, c: nat, v: IVal, vars: map<nat, string>, rg: Regs, tc: nat) {
    if Boxed(v) then v.Temp? && v.id < tc && v.id in rg.temps && c in w.boxes && rg.temps[v.id] == MBox(w.boxes[c])
    else v.Local? && c in vars && vars[c] == v.name
  }

  ghost predicate ScopeRel(w: World, vs: Scope, env: int, vars: map<nat, string>, rg: Regs, tc: nat,
                           captured: set<string>) {
    && 0 <= env < |w.st.envs|
    && forall x :: x in vs ==>
         && I.Lookup(w.st.envs, env, x).Some?
         && NameAt(w, I.Lookup(w.st.envs, env, x).value, vs[x], vars, rg, tc)
         && (x in captured ==> Boxed(vs[x]))
  }

  // Names of N in scope resolve to cells for good, once the rest of the current
  // block is out of the way (SettledAbove) or already (SettledAll).
  ghost predicate SettledAll(w: World, env: int, N: set<string>, vs: Scope) {
    forall x :: x in N && x in vs ==> Settled(w, env, x).Some?
  }

  ghost predicate SettledAbove(w: World, env: int, N: set<string>, vs: Scope)
    requires 0 <= env < |w.st.envs|
  {
    forall x :: x in N && x in vs ==> x in w.st.envs[env].vars || Settled(w, w.st.envs[env].parent, x).Some?
  }

  // ----- code placement -----

  ghost predicate CodeIn(b: Builder, f: IRFunc) {
    && |b.fn.blocks| <= |f.blocks|
    && forall i {:trigger f.blocks[i]} :: 0 <= i < |b.fn.blocks| ==>
         f.blocks[i].lbl == b.fn.blocks[i].lbl && b.fn.blocks[i].instrs <= f.blocks[i].instrs
  }

  // The activation running function f: program, caller's result temp, callers.
  datatype Act = Act(code: Code, f: IRFunc, dst: Option<nat>, rest: List<Frame>)

  ghost predicate ActOk(k: Act) { CodeOk(k.code) && DistinctLabels(k.f) }

  function At(k: Act, b: Builder, rg: Regs, heap: seq<HObj>): Conf {
    Run(Frame(k.f, b.cur, |b.Here().instrs|, rg, k.dst), k.rest, heap)
  }

  function AtLabel(k: Act, l: string, rg: Regs, heap: seq<HObj>): Conf {
    Jump(Frame(k.f, 0, 0, rg, k.dst), l, k.rest, heap)
  }

  // The end state of a lowering is part of the function and of the program.
  ghost predicate Placed(k: Act, ls: LS) { CodeIn(ls.b, k.f) && Linked(ls.funcs, k.code.ir) }

  lemma PlacedEarlier(k: Act, a: LS, b: LS)
    requires Grows(a, b) && Placed(k, b)
    ensures Placed(k, a)
  {
    forall i | 0 <= i < |a.b.fn.blocks|
      ensures k.f.blocks[i].lbl == a.b.fn.blocks[i].lbl && a.b.fn.blocks[i].instrs <= k.f.blocks[i].instrs
    {
      assert b.b.fn.blocks[i].lbl == a.b.fn.blocks[i].lbl;
    }
    forall i | 0 <= i < |a.funcs|
      ensures a.funcs[i].name in k.code.ir && k.code.ir[a.funcs[i].name] == a.funcs[i]
    {
      assert b.funcs[i] == a.funcs[i];
    }
  }

  // ----- the relation is preserved -----

  lemma {:induction false} SettledIsLookup(w: World, e: int, x: string)
    requires Settled(w, e, x).Some?
    ensures I.Lookup(w.st.envs, e, x) == Settled(w, e, x)
    decreases e
  {
    if x !in w.st.envs[e].vars { SettledIsLookup(w, w.st.envs[e].parent, x); }
  }

  lemma {:induction false} SettledKept(w: World, w2: World, e: int, x: string)
    requires Evolves(w, w2) && Settled(w, e, x).Some?
    ensures Settled(w2, e, x) == Settled(w, e, x)
    decreases e
  {
    assert EnvMoves(w.st.envs[e], w2.st.envs[e], w.later[e], w2.later[e]);
    if x !in w.st.envs[e].vars { SettledKept(w, w2, w.st.envs[e].parent, x); }
  }

  lemma EnvRelKept(w: World, w2: World, e: int, caps: seq<string>, m: MVal)
    requires Evolves(w, w2) && EnvRel(w, e, caps, m)
    ensures EnvRel(w2, e, caps, m)
  {
    if caps != [] {
      assert w2.heap[m.addr] == w.heap[m.addr];
      forall i | 0 <= i < |caps|
        ensures SlotRel(w2, e, caps[i], w2.heap[m.addr].slots[i])
      {
        assert SlotRel(w, e, caps[i], w.heap[m.addr].slots[i]);
        SettledKept(w, w2, e, caps[i]);
      }
    }
  }

  lemma VRelKept(code: Code, w: World, w2: World, v: I.Value, m: MVal)
    requires Evolves(w, w2) && VRel(code, w, v, m)
    ensures VRel(code, w2, v, m)
  {
    if v.VClo? {
      var i :| CloRel(code, w, v, m, i);
      EnvRelKept(w, w2, v.env, i.caps, m.env);
      assert CloRel(code, w2, v, m, i);
    }
  }

  // Lookups below the changed environment are unaffected.
  lemma {:induction false} LookupKept(w: World, w2: World, own: set<nat>, env: int, e: int, x: string)
    requires Moves(w, w2, own, env) && e < |w.st.envs|
    requires e < env || !(0 <= env < |w.st.envs|)
    ensures I.Lookup(w2.st.envs, e, x) == I.Lookup(w.st.envs, e, x)
    decreases e
  {
    if 0 <= e {
      assert w2.st.envs[e] == w.st.envs[e];
      if x !in w.st.envs[e].vars && w.st.envs[e].parent < e {
        LookupKept(w, w2, own, env, w.st.envs[e].parent, x);
      }
    }
  }

  lemma MovesRefl(w: World, own: set<nat>, env: int)
    requires |w.later| == |w.st.envs|
    ensures Moves(w, w, own, env)
  {
  }

  lemma MovesWiden(w: World, w2: World, own: set<nat>, env: int)
    requires Moves(w, w2, {}, -1) || Moves(w, w2, own, -1)
    ensures Moves(w, w2, own, env)
  {
  }

  lemma MovesTrans(a: World, b: World, c: World, own: set<nat>, env: int, own2: set<nat>)
    requires Moves(a, b, own, env) && Moves(b, c, own2, env)
    requires forall n :: n in own2 ==> n in own || n >= |a.st.cells|
    ensures Moves(a, c, own, env)
  {
    forall e | 0 <= e < |a.st.envs|
      ensures EnvMoves(a.st.envs[e], c.st.envs[e], a.later[e], c.later[e])
      ensures e != env ==> c.st.envs[e] == a.st.envs[e] && c.later[e] == a.later[e]
    {
      assert EnvMoves(a.st.envs[e], b.st.envs[e], a.later[e], b.later[e]);
      assert EnvMoves(b.st.envs[e], c.st.envs[e], b.later[e], c.later[e]);
    }
    forall n | 0 <= n < |a.st.cells| && n !in a.boxes && n !in own
      ensures c.st.cells[n] == a.st.cells[n]
    {
      assert n !in b.boxes;
      assert b.st.cells[n] == a.st.cells[n];
    }
    forall k | 0 <= k < |a.heap|
      ensures (a.heap[k].HEnv? ==> c.heap[k] == a.heap[k]) && (a.heap[k].HBox? ==> c.heap[k].HBox?)
    {
      assert a.heap[k].HEnv? ==> b.heap[k] == a.heap[k];
      assert a.heap[k].HBox? ==> b.heap[k].HBox?;
    }
  }

  // What an inner environment declares is no business of the outer ones.
  lemma MovesUnder(a: World, b: World, c: World, own: set<nat>, own2: set<nat>, env: int)
    requires Moves(a, b, own, -1) && Moves(b, c, own2, env)
    requires env >= |a.st.envs| || env < 0
    requires forall n :: n in own2 ==> n in own || n >= |a.st.cells|
    ensures Moves(a, c, own, -1)
  {
    forall e | 0 <= e < |a.st.envs|
      ensures EnvMoves(a.st.envs[e], c.st.envs[e], a.later[e], c.later[e])
      ensures c.st.envs[e] == a.st.envs[e] && c.later[e] == a.later[e]
    {
      assert b.st.envs[e] == a.st.envs[e] && b.later[e] == a.later[e];
      assert c.st.envs[e] == b.st.envs[e] && c.later[e] == b.later[e];
    }
    forall n | 0 <= n < |a.st.cells| && n !in a.boxes && n !in own
      ensures c.st.cells[n] == a.st.cells[n]
    {
      assert n !in b.boxes;
      assert b.st.cells[n] == a.st.cells[n];
    }
    forall k | 0 <= k < |a.heap|
      ensures (a.heap[k].HEnv? ==> c.heap[k] == a.heap[k]) && (a.heap[k].HBox? ==> c.heap[k].HBox?)
    {
      assert a.heap[k].HEnv? ==> b.heap[k] == a.heap[k];
      assert a.heap[k].HBox? ==> b.heap[k].HBox?;
    }
  }

  // ----- registers -----

  lemma KeptTrans(a: Regs, b: Regs, c: Regs, tc: nat, uq: nat, own: set<string>, tc2: nat, uq2: nat, own2: set<string>)
    requires RegsKept(a, b, tc, uq, own) && RegsKept(b, c, tc2, uq2, own2)
    requires tc <= tc2 && uq <= uq2
    requires forall n :: n in own2 ==> n in own || Stamp(n) > uq
    ensures RegsKept(a, c, tc, uq, own)
  {
  }

  lemma KeptRefl(a: Regs, tc: nat, uq: nat)
    ensures RegsKept(a, a, tc, uq, {})
  {
  }

  // A value that only depends on registers minted so far.
  ghost predicate Steady(v: IVal, tc: nat, uq: nat) {
    (v.Temp? ==> v.id < tc) && (v.Local? ==> Stamp(v.name) <= uq)
  }

  lemma SteadyKept(v: IVal, a: Regs, b: Regs, tc: nat, uq: nat)
    requires Steady(v, tc, uq) && RegsKept(a, b, tc, uq, {}) && ValOf(a, v).Some?
    ensures ValOf(b, v) == ValOf(a, v)
  {
  }

  // ----- a frame's variables across an expression -----

  lemma LiveKept(code: Code, w: World, w2: World, vars: map<nat, string>, rg: Regs, rg2: Regs, tc: nat, uq: nat,
                 uq2: nat,
                 ownNames: set<string>)
    requires Live(code, w, vars, rg, uq) && Moves(w, w2, {}, -1) && RegsKept(rg, rg2, tc, uq, ownNames) && uq <= uq2
    requires forall c :: c in vars ==> vars[c] !in ownNames
    ensures Live(code, w2, vars, rg2, uq2)
  {
    forall c | c in vars ensures LiveCell(code, w2, c, vars[c], rg2, uq2) {
      assert LiveCell(code, w, c, vars[c], rg, uq);
      VRelKept(code, w, w2, w.st.cells[c].value, rg.locals[vars[c]]);
    }
  }

  // Across anything that leaves the lookups of `env` alone.
  lemma ScopeKept(w: World, w2: World, own: set<nat>, env2: int, vs: Scope, env: int, vars: map<nat, string>,
                  vars2: map<nat, string>,
                  rg: Regs, rg2: Regs, tc: nat, uq: nat, tc2: nat, ownNames: set<string>, captured: set<string>)
    requires ScopeRel(w, vs, env, vars, rg, tc, captured) && Moves(w, w2, own, env2) && RegsKept(rg, rg2, tc, uq, ownNames)
    requires env < env2 || !(0 <= env2 < |w.st.envs|)
    requires tc <= tc2
    requires forall c :: c in vars ==> c in vars2 && vars2[c] == vars[c]
    ensures ScopeRel(w2, vs, env, vars2, rg2, tc2, captured)
  {
    forall x | x in vs
      ensures I.Lookup(w2.st.envs, env, x).Some?
      ensures NameAt(w2, I.Lookup(w2.st.envs, env, x).value, vs[x], vars2, rg2, tc2)
    {
      LookupKept(w, w2, own, env2, env, x);
    }
  }

  lemma SettledAllKept(w: World, w2: World, env: int, N: set<string>, vs: Scope)
    requires SettledAll(w, env, N, vs) && Evolves(w, w2)
    ensures SettledAll(w2, env, N, vs)
  {
    forall x | x in N && x in vs ensures Settled(w2, env, x).Some? {
      SettledKept(w, w2, env, x);
    }
  }
}
