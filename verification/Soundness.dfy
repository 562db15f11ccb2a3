// A run of a typed module never ends in a type error: what is left of Err is a
// negative shift count and, in a guarded run, an index that leaves its type.
module Soundness {
  import opened Numeric
  import opened Syntax
  import opened Names
  import opened Relation
  import opened Restrict
  import opened Typing
  import I = Interp

  // ----- typed stores -----

  // A module and the way its counted loops count. In the exact way an index may
  // leave its type.
  datatype Run = Run(rules: Rules, mode: I.Mode) {
    const fs := rules.fs

    predicate Fits(t: IntTy, n: int) { mode.Exact? || t.Holds(n) }
  }

  // The worlds here have no heap: `later` is what they add to the store. `sig` gives
  // each cell its type.
  type Sig = seq<Bind>

  ghost predicate ClosureOk(r: Run, w: World, sig: Sig, v: I.Value, g: Ctx)
    requires v.VClo?
  {
    && (forall x :: x in g ==> CellHas(sig, Settled(w, v.env, x), g[x]))
    && DistinctParams(v.params) && OkParams(r.fs.Keys, v.params)
    && OkSs(r.fs.Keys, g.Keys + ParamNames(v.params), false, false, v.body)
    && TypedSs(r.rules, WithParams(g, v.params), v.ret, v.body)
  }

  predicate CellHas(sig: Sig, c: Option<nat>, b: Bind) { c.Some? && c.value < |sig| && sig[c.value] == b }

  ghost predicate ValueOk(r: Run, w: World, sig: Sig, v: I.Value, ty: Ty) {
    match v
    case VInt(n, t) => ty == TInt(t) && r.Fits(t, n)
    case VBool(_) => ty == TBool
    case VUnit => ty == TUnit
    case VClo(params, ret, _, env) =>
      ty == TFunc(ParamTypes(params), ret) && -1 <= env < |w.st.envs| && exists g :: ClosureOk(r, w, sig, v, g)
  }

  ghost predicate EnvOk(r: Run, w: World, e: int)
    requires 0 <= e < |w.st.envs|
  {
    && -1 <= w.st.envs[e].parent < e && w.st.envs[e].vars.Keys !! r.fs.Keys
    && forall x :: x in w.st.envs[e].vars ==> w.st.envs[e].vars[x] < |w.st.cells|
  }

  ghost predicate CellOk(r: Run, w: World, sig: Sig, c: nat)
    requires c < |w.st.cells| == |sig|
  {
    ValueOk(r, w, sig, w.st.cells[c].value, sig[c].ty) && w.st.cells[c].mutable == sig[c].mutable
  }

  ghost predicate StoreOk(r: Run, w: World, sig: Sig) {
    && w.boxes == map[] && w.heap == [] && |w.later| == |w.st.envs| && |sig| == |w.st.cells|
    && (forall e :: 0 <= e < |w.st.envs| ==> EnvOk(r, w, e))
    && forall c :: 0 <= c < |w.st.cells| ==> CellOk(r, w, sig, c)
  }

  // From w to w2: cells keep their types, and only env and new environments gain
  // declarations.
  ghost predicate Goes(w: World, sig: Sig, w2: World, sig2: Sig, env: int) {
    && Evolves(w, w2) && sig <= sig2
    && forall e :: 0 <= e < |w.st.envs| && e != env ==> w2.st.envs[e] == w.st.envs[e] && w2.later[e] == w.later[e]
  }

  // Each name in scope resolves to a cell of its type.
  ghost predicate CtxOk(w: World, sig: Sig, g: Ctx, env: int) {
    0 <= env < |w.st.envs| && forall x :: x in g ==> CellHas(sig, I.Lookup(w.st.envs, env, x), g[x])
  }

  // Names a closure may capture resolve for good.
  ghost predicate SettledFor(w: World, env: int, xs: set<string>, g: Ctx) {
    forall x :: x in xs && x in g ==> Settled(w, env, x).Some?
  }

  ghost predicate SettledOver(w: World, env: int, xs: set<string>, g: Ctx)
    requires 0 <= env < |w.st.envs|
  {
    forall x :: x in xs && x in g ==> x in w.st.envs[env].vars || Settled(w, w.st.envs[env].parent, x).Some?
  }

  // ----- what stays true -----

  lemma GoesRefl(r: Run, w: World, sig: Sig, env: int)
    requires StoreOk(r, w, sig)
    ensures Goes(w, sig, w, sig, env)
  {
  }

  // env is the first step's environment, or one the first step made.
  lemma GoesTrans(a: World, sa: Sig, b: World, sb: Sig, c: World, sc: Sig, e1: int, e2: int, env: int)
    requires Goes(a, sa, b, sb, e1) && Goes(b, sb, c, sc, e2)
    requires e1 == env || e1 < 0 || e1 >= |a.st.envs|
    requires e2 == env || e2 < 0 || e2 >= |a.st.envs|
    ensures Goes(a, sa, c, sc, env)
  {
    forall e | 0 <= e < |a.st.envs| ensures EnvMoves(a.st.envs[e], c.st.envs[e], a.later[e], c.later[e]) {
      assert EnvMoves(a.st.envs[e], b.st.envs[e], a.later[e], b.later[e]);
      assert EnvMoves(b.st.envs[e], c.st.envs[e], b.later[e], c.later[e]);
    }
    assert HeapMoves(a.heap, c.heap) by {
      forall k | 0 <= k < |a.heap|
        ensures (a.heap[k].HEnv? ==> c.heap[k] == a.heap[k]) && (a.heap[k].HBox? ==> c.heap[k].HBox?)
      {
        assert a.heap[k].HEnv? ==> b.heap[k] == a.heap[k];
        assert a.heap[k].HBox? ==> b.heap[k].HBox?;
      }
    }
  }

  lemma ValueKept(r: Run, w: World, sig: Sig, w2: World, sig2: Sig, env: int, v: I.Value, ty: Ty)
    requires Goes(w, sig, w2, sig2, env) && ValueOk(r, w, sig, v, ty)
    ensures ValueOk(r, w2, sig2, v, ty)
  {
    if v.VClo? {
      var g :| ClosureOk(r, w, sig, v, g);
      forall x | x in g ensures CellHas(sig2, Settled(w2, v.env, x), g[x]) {
        assert CellHas(sig, Settled(w, v.env, x), g[x]);
        SettledKept(w, w2, v.env, x);
      }
      assert ClosureOk(r, w2, sig2, v, g);
    }
  }

  lemma {:induction false} LookupSame(w: World, sig: Sig, w2: World, sig2: Sig, env: int, e: int, x: string)
    requires Goes(w, sig, w2, sig2, env) && e < |w.st.envs| && (env < 0 || e < env)
    ensures I.Lookup(w2.st.envs, e, x) == I.Lookup(w.st.envs, e, x)
    decreases e
  {
    if 0 <= e && x !in w.st.envs[e].vars && w.st.envs[e].parent < e {
      LookupSame(w, sig, w2, sig2, env, w.st.envs[e].parent, x);
    }
  }

  lemma CtxKept(w: World, sig: Sig, w2: World, sig2: Sig, g: Ctx, env: int)
    requires Goes(w, sig, w2, sig2, -1) && CtxOk(w, sig, g, env)
    ensures CtxOk(w2, sig2, g, env)
  {
    forall x | x in g ensures CellHas(sig2, I.Lookup(w2.st.envs, env, x), g[x]) {
      assert CellHas(sig, I.Lookup(w.st.envs, env, x), g[x]);
      LookupSame(w, sig, w2, sig2, -1, env, x);
    }
  }

  lemma ForKept(w: World, sig: Sig, w2: World, sig2: Sig, env: int, xs: set<string>, g: Ctx)
    requires Goes(w, sig, w2, sig2, -1) && SettledFor(w, env, xs, g)
    ensures SettledFor(w2, env, xs, g)
  {
    forall x | x in xs && x in g ensures Settled(w2, env, x).Some? { SettledKept(w, w2, env, x); }
  }

  // A value of a type has the shape the interpreter asks for.
  lemma HasShape(r: Run, w: World, sig: Sig, v: I.Value, ty: Ty)
    requires ValueOk(r, w, sig, v, ty)
    ensures I.HasTy(v, ty)
    ensures ty.TInt? ==> v.VInt? && v.ty == ty.it && r.Fits(ty.it, v.n)
    ensures ty.TBool? ==> v.VBool?
    ensures ty.TFunc? ==> v.VClo? && ty == TFunc(ParamTypes(v.params), v.ret)
  {
    hide ClosureOk;
  }

  // ----- the three ways the store changes -----

  // A fresh environment.
  function Opened(w: World, parent: int, decls: set<string>): World {
    World(I.NewEnv(w.st, parent), w.boxes, w.later + [decls], w.heap)
  }

  lemma OpenedOk(r: Run, w: World, sig: Sig, parent: int, decls: set<string>)
    requires StoreOk(r, w, sig) && -1 <= parent < |w.st.envs|
    ensures var w1 := Opened(w, parent, decls); StoreOk(r, w1, sig) && Goes(w, sig, w1, sig, -1)
  {
    hide ValueOk;
    var w1 := Opened(w, parent, decls);
    assert Goes(w, sig, w1, sig, -1);
    forall e | 0 <= e < |w1.st.envs| ensures EnvOk(r, w1, e) { assert e < |w.st.envs| ==> EnvOk(r, w, e); }
    forall c | 0 <= c < |w1.st.cells| ensures CellOk(r, w1, sig, c) {
      assert CellOk(r, w, sig, c);
      ValueKept(r, w, sig, w1, sig, -1, w.st.cells[c].value, sig[c].ty);
    }
  }

  // A new cell for x in `env`, which may still declare `rest`.
  function Declared(w: World, env: int, x: string, v: I.Value, mutable: bool, rest: set<string>): World
    requires 0 <= env < |w.st.envs| == |w.later|
  {
    w.(st := I.Define(w.st, env, x, v, mutable), later := w.later[env := rest])
  }

  lemma DeclaredOk(r: Run, w: World, sig: Sig, env: int, x: string, v: I.Value, b: Bind, rest: set<string>)
    requires StoreOk(r, w, sig) && 0 <= env < |w.st.envs| && ValueOk(r, w, sig, v, b.ty) && x !in r.fs
    requires w.later[env] == {x} + rest
    ensures var w1 := Declared(w, env, x, v, b.mutable, rest); StoreOk(r, w1, sig + [b]) && Goes(w, sig, w1, sig + [b], env)
  {
    hide ValueOk;
    var w1, sig1 := Declared(w, env, x, v, b.mutable, rest), sig + [b];
    DeclaredGoes(w, sig, env, x, v, b, rest);
    forall e | 0 <= e < |w1.st.envs| ensures EnvOk(r, w1, e) { assert EnvOk(r, w, e); }
    forall c | 0 <= c < |w1.st.cells| ensures CellOk(r, w1, sig1, c) {
      if c < |w.st.cells| {
        assert CellOk(r, w, sig, c);
        ValueKept(r, w, sig, w1, sig1, env, w.st.cells[c].value, sig[c].ty);
      } else {
        ValueKept(r, w, sig, w1, sig1, env, v, b.ty);
      }
    }
  }

  lemma DeclaredGoes(w: World, sig: Sig, env: int, x: string, v: I.Value, b: Bind, rest: set<string>)
    requires 0 <= env < |w.st.envs| == |w.later| && w.later[env] == {x} + rest
    ensures Goes(w, sig, Declared(w, env, x, v, b.mutable, rest), sig + [b], env)
  {
  }

  lemma DeclaredCtx(r: Run, w: World, sig: Sig, env: int, x: string, v: I.Value, b: Bind, rest: set<string>, g: Ctx)
    requires StoreOk(r, w, sig) && CtxOk(w, sig, g, env) && w.later[env] == {x} + rest
    ensures CtxOk(Declared(w, env, x, v, b.mutable, rest), sig + [b], g[x := b], env)
  {
    var w1, sig1 := Declared(w, env, x, v, b.mutable, rest), sig + [b];
    DeclaredGoes(w, sig, env, x, v, b, rest);
    assert EnvOk(r, w, env);
    forall y | y in g[x := b] ensures CellHas(sig1, I.Lookup(w1.st.envs, env, y), g[x := b][y]) {
      if y != x {
        assert CellHas(sig, I.Lookup(w.st.envs, env, y), g[y]);
        LookupSame(w, sig, w1, sig1, env, w.st.envs[env].parent, y);
      }
    }
  }

  // `set` of a mutable name to a value of its type succeeds, and is well typed.
  lemma AssignSound(r: Run, w: World, sig: Sig, g: Ctx, env: int, x: string, v: I.Value) returns (w2: World)
    requires StoreOk(r, w, sig) && CtxOk(w, sig, g, env) && x in g && g[x].mutable && ValueOk(r, w, sig, v, g[x].ty)
    ensures I.Assign(w.st, env, x, v) == I.Ok(I.Normal, w2.st) && w2.later == w.later
    ensures StoreOk(r, w2, sig) && Goes(w, sig, w2, sig, -1)
  {
    hide ClosureOk;
    assert CellHas(sig, I.Lookup(w.st.envs, env, x), g[x]);
    var c := I.Lookup(w.st.envs, env, x).value;
    assert CellOk(r, w, sig, c);
    HasShape(r, w, sig, v, g[x].ty);
    w2 := w.(st := w.st.(cells := w.st.cells[c := I.Cell(v, true)]));
    assert Goes(w, sig, w2, sig, -1);
    forall e | 0 <= e < |w2.st.envs| ensures EnvOk(r, w2, e) { assert EnvOk(r, w, e); }
    forall d | 0 <= d < |w2.st.cells| ensures CellOk(r, w2, sig, d) {
      assert CellOk(r, w, sig, d);
      ValueKept(r, w, sig, w2, sig, -1, w2.st.cells[d].value, sig[d].ty);
    }
  }

  // ... and of a name that is not mutable never does.
  lemma ConstStays(st: I.Store, env: int, x: string, v: I.Value)
    requires var c := I.Lookup(st.envs, env, x); c.Some? && c.value < |st.cells| && !st.cells[c.value].mutable
    ensures I.Assign(st, env, x, v) == I.Err(I.Mistyped)
  {
  }

  // ----- expressions -----

  predicate FuncOk(r: Run, d: FuncDecl) {
    && DistinctParams(d.params) && OkParams(r.fs.Keys, d.params)
    && OkSs(r.fs.Keys, ParamNames(d.params), false, false, d.body)
    && TypedSs(r.rules, WithParams(map[], d.params), d.ret, d.body)
  }

  ghost predicate FuncsOk(r: Run) { forall f :: f in r.fs ==> FuncOk(r, r.fs[f]) }

  // All that a typed run may end in Err for.
  predicate Allowed(r: Run, why: I.Fault) {
    (why.NegativeShift? && (!r.rules.counts || r.mode.Exact?)) || (why.IndexLeft? && r.mode.Guarded? && !r.rules.steps)
  }

  ghost predicate Safe<T>(r: Run, w: World, sig: Sig, out: I.Out<T>, w2: World, sig2: Sig, env: int) {
    && (out.Ok? ==> w2.st == out.st && StoreOk(r, w2, sig2) && Goes(w, sig, w2, sig2, env))
    && (out.Err? ==> Allowed(r, out.why))
  }

  ghost predicate ExprSafe(r: Run, w: World, sig: Sig, out: I.Out<I.Value>, ty: Ty, w2: World, sig2: Sig) {
    Safe(r, w, sig, out, w2, sig2, -1) && (out.Ok? ==> ValueOk(r, w2, sig2, out.v, ty))
  }

  ghost predicate ValuesOk(r: Run, w: World, sig: Sig, vs: seq<I.Value>, ts: List<Ty>) {
    match ts
    case Nil => vs == []
    case Cons(t, rest) => vs != [] && ValueOk(r, w, sig, vs[0], t) && ValuesOk(r, w, sig, vs[1..], rest)
  }

  // What every construct asks of the point where it stands.
  ghost predicate Here(r: Run, w: World, sig: Sig, g: Ctx, env: int) {
    StoreOk(r, w, sig) && CtxOk(w, sig, g, env) && FuncsOk(r)
  }

  lemma HereKept(r: Run, w: World, sig: Sig, w2: World, sig2: Sig, g: Ctx, env: int)
    requires Here(r, w, sig, g, env) && StoreOk(r, w2, sig2) && Goes(w, sig, w2, sig2, -1)
    ensures Here(r, w2, sig2, g, env)
  {
    hide StoreOk, Goes, FuncsOk;
    CtxKept(w, sig, w2, sig2, g, env);
  }

  lemma {:induction false} ExprSound(r: Run, fuel: nat, w: World, sig: Sig, g: Ctx, env: int, chk: bool, e: Expr)
    returns (w2: World, sig2: Sig)
    requires Here(r, w, sig, g, env) && SettledFor(w, env, CapturedE(e), g)
    requires OkE(r.fs.Keys, g.Keys, chk, e) && TypeE(r.rules, g, e).Some?
    ensures ExprSafe(r, w, sig, I.Eval(I.Program(r.fs, r.mode), fuel, w.st, env, chk, e), TypeE(r.rules, g, e).value,
                     w2, sig2)
    decreases fuel, e, 1
  {
    hide StoreOk, Goes, CtxOk, FuncsOk, ValueOk, SettledFor;
    GoesRefl(r, w, sig, -1);
    w2, sig2 := w, sig;
    match e
    case EInt(_, _) => LeafOk(r, w, sig, I.VInt(e.value, e.ity));
    case EBool(b) => LeafOk(r, w, sig, I.VBool(b));
    case EName(x) => NameSound(r, w, sig, g, env, x);
    case EOp(op, args, t) => w2, sig2 := OpSound(r, fuel, w, sig, g, env, chk, op, args, t);
    case ECast(e1, t) =>
      w2, sig2 := ExprSound(r, fuel, w, sig, g, env, chk, e1);
      var o := I.Eval(I.Program(r.fs, r.mode), fuel, w.st, env, chk, e1);
      if o.Ok? {
        HasShape(r, w2, sig2, o.v, TypeE(r.rules, g, e1).value);
        WrapFits(o.v.n, t);
        LeafOk(r, w2, sig2, I.VInt(Wrap(o.v.n, t), t));
      }
    case ECall(_, _, _) => w2, sig2 := CallSound(r, fuel, w, sig, g, env, chk, e);
    case EFunc(_, _, _) => LiteralSound(r, w, sig, g, env, chk, e);
    case EPanic =>
  }

  lemma LeafOk(r: Run, w: World, sig: Sig, v: I.Value)
    ensures v.VInt? && r.Fits(v.ty, v.n) ==> ValueOk(r, w, sig, v, TInt(v.ty))
    ensures v.VBool? ==> ValueOk(r, w, sig, v, TBool)
    ensures v.VUnit? ==> ValueOk(r, w, sig, v, TUnit)
  {
  }

  lemma NameSound(r: Run, w: World, sig: Sig, g: Ctx, env: int, x: string)
    requires Here(r, w, sig, g, env) && x in g
    ensures ExprSafe(r, w, sig, I.EvalName(I.Program(r.fs, r.mode), w.st, env, x), g[x].ty, w, sig)
  {
    hide ClosureOk, FuncsOk;
    GoesRefl(r, w, sig, -1);
    assert CellHas(sig, I.Lookup(w.st.envs, env, x), g[x]);
    assert CellOk(r, w, sig, I.Lookup(w.st.envs, env, x).value);
  }

  // A literal's closure has what it may capture.
  lemma LiteralSound(r: Run, w: World, sig: Sig, g: Ctx, env: int, chk: bool, e: Expr)
    requires e.EFunc? && Here(r, w, sig, g, env) && SettledFor(w, env, CapturedE(e), g)
    requires OkE(r.fs.Keys, g.Keys, chk, e) && TypeE(r.rules, g, e).Some?
    ensures ValueOk(r, w, sig, I.VClo(e.params, e.ret, e.fbody, env), TypeE(r.rules, g, e).value)
  {
    hide StoreOk, FuncsOk, OkSs, TypedSs;
    var v := I.VClo(e.params, e.ret, e.fbody, env);
    var free := LambdaFree(e.params, e.fbody);
    var g1 := Only(g, free);
    forall x | x in g1 ensures CellHas(sig, Settled(w, env, x), g1[x]) {
      assert CellHas(sig, I.Lookup(w.st.envs, env, x), g[x]);
      SettledIsLookup(w, env, x);
    }
    LambdaScopeSuffices(r.fs.Keys, g.Keys, e.params, e.fbody);
    assert g1.Keys == free * g.Keys;
    assert ClosureOk(r, w, sig, v, g1);
  }

  lemma {:induction false} ExprsSound(r: Run, fuel: nat, w: World, sig: Sig, g: Ctx, env: int, chk: bool,
                                      es: List<Expr>)
    returns (w2: World, sig2: Sig)
    requires Here(r, w, sig, g, env) && SettledFor(w, env, CapturedEs(es), g)
    requires OkEs(r.fs.Keys, g.Keys, chk, es) && TypesE(r.rules, g, es).Some?
    ensures var out := I.EvalAll(I.Program(r.fs, r.mode), fuel, w.st, env, chk, es);
            Safe(r, w, sig, out, w2, sig2, -1) && (out.Ok? ==> ValuesOk(r, w2, sig2, out.v, TypesE(r.rules, g, es).value))
    decreases fuel, es, 0
  {
    hide StoreOk, Goes, CtxOk, FuncsOk, ValueOk, I.Eval, TypeE, OkE, CapturedE;
    GoesRefl(r, w, sig, -1);
    w2, sig2 := w, sig;
    match es
    case Nil =>
    case Cons(e, rest) =>
      var p := I.Program(r.fs, r.mode);
      w2, sig2 := ExprSound(r, fuel, w, sig, g, env, chk, e);
      var o := I.Eval(p, fuel, w.st, env, chk, e);
      if o.Ok? {
        var w1, sig1 := w2, sig2;
        HereKept(r, w, sig, w1, sig1, g, env);
        ForKept(w, sig, w1, sig1, env, CapturedEs(rest), g);
        w2, sig2 := ExprsSound(r, fuel, w1, sig1, g, env, chk, rest);
        var q := I.EvalAll(p, fuel, w1.st, env, chk, rest);
        if q.Ok? {
          GoesTrans(w, sig, w1, sig1, w2, sig2, -1, -1, -1);
          ValueKept(r, w1, sig1, w2, sig2, -1, o.v, TypeE(r.rules, g, e).value);
          assert ([o.v] + q.v)[1..] == q.v;
        }
      }
  }

  // Operands that are all of one integer type.
  lemma {:induction false} IntsSound(r: Run, fuel: nat, w: World, sig: Sig, g: Ctx, env: int, chk: bool,
                                     es: List<Expr>, t: IntTy)
    returns (w2: World, sig2: Sig)
    requires Here(r, w, sig, g, env) && SettledFor(w, env, CapturedEs(es), g)
    requires OkEs(r.fs.Keys, g.Keys, chk, es) && TypesE(r.rules, g, es).Some? && AllAre(TypesE(r.rules, g, es).value, TInt(t))
    ensures var out := I.EvalInts(I.Program(r.fs, r.mode), fuel, w.st, env, chk, es, t);
            Safe(r, w, sig, out, w2, sig2, -1)
            && (out.Ok? ==> |out.v| == Length(es) && forall i :: 0 <= i < |out.v| ==> r.Fits(t, out.v[i]))
    decreases fuel, es, 0
  {
    hide StoreOk, Goes, CtxOk, FuncsOk, ValueOk, I.Eval, TypeE, OkE, CapturedE;
    GoesRefl(r, w, sig, -1);
    w2, sig2 := w, sig;
    match es
    case Nil =>
    case Cons(e, rest) =>
      var p := I.Program(r.fs, r.mode);
      w2, sig2 := ExprSound(r, fuel, w, sig, g, env, chk, e);
      var o := I.Eval(p, fuel, w.st, env, chk, e);
      if o.Ok? {
        var w1, sig1 := w2, sig2;
        HasShape(r, w1, sig1, o.v, TInt(t));
        HereKept(r, w, sig, w1, sig1, g, env);
        ForKept(w, sig, w1, sig1, env, CapturedEs(rest), g);
        w2, sig2 := IntsSound(r, fuel, w1, sig1, g, env, chk, rest, t);
        if I.EvalInts(p, fuel, w1.st, env, chk, rest, t).Ok? { GoesTrans(w, sig, w1, sig1, w2, sig2, -1, -1, -1); }
      }
  }

  lemma {:induction false} AndOrSound(r: Run, fuel: nat, w: World, sig: Sig, g: Ctx, env: int, chk: bool,
                                      es: List<Expr>, stop: bool)
    returns (w2: World, sig2: Sig)
    requires Here(r, w, sig, g, env) && SettledFor(w, env, CapturedEs(es), g)
    requires OkEs(r.fs.Keys, g.Keys, chk, es) && TypesE(r.rules, g, es).Some? && AllAre(TypesE(r.rules, g, es).value, TBool)
    ensures ExprSafe(r, w, sig, I.EvalAndOr(I.Program(r.fs, r.mode), fuel, w.st, env, chk, es, stop), TBool, w2, sig2)
    decreases fuel, es, 0
  {
    hide StoreOk, Goes, CtxOk, FuncsOk, ValueOk, I.Eval, TypeE, OkE, CapturedE;
    GoesRefl(r, w, sig, -1);
    w2, sig2 := w, sig;
    match es
    case Nil => LeafOk(r, w, sig, I.VBool(!stop));
    case Cons(e, rest) =>
      var p := I.Program(r.fs, r.mode);
      w2, sig2 := ExprSound(r, fuel, w, sig, g, env, chk, e);
      var o := I.Eval(p, fuel, w.st, env, chk, e);
      if o.Ok? {
        var w1, sig1 := w2, sig2;
        HasShape(r, w1, sig1, o.v, TBool);
        if o.v.b != stop {
          HereKept(r, w, sig, w1, sig1, g, env);
          ForKept(w, sig, w1, sig1, env, CapturedEs(rest), g);
          w2, sig2 := AndOrSound(r, fuel, w1, sig1, g, env, chk, rest, stop);
          if I.EvalAndOr(p, fuel, w1.st, env, chk, rest, stop).Ok? { GoesTrans(w, sig, w1, sig1, w2, sig2, -1, -1, -1); }
        }
      }
  }

  lemma {:induction false} OpSound(r: Run, fuel: nat, w: World, sig: Sig, g: Ctx, env: int, chk: bool, op: Op,
                                   args: List<Expr>, t: IntTy)
    returns (w2: World, sig2: Sig)
    requires Here(r, w, sig, g, env) && SettledFor(w, env, CapturedEs(args), g)
    requires OkEs(r.fs.Keys, g.Keys, chk, args) && TypesE(r.rules, g, args).Some? && TypeOp(op, TypesE(r.rules, g, args).value, t).Some?
    requires r.rules.counts ==> CountKnown(op, args, t)
    ensures ExprSafe(r, w, sig, I.EvalOp(I.Program(r.fs, r.mode), fuel, w.st, env, chk, op, args, t),
                     TypeOp(op, TypesE(r.rules, g, args).value, t).value, w2, sig2)
    decreases fuel, args, 2
  {
    hide StoreOk, Goes, CtxOk, FuncsOk, ValueOk, OkEs, CapturedEs, SettledFor, I.EvalAll, I.EvalInts, TypesE, Here,
         ExprSafe;
    if op.Not? || op.Cmp? {
      w2, sig2 := TestSound(r, fuel, w, sig, g, env, chk, op, args, t);
    } else if op.Bnot? || op.Bin? {
      w2, sig2 := IntOpSound(r, fuel, w, sig, g, env, chk, op, args, t);
    } else {
      w2, sig2 := AndOrSound(r, fuel, w, sig, g, env, chk, args, op.Or?);
    }
  }

  lemma {:induction false} TestSound(r: Run, fuel: nat, w: World, sig: Sig, g: Ctx, env: int, chk: bool, op: Op,
                                    args: List<Expr>, t: IntTy)
    returns (w2: World, sig2: Sig)
    requires op.Not? || op.Cmp?
    requires Here(r, w, sig, g, env) && SettledFor(w, env, CapturedEs(args), g)
    requires OkEs(r.fs.Keys, g.Keys, chk, args) && TypesE(r.rules, g, args).Some? && TypeOp(op, TypesE(r.rules, g, args).value, t).Some?
    requires r.rules.counts ==> CountKnown(op, args, t)
    ensures ExprSafe(r, w, sig, I.EvalOp(I.Program(r.fs, r.mode), fuel, w.st, env, chk, op, args, t),
                     TypeOp(op, TypesE(r.rules, g, args).value, t).value, w2, sig2)
    decreases fuel, args, 1
  {
    hide StoreOk, Goes, CtxOk, FuncsOk, ValueOk, OkEs, CapturedEs, SettledFor, I.EvalAll, I.EvalInts, I.EvalAndOr,
         TypesE, I.Arith, Here;
    w2, sig2 := ExprsSound(r, fuel, w, sig, g, env, chk, args);
    var o, ts := I.EvalAll(I.Program(r.fs, r.mode), fuel, w.st, env, chk, args), TypesE(r.rules, g, args).value;
    if o.Ok? {
      if op.Not? {
        HasShape(r, w2, sig2, o.v[0], TBool);
        LeafOk(r, w2, sig2, I.VBool(!o.v[0].b));
      } else {
        CompareSound(r, w2, sig2, op.c, o.v, ts, t, o.st);
      }
    }
  }

  lemma {:induction false} IntOpSound(r: Run, fuel: nat, w: World, sig: Sig, g: Ctx, env: int, chk: bool, op: Op,
                                     args: List<Expr>, t: IntTy)
    returns (w2: World, sig2: Sig)
    requires op.Bnot? || op.Bin?
    requires Here(r, w, sig, g, env) && SettledFor(w, env, CapturedEs(args), g)
    requires OkEs(r.fs.Keys, g.Keys, chk, args) && TypesE(r.rules, g, args).Some? && TypeOp(op, TypesE(r.rules, g, args).value, t).Some?
    requires r.rules.counts ==> CountKnown(op, args, t)
    ensures ExprSafe(r, w, sig, I.EvalOp(I.Program(r.fs, r.mode), fuel, w.st, env, chk, op, args, t),
                     TypeOp(op, TypesE(r.rules, g, args).value, t).value, w2, sig2)
    decreases fuel, args, 1
  {
    hide IntTy.Holds, Wrap, CountKnown, StoreOk, Goes, CtxOk, FuncsOk, ValueOk, OkEs, CapturedEs, SettledFor, I.EvalAll,
         I.EvalInts, I.EvalAndOr, TypesE, I.Arith, Here;
    w2, sig2 := IntsSound(r, fuel, w, sig, g, env, chk, args, t);
    var o := I.EvalInts(I.Program(r.fs, r.mode), fuel, w.st, env, chk, args, t);
    TypesCount(r, g, args);
    if o.Ok? {
      if op.Bnot? {
        WrapFits(-o.v[0] - 1, t);
        LeafOk(r, w2, sig2, I.VInt(Wrap(-o.v[0] - 1, t), t));
      } else {
        CountRead(r, fuel, w, env, chk, op, args, t);
        ArithSound(r, w2, sig2, op.b, o.v, t, chk);
      }
    }
  }

  lemma {:induction false} TypesCount(r: Run, g: Ctx, es: List<Expr>)
    requires TypesE(r.rules, g, es).Some?
    ensures Length(TypesE(r.rules, g, es).value) == Length(es)
    decreases es
  {
    hide TypeE;
    if es.Cons? { TypesCount(r, g, es.tail); }
  }

  lemma CountRead(r: Run, fuel: nat, w: World, env: int, chk: bool, op: Op, args: List<Expr>, t: IntTy)
    requires op.Bin? && (r.rules.counts ==> CountKnown(op, args, t)) && (op.b.Ring() || Length(args) == 2)
    requires var o := I.EvalInts(I.Program(r.fs, r.mode), fuel, w.st, env, chk, args, t);
             o.Ok? && |o.v| == Length(args) && forall i :: 0 <= i < |o.v| ==> r.Fits(t, o.v[i])
    ensures r.rules.counts && !r.mode.Exact? && (op.b.Shl? || op.b.Shr?) ==> I.EvalInts(I.Program(r.fs, r.mode), fuel, w.st, env, chk, args, t).v[1] >= 0
  {
    hide Pow2;
    var p := I.Program(r.fs, r.mode);
    if r.rules.counts && !r.mode.Exact? && (op.b.Shl? || op.b.Shr?) && t.Signed() {
      var st1 := I.Eval(p, fuel, w.st, env, chk, args.head).st;
      assert I.EvalInts(p, fuel, st1, env, chk, args.tail, t).v[0] == args.tail.head.value;
    }
  }

  lemma CompareSound(r: Run, w: World, sig: Sig, c: CmpOp, vs: seq<I.Value>, ts: List<Ty>, t: IntTy, st: I.Store)
    requires ValuesOk(r, w, sig, vs, ts) && w.st == st
    requires ts == Cons(TInt(t), Cons(TInt(t), Nil)) || ((c.Eq? || c.Ne?) && ts == Cons(TBool, Cons(TBool, Nil)))
    ensures |vs| == 2
    ensures var o := I.CompareValues(c, vs[0], vs[1], st); o.Ok? && o.st == st && ValueOk(r, w, sig, o.v, TBool)
  {
    hide ValueOk;
    assert ValuesOk(r, w, sig, vs[1..], ts.tail) && ValuesOk(r, w, sig, vs[1..][1..], Nil);
    HasShape(r, w, sig, vs[0], ts.head);
    HasShape(r, w, sig, vs[1], ts.tail.head);
    LeafOk(r, w, sig, I.CompareValues(c, vs[0], vs[1], st).v);
  }

  lemma ArithSound(r: Run, w: World, sig: Sig, b: BinOp, ns: seq<int>, t: IntTy, chk: bool)
    requires ns != [] && (forall i :: 0 <= i < |ns| ==> r.Fits(t, ns[i])) && (b.Ring() || |ns| == 2)
    requires r.rules.counts && !r.mode.Exact? && (b.Shl? || b.Shr?) ==> ns[1] >= 0
    ensures var o := I.Arith(b, ns, t, chk, w.st);
            && (o.Ok? ==> o.st == w.st && ValueOk(r, w, sig, o.v, TInt(t)))
            && (o.Err? ==> Allowed(r, o.why))
  {
    hide ValueOk, Wrap, FoldMath, Pow2, Bitwise;
    var o := I.Arith(b, ns, t, chk, w.st);
    if b.Sub? && |ns| == 1 {
      WrapFits(-ns[0], t);
    } else if b.Ring() {
      WrapFits(FoldMath(b, ns[0], ns[1..]), t);
    } else {
      var x := BinMath(b, ns[0], ns[1]);
      if x.Num? { WrapFits(x.n, t); }
    }
    if o.Ok? { LeafOk(r, w, sig, o.v); }
  }

  // ----- calls -----

  lemma {:induction false} CallSound(r: Run, fuel: nat, w: World, sig: Sig, g: Ctx, env: int, chk: bool, e: Expr)
    returns (w2: World, sig2: Sig)
    requires e.ECall? && Here(r, w, sig, g, env) && SettledFor(w, env, CapturedE(e), g)
    requires OkE(r.fs.Keys, g.Keys, chk, e) && TypeE(r.rules, g, e).Some?
    ensures ExprSafe(r, w, sig, I.Eval(I.Program(r.fs, r.mode), fuel, w.st, env, chk, e), TypeE(r.rules, g, e).value,
                     w2, sig2)
    decreases fuel, e, 0
  {
    hide StoreOk, Goes, CtxOk, FuncsOk, ValueOk, I.Apply, I.EvalAll, TypesE, OkEs, CapturedEs;
    var p := I.Program(r.fs, r.mode);
    w2, sig2 := CalleeSound(r, fuel, w, sig, g, env, chk, e);
    var o := I.Eval(p, fuel, w.st, env, chk, e.callee);
    if o.Ok? {
      var w1, sig1, fty := w2, sig2, TypeE(r.rules, g, e.callee).value;
      HereKept(r, w, sig, w1, sig1, g, env);
      ForKept(w, sig, w1, sig1, env, CapturedEs(e.cargs), g);
      w2, sig2 := ExprsSound(r, fuel, w1, sig1, g, env, chk, e.cargs);
      var q := I.EvalAll(p, fuel, w1.st, env, chk, e.cargs);
      if q.Ok? {
        var w3, sig3 := w2, sig2;
        ValueKept(r, w1, sig1, w3, sig3, -1, o.v, fty);
        HasShape(r, w3, sig3, o.v, fty);
        GoesTrans(w, sig, w1, sig1, w3, sig3, -1, -1, -1);
        if fuel > 0 {
          w2, sig2 := ApplySound(r, fuel - 1, w3, sig3, o.v, q.v, fty);
          if I.Apply(p, fuel - 1, w3.st, o.v, q.v).Ok? { GoesTrans(w, sig, w3, sig3, w2, sig2, -1, -1, -1); }
        }
      }
    }
  }

  // A local, a computed closure, or a module function by name.
  lemma {:induction false} CalleeSound(r: Run, fuel: nat, w: World, sig: Sig, g: Ctx, env: int, chk: bool, e: Expr)
    returns (w2: World, sig2: Sig)
    requires e.ECall? && Here(r, w, sig, g, env) && SettledFor(w, env, CapturedE(e), g)
    requires OkE(r.fs.Keys, g.Keys, chk, e) && TypeE(r.rules, g, e).Some?
    ensures TypeE(r.rules, g, e.callee).Some? && SettledFor(w, env, CapturedEs(e.cargs), g)
    ensures ExprSafe(r, w, sig, I.Eval(I.Program(r.fs, r.mode), fuel, w.st, env, chk, e.callee),
                     TypeE(r.rules, g, e.callee).value, w2, sig2)
    decreases fuel, e.callee, 2
  {
    hide StoreOk, Goes, CtxOk, FuncsOk, ValueOk, OkEs, TypesE;
    if e.callee.EName? && e.callee.x !in g {
      w2, sig2 := w, sig;
      GoesRefl(r, w, sig, -1);
      InScope(w, sig, g, env);
      assert TypeE(r.rules, g, e.callee).Some?;
      NotShadowed(r, w, sig, env, e.callee.x);
      FuncSound(r, w, sig, e.callee.x);
    } else {
      w2, sig2 := ExprSound(r, fuel, w, sig, g, env, chk, e.callee);
    }
  }

  // No environment has a name that the module gives a function.
  lemma {:induction false} NotShadowed(r: Run, w: World, sig: Sig, e: int, x: string)
    requires StoreOk(r, w, sig) && e < |w.st.envs| && x in r.fs
    ensures I.Lookup(w.st.envs, e, x) == None
    decreases e
  {
    if 0 <= e {
      assert EnvOk(r, w, e);
      NotShadowed(r, w, sig, w.st.envs[e].parent, x);
    }
  }

  lemma FuncSound(r: Run, w: World, sig: Sig, x: string)
    requires FuncsOk(r) && x in r.fs
    ensures var d := r.fs[x]; ValueOk(r, w, sig, I.VClo(d.params, d.ret, d.body, -1), TFunc(ParamTypes(d.params), d.ret))
  {
    hide OkSs, TypedSs;
    var d := r.fs[x];
    var none: Ctx := map[];
    assert FuncOk(r, d);
    assert none.Keys + ParamNames(d.params) == ParamNames(d.params);
    assert ClosureOk(r, w, sig, I.VClo(d.params, d.ret, d.body, -1), none);
  }

  // Binding well-typed arguments succeeds.
  lemma {:induction false} ParamsSound(r: Run, w: World, sig: Sig, env: int, g: Ctx, ps: List<Param>,
                                       vals: seq<I.Value>,
                                       decls: set<string>)
    returns (w2: World, sig2: Sig)
    requires StoreOk(r, w, sig) && CtxOk(w, sig, g, env) && w.later[env] == ParamNames(ps) + decls
    requires OkParams(r.fs.Keys, ps) && DistinctParams(ps) && ValuesOk(r, w, sig, vals, ParamTypes(ps))
    ensures I.BindParams(w.st, env, ps, vals) == Some(w2.st) && StoreOk(r, w2, sig2) && Goes(w, sig, w2, sig2, env)
    ensures CtxOk(w2, sig2, WithParams(g, ps), env) && w2.later[env] == decls && ParamNames(ps) <= w2.st.envs[env].vars.Keys
    ensures w2.st.envs[env].parent == w.st.envs[env].parent
    decreases ps
  {
    hide ValueOk, Goes, CellOk, EnvOk;
    match ps
    case Nil =>
      w2, sig2 := w, sig;
      GoesRefl(r, w, sig, env);
      assert {} + decls == decls;
    case Cons(p, rest) =>
      var b := Bind(p.ty, true);
      HasShape(r, w, sig, vals[0], p.ty);
      var later := ParamNames(rest) + decls;
      assert w.later[env] == {p.name} + later;
      var w1, sig1 := Declared(w, env, p.name, vals[0], true, later), sig + [b];
      DeclaredOk(r, w, sig, env, p.name, vals[0], b, later);
      DeclaredCtx(r, w, sig, env, p.name, vals[0], b, later, g);
      ValuesKept(r, w, sig, w1, sig1, env, vals[1..], ParamTypes(rest));
      w2, sig2 := ParamsSound(r, w1, sig1, env, g[p.name := b], rest, vals[1..], decls);
      GoesTrans(w, sig, w1, sig1, w2, sig2, env, env, env);
      EnvGrows(w1, sig1, w2, sig2, env);
  }

  lemma EnvGrows(w: World, sig: Sig, w2: World, sig2: Sig, env: int)
    requires Goes(w, sig, w2, sig2, env) && 0 <= env < |w.st.envs|
    ensures env < |w2.st.envs| && w.st.envs[env].vars.Keys <= w2.st.envs[env].vars.Keys && w2.st.envs[env].parent == w.st.envs[env].parent
  {
    assert EnvMoves(w.st.envs[env], w2.st.envs[env], w.later[env], w2.later[env]);
  }

  lemma {:induction false} ValuesKept(r: Run, w: World, sig: Sig, w2: World, sig2: Sig, env: int, vs: seq<I.Value>,
                                      ts: List<Ty>)
    requires Goes(w, sig, w2, sig2, env) && ValuesOk(r, w, sig, vs, ts)
    ensures ValuesOk(r, w2, sig2, vs, ts)
    decreases ts
  {
    hide ValueOk, Goes;
    if ts.Cons? {
      ValueKept(r, w, sig, w2, sig2, env, vs[0], ts.head);
      ValuesKept(r, w, sig, w2, sig2, env, vs[1..], ts.tail);
    }
  }

  lemma {:induction false} WithParamsKeys(g: Ctx, ps: List<Param>)
    ensures WithParams(g, ps).Keys == g.Keys + ParamNames(ps)
    decreases ps
  {
    match ps
    case Nil => assert g.Keys + {} == g.Keys;
    case Cons(p, rest) => WithParamsKeys(g[p.name := Bind(p.ty, true)], rest);
  }

  // The environment of a call, with the parameters bound.
  lemma EnterSound(r: Run, w: World, sig: Sig, f: I.Value, g: Ctx, vals: seq<I.Value>) returns (w1: World, sig1: Sig)
    requires f.VClo? && -1 <= f.env < |w.st.envs| && ClosureOk(r, w, sig, f, g) && StoreOk(r, w, sig) && FuncsOk(r)
    requires ValuesOk(r, w, sig, vals, ParamTypes(f.params))
    ensures I.BindParams(I.NewEnv(w.st, f.env), |w.st.envs|, f.params, vals) == Some(w1.st)
    ensures Here(r, w1, sig1, WithParams(g, f.params), |w.st.envs|) && Goes(w, sig, w1, sig1, -1)
    ensures w1.later[|w.st.envs|] == Decls(f.body) && -1 <= w1.st.envs[|w.st.envs|].parent < |w.st.envs|
    ensures SettledOver(w1, |w.st.envs|, CapturedSs(f.body), WithParams(g, f.params))
  {
    hide ValueOk, OkSs, TypedSs, CellOk, EnvOk, CapturedSs, FuncsOk;
    var e := |w.st.envs|;
    var w0 := Opened(w, f.env, ParamNames(f.params) + Decls(f.body));
    OpenedOk(r, w, sig, f.env, ParamNames(f.params) + Decls(f.body));
    ValuesKept(r, w, sig, w0, sig, -1, vals, ParamTypes(f.params));
    OpenedCtx(w, sig, f.env, ParamNames(f.params) + Decls(f.body), g);
    w1, sig1 := ParamsSound(r, w0, sig, e, g, f.params, vals, Decls(f.body));
    GoesTrans(w, sig, w0, sig, w1, sig1, -1, e, -1);
    WithParamsKeys(g, f.params);
    forall x | x in CapturedSs(f.body) && x in WithParams(g, f.params)
      ensures x in w1.st.envs[e].vars || Settled(w1, w1.st.envs[e].parent, x).Some?
    {
      if x !in ParamNames(f.params) {
        assert CellHas(sig, Settled(w, f.env, x), g[x]);
        SettledKept(w, w1, f.env, x);
      }
    }
  }

  lemma OpenedCtx(w: World, sig: Sig, parent: int, decls: set<string>, g: Ctx)
    requires |w.later| == |w.st.envs| && -1 <= parent < |w.st.envs|
    requires forall x :: x in g ==> CellHas(sig, Settled(w, parent, x), g[x])
    ensures CtxOk(Opened(w, parent, decls), sig, g, |w.st.envs|)
  {
    var w0, e := Opened(w, parent, decls), |w.st.envs|;
    forall x | x in g ensures CellHas(sig, I.Lookup(w0.st.envs, e, x), g[x]) {
      assert CellHas(sig, Settled(w, parent, x), g[x]);
      SettledIsLookup(w, parent, x);
      OpenedLookup(w, parent, decls, parent, x);
    }
  }

  lemma {:induction false} OpenedLookup(w: World, parent: int, decls: set<string>, e: int, x: string)
    requires e < |w.st.envs|
    ensures I.Lookup(Opened(w, parent, decls).st.envs, e, x) == I.Lookup(w.st.envs, e, x)
    decreases e
  {
    if 0 <= e && x !in w.st.envs[e].vars && w.st.envs[e].parent < e { OpenedLookup(w, parent, decls, w.st.envs[e].parent, x); }
  }

  lemma {:induction false} ApplySound(r: Run, fuel: nat, w: World, sig: Sig, f: I.Value, vals: seq<I.Value>, fty: Ty)
    returns (w2: World, sig2: Sig)
    requires f.VClo? && fty.TFunc? && StoreOk(r, w, sig) && FuncsOk(r)
    requires ValueOk(r, w, sig, f, fty) && ValuesOk(r, w, sig, vals, fty.params)
    ensures ExprSafe(r, w, sig, I.Apply(I.Program(r.fs, r.mode), fuel, w.st, f, vals), fty.ret, w2, sig2)
    decreases fuel, f.body, 3
  {
    hide StoreOk, Goes, CtxOk, FuncsOk, OkSs, TypedSs, CapturedSs, I.ExecBlock, I.BindParams;
    var g :| ClosureOk(r, w, sig, f, g);
    var e := |w.st.envs|;
    var w1, sig1 := EnterSound(r, w, sig, f, g, vals);
    WithParamsKeys(g, f.params);
    w2, sig2 := BlockSound(r, fuel, w1, sig1, WithParams(g, f.params), e, false, false, f.ret, f.body);
    var o := I.ExecBlock(I.Program(r.fs, r.mode), fuel, w1.st, e, false, f.body);
    if o.Ok? {
      GoesTrans(w, sig, w1, sig1, w2, sig2, -1, e, -1);
      if o.v.Return? { HasShape(r, w2, sig2, o.v.v, f.ret); }
      LeafOk(r, w2, sig2, I.VUnit);
    }
  }

  // ----- statements -----

  ghost predicate FlowSafe(r: Run, w: World, sig: Sig, out: I.Out<I.Flow>, ret: Ty, loop: bool, w2: World, sig2: Sig,
                           env: int) {
    && Safe(r, w, sig, out, w2, sig2, env)
    && (out.Ok? && out.v.Return? ==> ValueOk(r, w2, sig2, out.v.v, ret))
    && (out.Ok? && (out.v.Break? || out.v.Continue?) ==> loop)
  }

  lemma {:induction false} BlockSound(r: Run, fuel: nat, w: World, sig: Sig, g: Ctx, env: int, chk: bool, loop: bool,
                                      ret: Ty,
                                      ss: List<Stmt>)
    returns (w2: World, sig2: Sig)
    requires Here(r, w, sig, g, env) && SettledOver(w, env, CapturedSs(ss), g) && w.later[env] == Decls(ss)
    requires OkSs(r.fs.Keys, g.Keys, chk, loop, ss) && TypedSs(r.rules, g, ret, ss)
    ensures FlowSafe(r, w, sig, I.ExecBlock(I.Program(r.fs, r.mode), fuel, w.st, env, chk, ss), ret, loop, w2, sig2, env)
    decreases fuel, ss, 2
  {
    hide StoreOk, Goes, CtxOk, FuncsOk, ValueOk, I.Exec, OkS, TypedS, CapturedS;
    GoesRefl(r, w, sig, env);
    w2, sig2 := w, sig;
    match ss
    case Nil =>
    case Cons(s, rest) =>
      InScope(w, sig, g, env);
      FirstSettled(r, w, sig, g, env, s, rest);
      w2, sig2 := StmtSound(r, fuel, w, sig, g, env, chk, loop, ret, s, Decls(rest));
      var o := I.Exec(I.Program(r.fs, r.mode), fuel, w.st, env, chk, s);
      if o.Ok? && o.v.Normal? {
        var w1, sig1 := w2, sig2;
        RestSettled(w, sig, w1, sig1, g, env, s, rest);
        AfterKeys(g, s);
        w2, sig2 := BlockSound(r, fuel, w1, sig1, After(g, s), env, chk, loop, ret, rest);
        if I.ExecBlock(I.Program(r.fs, r.mode), fuel, w1.st, env, chk, rest).Ok? { GoesTrans(w, sig, w1, sig1, w2, sig2, env, env, env); }
      }
  }

  function DeclOf(s: Stmt): set<string> { if s.SLet? then {s.name} else {} }

  lemma AfterKeys(g: Ctx, s: Stmt)
    ensures After(g, s).Keys == if s.SLet? then g.Keys + {s.name} else g.Keys
  {
  }

  lemma FirstSettled(r: Run, w: World, sig: Sig, g: Ctx, env: int, s: Stmt, rest: List<Stmt>)
    requires StoreOk(r, w, sig) && 0 <= env < |w.st.envs| && w.later[env] == Decls(Cons(s, rest))
    requires SettledOver(w, env, CapturedSs(Cons(s, rest)), g) && CapturedS(s) !! Decls(Cons(s, rest))
    ensures SettledFor(w, env, CapturedS(s), g) && w.later[env] == DeclOf(s) + Decls(rest)
  {
    hide CapturedS, CellOk;
    assert EnvOk(r, w, env);
    forall x | x in CapturedS(s) && x in g ensures Settled(w, env, x).Some? { assert x in CapturedSs(Cons(s, rest)); }
  }

  lemma RestSettled(w: World, sig: Sig, w1: World, sig1: Sig, g: Ctx, env: int, s: Stmt, rest: List<Stmt>)
    requires Goes(w, sig, w1, sig1, env) && 0 <= env < |w.st.envs| && SettledOver(w, env, CapturedSs(Cons(s, rest)), g)
    requires DeclOf(s) <= w1.st.envs[env].vars.Keys
    ensures SettledOver(w1, env, CapturedSs(rest), After(g, s))
  {
    hide CapturedS;
    EnvGrows(w, sig, w1, sig1, env);
    forall x | x in CapturedSs(rest) && x in After(g, s)
      ensures x in w1.st.envs[env].vars || Settled(w1, w1.st.envs[env].parent, x).Some?
    {
      if x !in w1.st.envs[env].vars { SettledKept(w, w1, w.st.envs[env].parent, x); }
    }
  }

  lemma {:induction false} StmtSound(r: Run, fuel: nat, w: World, sig: Sig, g: Ctx, env: int, chk: bool, loop: bool,
                                     ret: Ty,
                                     s: Stmt, rest: set<string>)
    returns (w2: World, sig2: Sig)
    requires Here(r, w, sig, g, env) && SettledFor(w, env, CapturedS(s), g) && w.later[env] == DeclOf(s) + rest
    requires OkS(r.fs.Keys, g.Keys, chk, loop, s) && TypedS(r.rules, g, ret, s)
    ensures var out := I.Exec(I.Program(r.fs, r.mode), fuel, w.st, env, chk, s);
            && FlowSafe(r, w, sig, out, ret, loop, w2, sig2, env)
            && (out.Ok? && out.v.Normal? ==> Here(r, w2, sig2, After(g, s), env) && w2.later[env] == rest && DeclOf(s) <= w2.st.envs[env].vars.Keys)
    decreases fuel, s, 5
  {
    if s.SLet? {
      w2, sig2 := LetSound(r, fuel, w, sig, g, env, chk, ret, s, rest);
    } else {
      hide StoreOk, Goes, CtxOk, FuncsOk, ValueOk, I.Exec, OkS, TypedS, CapturedS, SettledFor;
      w2, sig2 := PlainSound(r, fuel, w, sig, g, env, chk, loop, ret, s);
      var out := I.Exec(I.Program(r.fs, r.mode), fuel, w.st, env, chk, s);
      if out.Ok? {
        GoesWider(w, sig, w2, sig2, env);
        HereKept(r, w, sig, w2, sig2, g, env);
        LaterSame(w, sig, w2, sig2, g, env);
        assert {} + rest == rest;
      }
    }
  }

  lemma GoesWider(w: World, sig: Sig, w2: World, sig2: Sig, env: int)
    requires Goes(w, sig, w2, sig2, -1)
    ensures Goes(w, sig, w2, sig2, env)
  {
  }

  lemma LaterSame(w: World, sig: Sig, w2: World, sig2: Sig, g: Ctx, env: int)
    requires Goes(w, sig, w2, sig2, -1) && CtxOk(w, sig, g, env)
    ensures env < |w2.later| && w2.later[env] == w.later[env]
  {
  }

  lemma {:induction false} LetSound(r: Run, fuel: nat, w: World, sig: Sig, g: Ctx, env: int, chk: bool, ret: Ty,
                                    s: Stmt,
                                    rest: set<string>)
    returns (w2: World, sig2: Sig)
    requires s.SLet? && Here(r, w, sig, g, env) && SettledFor(w, env, CapturedS(s), g) && w.later[env] == {s.name} + rest
    requires OkS(r.fs.Keys, g.Keys, chk, false, s) || OkS(r.fs.Keys, g.Keys, chk, true, s)
    requires TypedS(r.rules, g, ret, s)
    ensures var out := I.Exec(I.Program(r.fs, r.mode), fuel, w.st, env, chk, s);
            && Safe(r, w, sig, out, w2, sig2, env)
            && (out.Ok? ==> out.v == I.Normal && Here(r, w2, sig2, After(g, s), env) && w2.later[env] == rest && s.name in w2.st.envs[env].vars)
    decreases fuel, s, 3
  {
    hide StoreOk, Goes, CtxOk, FuncsOk, ValueOk, I.Eval, OkE, TypeE, CapturedE, SettledFor;
    w2, sig2 := ExprSound(r, fuel, w, sig, g, env, chk, s.init);
    var o := I.Eval(I.Program(r.fs, r.mode), fuel, w.st, env, chk, s.init);
    if o.Ok? {
      var w1, sig1, b := w2, sig2, Bind(s.lty, s.mutable);
      HereKept(r, w, sig, w1, sig1, g, env);
      LaterSame(w, sig, w1, sig1, g, env);
      InScope(w1, sig1, g, env);
      HasShape(r, w1, sig1, o.v, s.lty);
      StoreSizes(r, w1, sig1);
      DeclaredOk(r, w1, sig1, env, s.name, o.v, b, rest);
      DeclaredCtx(r, w1, sig1, env, s.name, o.v, b, rest, g);
      w2, sig2 := Declared(w1, env, s.name, o.v, s.mutable, rest), sig1 + [b];
      GoesTrans(w, sig, w1, sig1, w2, sig2, -1, env, env);
    }
  }

  lemma InScope(w: World, sig: Sig, g: Ctx, env: int)
    requires CtxOk(w, sig, g, env)
    ensures 0 <= env < |w.st.envs|
  {
  }

  lemma StoreSizes(r: Run, w: World, sig: Sig)
    requires StoreOk(r, w, sig)
    ensures |w.later| == |w.st.envs| && |sig| == |w.st.cells|
  {
  }

  // Every statement that declares nothing in its own block.
  lemma {:induction false} PlainSound(r: Run, fuel: nat, w: World, sig: Sig, g: Ctx, env: int, chk: bool, loop: bool,
                                      ret: Ty,
                                      s: Stmt)
    returns (w2: World, sig2: Sig)
    requires !s.SLet? && Here(r, w, sig, g, env) && SettledFor(w, env, CapturedS(s), g)
    requires OkS(r.fs.Keys, g.Keys, chk, loop, s) && TypedS(r.rules, g, ret, s)
    ensures FlowSafe(r, w, sig, I.Exec(I.Program(r.fs, r.mode), fuel, w.st, env, chk, s), ret, loop, w2, sig2, -1)
    decreases fuel, s, 4
  {
    hide StoreOk, Goes, CtxOk, FuncsOk, ValueOk, I.Eval, I.ExecBlock, I.ExecWhile, I.ExecLoop, I.ExecFor,
         I.ExecBranches, OkE, OkSs, OkBs, TypeE, TypedSs, TypedBs, CapturedE, CapturedSs, CapturedBs, SettledFor,
         I.Assign;
    GoesRefl(r, w, sig, -1);
    w2, sig2 := w, sig;
    var p := I.Program(r.fs, r.mode);
    match s
    case SSet(_, _) => w2, sig2 := SetSound(r, fuel, w, sig, g, env, chk, ret, s);
    case SDo(e) => w2, sig2 := ExprSound(r, fuel, w, sig, g, env, chk, e);
    case SReturn(e) => w2, sig2 := ExprSound(r, fuel, w, sig, g, env, chk, e);
    case SReturnNone => LeafOk(r, w, sig, I.VUnit);
    case SIf(_, _) => w2, sig2 := IfSound(r, fuel, w, sig, g, env, chk, loop, ret, s);
    case SWhile(_, _) => w2, sig2 := WhileSound(r, fuel, w, sig, g, env, chk, ret, s);
    case SForNum(_, _, _, _, _, _) => w2, sig2 := ForNumSound(r, fuel, w, sig, g, env, chk, ret, s);
    case SLoop(body) => w2, sig2 := LoopSound(r, fuel, w, sig, g, env, chk, ret, body);
    case SChecked(body) => w2, sig2 := InnerSound(r, fuel, w, sig, g, env, true, loop, ret, body);
    case _ =>
  }

  lemma {:induction false} SetSound(r: Run, fuel: nat, w: World, sig: Sig, g: Ctx, env: int, chk: bool, ret: Ty,
                                    s: Stmt)
    returns (w2: World, sig2: Sig)
    requires s.SSet? && Here(r, w, sig, g, env) && SettledFor(w, env, CapturedS(s), g)
    requires OkE(r.fs.Keys, g.Keys, chk, s.rhs) && TypedS(r.rules, g, ret, s)
    ensures FlowSafe(r, w, sig, I.Exec(I.Program(r.fs, r.mode), fuel, w.st, env, chk, s), ret, false, w2, sig2, -1)
    decreases fuel, s, 3
  {
    hide StoreOk, Goes, CtxOk, FuncsOk, ValueOk, I.Eval, OkE, TypeE, CapturedE, SettledFor, I.Assign;
    w2, sig2 := ExprSound(r, fuel, w, sig, g, env, chk, s.rhs);
    var o := I.Eval(I.Program(r.fs, r.mode), fuel, w.st, env, chk, s.rhs);
    if o.Ok? {
      var w1 := w2;
      HereKept(r, w, sig, w1, sig2, g, env);
      w2 := AssignSound(r, w1, sig2, g, env, s.target, o.v);
      GoesTrans(w, sig, w1, sig2, w2, sig2, -1, -1, -1);
    }
  }

  // A well-typed `set` whose value is computed succeeds exactly on a mutable name.
  lemma SetExact(r: Run, fuel: nat, w: World, sig: Sig, g: Ctx, env: int, chk: bool, x: string, rhs: Expr)
    requires Here(r, w, sig, g, env) && SettledFor(w, env, CapturedE(rhs), g)
    requires OkE(r.fs.Keys, g.Keys, chk, rhs) && x in g && TypeE(r.rules, g, rhs) == Some(g[x].ty)
    ensures var out := I.Exec(I.Program(r.fs, r.mode), fuel, w.st, env, chk, SSet(x, rhs));
            && (out.Ok? <==> g[x].mutable && I.Eval(I.Program(r.fs, r.mode), fuel, w.st, env, chk, rhs).Ok?)
            && (out == I.Err(I.Mistyped) <==> !g[x].mutable && I.Eval(I.Program(r.fs, r.mode), fuel, w.st, env, chk, rhs).Ok?)
  {
    hide ValueOk, I.Eval, OkE, TypeE, CapturedE, SettledFor, FuncsOk, Goes, EnvOk;
    var w1, sig1 := ExprSound(r, fuel, w, sig, g, env, chk, rhs);
    var o := I.Eval(I.Program(r.fs, r.mode), fuel, w.st, env, chk, rhs);
    if o.Ok? {
      HereKept(r, w, sig, w1, sig1, g, env);
      assert CellHas(sig1, I.Lookup(w1.st.envs, env, x), g[x]);
      assert CellOk(r, w1, sig1, I.Lookup(w1.st.envs, env, x).value);
      if g[x].mutable {
        var w2 := AssignSound(r, w1, sig1, g, env, x, o.v);
      } else {
        ConstStays(w1.st, env, x, o.v);
      }
    }
  }

  // So a block that sets its own immutable name never completes.
  lemma ConstSetFails(r: Run, fuel: nat, w: World, sig: Sig, g: Ctx, env: int, chk: bool, ret: Ty, s: Stmt, rhs: Expr,
                      rest: List<Stmt>)
    requires s.SLet? && !s.mutable
    requires var ss := Cons(s, Cons(SSet(s.name, rhs), rest));
             Here(r, w, sig, g, env) && SettledOver(w, env, CapturedSs(ss), g) && w.later[env] == Decls(ss)
             && OkSs(r.fs.Keys, g.Keys, chk, false, ss)
    requires TypedS(r.rules, g, ret, s) && TypeE(r.rules, After(g, s), rhs) == Some(s.lty)
    ensures var p := I.Program(r.fs, r.mode);
            var out, one := I.ExecBlock(p, fuel, w.st, env, chk, Cons(s, Cons(SSet(s.name, rhs), rest))), I.Exec(p,
                fuel, w.st, env, chk, s);
            !out.Ok? && (one.Ok? && I.Eval(p, fuel, one.st, env, chk, rhs).Ok? ==> out == I.Err(I.Mistyped))
  {
    hide StoreOk, Goes, CtxOk, FuncsOk, ValueOk, I.Exec, OkE, TypeE, CapturedE, SettledFor, SettledOver;
    var p, next, g1 := I.Program(r.fs, r.mode), SSet(s.name, rhs), After(g, s);
    InScope(w, sig, g, env);
    FirstSettled(r, w, sig, g, env, s, Cons(next, rest));
    var w1, sig1 := LetSound(r, fuel, w, sig, g, env, chk, ret, s, Decls(Cons(next, rest)));
    var one := I.Exec(p, fuel, w.st, env, chk, s);
    if one.Ok? {
      RestSettled(w, sig, w1, sig1, g, env, s, Cons(next, rest));
      InScope(w1, sig1, g1, env);
      FirstSettled(r, w1, sig1, g1, env, next, rest);
      AfterKeys(g, s);
      assert OkSs(r.fs.Keys, g1.Keys, chk, false, Cons(next, rest));
      assert OkS(r.fs.Keys, g1.Keys, chk, false, next);
      SetExact(r, fuel, w1, sig1, g1, env, chk, s.name, rhs);
      assert I.ExecBlock(p, fuel, w.st, env, chk, Cons(s, Cons(next, rest))) == I.ExecBlock(p, fuel, one.st, env, chk, Cons(next, rest));
    }
  }

  lemma {:induction false} IfSound(r: Run, fuel: nat, w: World, sig: Sig, g: Ctx, env: int, chk: bool, loop: bool,
                                   ret: Ty, s: Stmt)
    returns (w2: World, sig2: Sig)
    requires s.SIf? && Here(r, w, sig, g, env) && SettledFor(w, env, CapturedS(s), g)
    requires OkS(r.fs.Keys, g.Keys, chk, loop, s) && TypedS(r.rules, g, ret, s)
    ensures FlowSafe(r, w, sig, I.Exec(I.Program(r.fs, r.mode), fuel, w.st, env, chk, s), ret, loop, w2, sig2, -1)
    decreases fuel, s, 3
  {
    hide StoreOk, Goes, CtxOk, FuncsOk, ValueOk, I.ExecBlock, I.ExecBranches, OkSs, OkBs, TypedSs, TypedBs, CapturedSs,
         CapturedBs, SettledFor;
    var p := I.Program(r.fs, r.mode);
    IfSettled(w, env, s.branches, s.orelse, g);
    w2, sig2 := BranchesSound(r, fuel, w, sig, g, env, chk, loop, ret, s.branches);
    var o := I.ExecBranches(p, fuel, w.st, env, chk, s.branches);
    if o.Ok? && o.v.None? {
      var w1, sig1 := w2, sig2;
      HereKept(r, w, sig, w1, sig1, g, env);
      ForKept(w, sig, w1, sig1, env, CapturedSs(s.orelse), g);
      w2, sig2 := InnerSound(r, fuel, w1, sig1, g, env, chk, loop, ret, s.orelse);
      FlowThen(r, w, sig, w1, sig1, I.ExecInner(p, fuel, w1.st, env, chk, s.orelse), ret, loop, w2, sig2);
    }
  }

  lemma IfSettled(w: World, env: int, bs: List<Branch>, orelse: List<Stmt>, g: Ctx)
    requires SettledFor(w, env, CapturedS(SIf(bs, orelse)), g)
    ensures SettledFor(w, env, CapturedBs(bs), g) && SettledFor(w, env, CapturedSs(orelse), g)
  {
    hide CapturedBs, CapturedSs;
  }

  // A block in an environment of its own.
  lemma {:induction false} InnerSound(r: Run, fuel: nat, w: World, sig: Sig, g: Ctx, env: int, chk: bool, loop: bool,
                                      ret: Ty,
                                      ss: List<Stmt>)
    returns (w2: World, sig2: Sig)
    requires Here(r, w, sig, g, env) && SettledFor(w, env, CapturedSs(ss), g)
    requires OkSs(r.fs.Keys, g.Keys, chk, loop, ss) && TypedSs(r.rules, g, ret, ss)
    ensures FlowSafe(r, w, sig, I.ExecInner(I.Program(r.fs, r.mode), fuel, w.st, env, chk, ss), ret, loop, w2, sig2, -1)
    decreases fuel, ss, 3
  {
    hide StoreOk, Goes, CtxOk, FuncsOk, ValueOk, I.ExecBlock, OkSs, TypedSs, CapturedSs;
    var e, w1 := |w.st.envs|, Opened(w, env, Decls(ss));
    OpenedHere(r, w, sig, g, env, Decls(ss), CapturedSs(ss));
    w2, sig2 := BlockSound(r, fuel, w1, sig, g, e, chk, loop, ret, ss);
    if I.ExecBlock(I.Program(r.fs, r.mode), fuel, w1.st, e, chk, ss).Ok? { GoesTrans(w, sig, w1, sig, w2, sig2, -1, e, -1); }
  }

  lemma OpenedHere(r: Run, w: World, sig: Sig, g: Ctx, env: int, decls: set<string>, xs: set<string>)
    requires Here(r, w, sig, g, env) && SettledFor(w, env, xs, g)
    ensures var w1, e := Opened(w, env, decls), |w.st.envs|;
            && Here(r, w1, sig, g, e) && w1.later[e] == decls && Goes(w, sig, w1, sig, -1)
            && -1 <= w1.st.envs[e].parent < e && SettledOver(w1, e, xs, g)
  {
    hide CellOk, EnvOk, FuncsOk;
    var w1, e := Opened(w, env, decls), |w.st.envs|;
    OpenedOk(r, w, sig, env, decls);
    forall x | x in g ensures CellHas(sig, I.Lookup(w1.st.envs, e, x), g[x]) {
      assert CellHas(sig, I.Lookup(w.st.envs, env, x), g[x]);
      OpenedLookup(w, env, decls, env, x);
    }
    ForKept(w, sig, w1, sig, env, xs, g);
  }

  lemma {:induction false} BranchesSound(r: Run, fuel: nat, w: World, sig: Sig, g: Ctx, env: int, chk: bool,
                                         loop: bool, ret: Ty,
                                         bs: List<Branch>)
    returns (w2: World, sig2: Sig)
    requires Here(r, w, sig, g, env) && SettledFor(w, env, CapturedBs(bs), g)
    requires OkBs(r.fs.Keys, g.Keys, chk, loop, bs) && TypedBs(r.rules, g, ret, bs)
    ensures var out := I.ExecBranches(I.Program(r.fs, r.mode), fuel, w.st, env, chk, bs);
            && Safe(r, w, sig, out, w2, sig2, -1)
            && (out.Ok? && out.v.Some? ==> FlowSafe(r, w, sig, I.Ok(out.v.value, out.st), ret, loop, w2, sig2, -1))
    decreases fuel, bs, 3
  {
    hide StoreOk, Goes, CtxOk, FuncsOk, ValueOk, I.Eval, I.ExecBlock, OkE, OkSs, TypeE, TypedSs, CapturedE, CapturedSs;
    GoesRefl(r, w, sig, -1);
    w2, sig2 := w, sig;
    match bs
    case Nil =>
    case Cons(b, rest) =>
      var p := I.Program(r.fs, r.mode);
      w2, sig2 := ExprSound(r, fuel, w, sig, g, env, chk, b.cond);
      var o := I.Eval(p, fuel, w.st, env, chk, b.cond);
      if o.Ok? {
        var w1, sig1 := w2, sig2;
        HasShape(r, w1, sig1, o.v, TBool);
        HereKept(r, w, sig, w1, sig1, g, env);
        ForKept(w, sig, w1, sig1, env, CapturedBs(bs), g);
        if o.v.b {
          w2, sig2 := InnerSound(r, fuel, w1, sig1, g, env, chk, loop, ret, b.bbody);
          if I.ExecInner(p, fuel, w1.st, env, chk, b.bbody).Ok? { GoesTrans(w, sig, w1, sig1, w2, sig2, -1, -1, -1); }
        } else {
          w2, sig2 := BranchesSound(r, fuel, w1, sig1, g, env, chk, loop, ret, rest);
          if I.ExecBranches(p, fuel, w1.st, env, chk, rest).Ok? { GoesTrans(w, sig, w1, sig1, w2, sig2, -1, -1, -1); }
        }
      }
  }

  lemma {:induction false} WhileSound(r: Run, fuel: nat, w: World, sig: Sig, g: Ctx, env: int, chk: bool, ret: Ty,
                                      s: Stmt)
    returns (w2: World, sig2: Sig)
    requires s.SWhile? && Here(r, w, sig, g, env) && SettledFor(w, env, CapturedS(s), g)
    requires OkE(r.fs.Keys, g.Keys, chk, s.cond) && OkSs(r.fs.Keys, g.Keys, chk, true, s.body) && TypedS(r.rules, g, ret, s)
    ensures FlowSafe(r, w, sig, I.ExecWhile(I.Program(r.fs, r.mode), fuel, w.st, env, chk, s), ret, false, w2, sig2, -1)
    decreases fuel, s, 3
  {
    hide StoreOk, Goes, CtxOk, FuncsOk, ValueOk, I.Eval, I.ExecBlock, OkE, OkSs, TypeE, TypedSs, CapturedE, CapturedSs;
    var p := I.Program(r.fs, r.mode);
    w2, sig2 := ExprSound(r, fuel, w, sig, g, env, chk, s.cond);
    var o := I.Eval(p, fuel, w.st, env, chk, s.cond);
    if o.Ok? {
      var w1, sig1 := w2, sig2;
      HasShape(r, w1, sig1, o.v, TBool);
      HereKept(r, w, sig, w1, sig1, g, env);
      ForKept(w, sig, w1, sig1, env, CapturedS(s), g);
      if o.v.b && fuel > 0 {
        w2, sig2 := InnerSound(r, fuel - 1, w1, sig1, g, env, chk, true, ret, s.body);
        var q := I.ExecInner(p, fuel - 1, w1.st, env, chk, s.body);
        if q.Ok? {
          var w3, sig3 := w2, sig2;
          GoesTrans(w, sig, w1, sig1, w3, sig3, -1, -1, -1);
          if q.v.Normal? || q.v.Continue? {
            HereKept(r, w, sig, w3, sig3, g, env);
            ForKept(w, sig, w3, sig3, env, CapturedS(s), g);
            w2, sig2 := WhileSound(r, fuel - 1, w3, sig3, g, env, chk, ret, s);
            if I.ExecWhile(p, fuel - 1, w3.st, env, chk, s).Ok? { GoesTrans(w, sig, w3, sig3, w2, sig2, -1, -1, -1); }
          }
        }
      }
    }
  }

  lemma {:induction false} LoopSound(r: Run, fuel: nat, w: World, sig: Sig, g: Ctx, env: int, chk: bool, ret: Ty,
                                     body: List<Stmt>)
    returns (w2: World, sig2: Sig)
    requires Here(r, w, sig, g, env) && SettledFor(w, env, CapturedSs(body), g)
    requires OkSs(r.fs.Keys, g.Keys, chk, true, body) && TypedSs(r.rules, g, ret, body)
    ensures FlowSafe(r, w, sig, I.ExecLoop(I.Program(r.fs, r.mode), fuel, w.st, env, chk, body), ret, false, w2, sig2, -1)
    decreases fuel, body, 4
  {
    hide StoreOk, Goes, CtxOk, FuncsOk, ValueOk, I.ExecBlock, OkSs, TypedSs, CapturedSs, SettledFor, Here, Safe,
         FlowSafe;
    Stay(r, w, sig, g, env, ret);
    w2, sig2 := w, sig;
    if fuel > 0 {
      var p := I.Program(r.fs, r.mode);
      w2, sig2 := InnerSound(r, fuel - 1, w, sig, g, env, chk, true, ret, body);
      var q := I.ExecInner(p, fuel - 1, w.st, env, chk, body);
      Left(r, w, sig, q, ret, w2, sig2);
      if q.Ok? && (q.v.Normal? || q.v.Continue?) {
        var w1, sig1 := w2, sig2;
        HereKept(r, w, sig, w1, sig1, g, env);
        ForKept(w, sig, w1, sig1, env, CapturedSs(body), g);
        w2, sig2 := LoopSound(r, fuel - 1, w1, sig1, g, env, chk, ret, body);
        FlowThen(r, w, sig, w1, sig1, I.ExecLoop(p, fuel - 1, w1.st, env, chk, body), ret, false, w2, sig2);
      }
    }
  }

  // A bound or the step of a counted loop.
  lemma {:induction false} BoundSound(r: Run, fuel: nat, w: World, sig: Sig, g: Ctx, env: int, chk: bool, e: Expr,
                                      t: IntTy)
    returns (w2: World, sig2: Sig)
    requires Here(r, w, sig, g, env) && SettledFor(w, env, CapturedE(e), g)
    requires OkE(r.fs.Keys, g.Keys, chk, e) && TypeE(r.rules, g, e) == Some(TInt(t))
    ensures var out := I.EvalBound(I.Program(r.fs, r.mode), fuel, w.st, env, chk, e, t);
            Safe(r, w, sig, out, w2, sig2, -1) && (out.Ok? ==> r.Fits(t, out.v))
    decreases fuel, e, 2
  {
    hide StoreOk, Goes, CtxOk, FuncsOk, ValueOk, I.Eval, OkE, TypeE, CapturedE, SettledFor;
    w2, sig2 := ExprSound(r, fuel, w, sig, g, env, chk, e);
    var o := I.Eval(I.Program(r.fs, r.mode), fuel, w.st, env, chk, e);
    if o.Ok? { HasShape(r, w2, sig2, o.v, TInt(t)); }
  }

  lemma {:induction false} StrideSound(r: Run, fuel: nat, w: World, sig: Sig, g: Ctx, env: int, chk: bool,
                                       c: Option<Expr>, t: IntTy)
    returns (w2: World, sig2: Sig)
    requires Here(r, w, sig, g, env) && (c.Some? ==> SettledFor(w, env, CapturedE(c.value), g))
    requires c.Some? ==> OkE(r.fs.Keys, g.Keys, chk, c.value) && TypeE(r.rules, g, c.value) == Some(TInt(t))
    ensures var out := I.EvalStride(I.Program(r.fs, r.mode), fuel, w.st, env, chk, c, t);
            Safe(r, w, sig, out, w2, sig2, -1) && (out.Ok? && StepsByOne(c) ==> out.v == 1)
    decreases fuel, c, 3
  {
    hide StoreOk, Goes, CtxOk, FuncsOk, OkE, TypeE, CapturedE, SettledFor;
    GoesRefl(r, w, sig, -1);
    w2, sig2 := w, sig;
    if c.Some? { w2, sig2 := BoundSound(r, fuel, w, sig, g, env, chk, c.value, t); }
  }

  lemma {:induction false} ForNumSound(r: Run, fuel: nat, w: World, sig: Sig, g: Ctx, env: int, chk: bool, ret: Ty,
                                       s: Stmt)
    returns (w2: World, sig2: Sig)
    requires s.SForNum? && Here(r, w, sig, g, env) && SettledFor(w, env, CapturedS(s), g)
    requires OkS(r.fs.Keys, g.Keys, chk, false, s) || OkS(r.fs.Keys, g.Keys, chk, true, s)
    requires TypedS(r.rules, g, ret, s)
    ensures FlowSafe(r, w, sig, I.Exec(I.Program(r.fs, r.mode), fuel, w.st, env, chk, s), ret, false, w2, sig2, -1)
    decreases fuel, s, 3
  {
    hide StoreOk, Goes, CtxOk, FuncsOk, ValueOk, I.EvalBound, I.EvalStride, I.ExecFor, OkE, OkSs, TypeE, TypedSs,
         CapturedE, CapturedSs;
    var p, t := I.Program(r.fs, r.mode), s.ity;
    w2, sig2 := BoundSound(r, fuel, w, sig, g, env, chk, s.start, t);
    var a := I.EvalBound(p, fuel, w.st, env, chk, s.start, t);
    if a.Ok? {
      var w1, sig1 := w2, sig2;
      HereKept(r, w, sig, w1, sig1, g, env);
      ForKept(w, sig, w1, sig1, env, CapturedS(s), g);
      w2, sig2 := BoundSound(r, fuel, w1, sig1, g, env, chk, s.stop, t);
      var b := I.EvalBound(p, fuel, w1.st, env, chk, s.stop, t);
      if b.Ok? {
        var w3, sig3 := w2, sig2;
        GoesTrans(w, sig, w1, sig1, w3, sig3, -1, -1, -1);
        HereKept(r, w, sig, w3, sig3, g, env);
        ForKept(w, sig, w3, sig3, env, CapturedS(s), g);
        w2, sig2 := StrideSound(r, fuel, w3, sig3, g, env, chk, s.stride, t);
        var c := I.EvalStride(p, fuel, w3.st, env, chk, s.stride, t);
        if c.Ok? {
          var w4, sig4 := w2, sig2;
          GoesTrans(w, sig, w3, sig3, w4, sig4, -1, -1, -1);
          HereKept(r, w, sig, w4, sig4, g, env);
          ForKept(w, sig, w4, sig4, env, CapturedSs(s.body), g);
          w2, sig2 := ForSound(r, fuel, w4, sig4, g, env, chk, ret, s.v, t, a.v, b.v, c.v, s.body);
          if I.ExecFor(p, fuel, w4.st, env, chk, s.v, t, a.v, b.v, c.v, s.body).Ok? { GoesTrans(w, sig, w4, sig4, w2, sig2, -1, -1, -1); }
        }
      }
    }
  }

  lemma {:induction false} ForSound(r: Run, fuel: nat, w: World, sig: Sig, g: Ctx, env: int, chk: bool, ret: Ty,
                                    x: string, t: IntTy,
                                    i: int, limit: int, step: int, body: List<Stmt>)
    returns (w2: World, sig2: Sig)
    requires Here(r, w, sig, g, env) && SettledFor(w, env, CapturedSs(body), g) && r.Fits(t, i) && x !in r.fs
    requires OkSs(r.fs.Keys, g.Keys + {x}, chk, true, body) && TypedSs(r.rules, g[x := Bind(TInt(t), true)], ret, body)
    requires r.Fits(t, limit) && (r.rules.steps ==> step == 1)
    ensures FlowSafe(r, w, sig, I.ExecFor(I.Program(r.fs, r.mode), fuel, w.st, env, chk, x, t, i, limit, step, body),
                     ret, false, w2, sig2, -1)
    decreases fuel, body, 4
  {
    hide StoreOk, Goes, CtxOk, FuncsOk, ValueOk, I.ExecBlock, OkSs, TypedSs, CapturedSs, Wrap, Pow2, SettledFor, Here,
         Safe, FlowSafe;
    Stay(r, w, sig, g, env, ret);
    w2, sig2 := w, sig;
    if i < limit && fuel > 0 {
      var p, st1 := I.Program(r.fs, r.mode), I.Define(I.NewEnv(w.st, env), |w.st.envs|, x, I.VInt(i, t), true);
      w2, sig2 := RoundSound(r, fuel - 1, w, sig, g, env, chk, ret, x, t, i, body);
      var q := I.ExecBlock(p, fuel - 1, st1, |w.st.envs|, chk, body);
      Left(r, w, sig, q, ret, w2, sig2);
      if q.Ok? && (q.v.Normal? || q.v.Continue?) && (!r.mode.Guarded? || t.Holds(i + step)) {
        var w3, sig3, j := w2, sig2, I.NextIndex(r.mode, i, step, t);
        WrapFits(i + step, t);
        HereKept(r, w, sig, w3, sig3, g, env);
        ForKept(w, sig, w3, sig3, env, CapturedSs(body), g);
        w2, sig2 := ForSound(r, fuel - 1, w3, sig3, g, env, chk, ret, x, t, j, limit, step, body);
        FlowThen(r, w, sig, w3, sig3, I.ExecFor(p, fuel - 1, w3.st, env, chk, x, t, j, limit, step, body), ret, false,
                 w2, sig2);
      }
    }
  }

  // What a loop makes of its body's outcome.
  lemma Left(r: Run, w: World, sig: Sig, q: I.Out<I.Flow>, ret: Ty, w2: World, sig2: Sig)
    requires FlowSafe(r, w, sig, q, ret, true, w2, sig2, -1)
    ensures q.Ok? ==> w2.st == q.st && StoreOk(r, w2, sig2) && Goes(w, sig, w2, sig2, -1)
    ensures q.Ok? && !q.v.Return? ==> FlowSafe(r, w, sig, I.Ok(I.Normal, q.st), ret, false, w2, sig2, -1)
    ensures !q.Ok? || q.v.Return? ==> FlowSafe(r, w, sig, q, ret, false, w2, sig2, -1)
    ensures r.mode.Guarded? && !r.rules.steps ==> FlowSafe(r, w, sig, I.Err(I.IndexLeft), ret, false, w2, sig2, -1)
  {
    hide StoreOk, Goes, ValueOk;
  }

  lemma Stay(r: Run, w: World, sig: Sig, g: Ctx, env: int, ret: Ty)
    requires Here(r, w, sig, g, env)
    ensures FlowSafe(r, w, sig, I.Ok(I.Normal, w.st), ret, false, w, sig, -1)
    ensures FlowSafe(r, w, sig, I.NoFuel, ret, false, w, sig, -1)
  {
    GoesRefl(r, w, sig, -1);
  }

  lemma FlowThen(r: Run, w: World, sig: Sig, w1: World, sig1: Sig, out: I.Out<I.Flow>, ret: Ty, loop: bool, w2: World,
                 sig2: Sig)
    requires Goes(w, sig, w1, sig1, -1) && FlowSafe(r, w1, sig1, out, ret, loop, w2, sig2, -1)
    ensures FlowSafe(r, w, sig, out, ret, loop, w2, sig2, -1)
  {
    hide StoreOk, Goes, ValueOk;
    if out.Ok? { GoesTrans(w, sig, w1, sig1, w2, sig2, -1, -1, -1); }
  }

  lemma {:induction false} RoundSound(r: Run, fuel: nat, w: World, sig: Sig, g: Ctx, env: int, chk: bool, ret: Ty,
                                      x: string, t: IntTy,
                                      i: int, body: List<Stmt>)
    returns (w2: World, sig2: Sig)
    requires Here(r, w, sig, g, env) && SettledFor(w, env, CapturedSs(body), g) && r.Fits(t, i) && x !in r.fs
    requires OkSs(r.fs.Keys, g.Keys + {x}, chk, true, body) && TypedSs(r.rules, g[x := Bind(TInt(t), true)], ret, body)
    ensures var st1 := I.Define(I.NewEnv(w.st, env), |w.st.envs|, x, I.VInt(i, t), true);
            FlowSafe(r, w, sig, I.ExecBlock(I.Program(r.fs, r.mode), fuel, st1, |w.st.envs|, chk, body), ret, true, w2, sig2, -1)
    decreases fuel, body, 3
  {
    hide StoreOk, Goes, CtxOk, FuncsOk, ValueOk, I.ExecBlock, OkSs, TypedSs, CapturedSs;
    var e, b := |w.st.envs|, Bind(TInt(t), true);
    var w1, sig1 := IndexSound(r, w, sig, g, env, x, t, i, body);
    assert g[x := b].Keys == g.Keys + {x};
    w2, sig2 := BlockSound(r, fuel, w1, sig1, g[x := b], e, chk, true, ret, body);
    if I.ExecBlock(I.Program(r.fs, r.mode), fuel, w1.st, e, chk, body).Ok? { GoesTrans(w, sig, w1, sig1, w2, sig2, -1, e, -1); }
  }

  // The environment of a round, with its index.
  lemma IndexSound(r: Run, w: World, sig: Sig, g: Ctx, env: int, x: string, t: IntTy, i: int, body: List<Stmt>)
    returns (w1: World, sig1: Sig)
    requires Here(r, w, sig, g, env) && SettledFor(w, env, CapturedSs(body), g) && r.Fits(t, i) && x !in r.fs
    ensures w1.st == I.Define(I.NewEnv(w.st, env), |w.st.envs|, x, I.VInt(i, t), true)
    ensures var e, b := |w.st.envs|, Bind(TInt(t), true);
            && Here(r, w1, sig1, g[x := b], e) && Goes(w, sig, w1, sig1, -1) && w1.later[e] == Decls(body)
            && SettledOver(w1, e, CapturedSs(body), g[x := b])
  {
    hide CellOk, EnvOk, FuncsOk, CapturedSs, CtxOk, ValueOk, Goes;
    var e, b, v := |w.st.envs|, Bind(TInt(t), true), I.VInt(i, t);
    var w0 := Opened(w, env, {x} + Decls(body));
    OpenedHere(r, w, sig, g, env, {x} + Decls(body), CapturedSs(body));
    LeafOk(r, w0, sig, v);
    DeclaredOk(r, w0, sig, e, x, v, b, Decls(body));
    DeclaredCtx(r, w0, sig, e, x, v, b, Decls(body), g);
    w1, sig1 := Declared(w0, e, x, v, true, Decls(body)), sig + [b];
    GoesTrans(w, sig, w0, sig, w1, sig1, -1, e, -1);
    forall y | y in CapturedSs(body) && y in g[x := b] ensures y in w1.st.envs[e].vars || Settled(w1, w1.st.envs[e].parent, y).Some? {
      if y != x { StillSettled(w0, sig, w1, sig1, e, w0.st.envs[e].parent, y); }
    }
  }

  lemma StillSettled(w: World, sig: Sig, w1: World, sig1: Sig, env: int, e: int, x: string)
    requires Goes(w, sig, w1, sig1, env) && Settled(w, e, x).Some?
    ensures Settled(w1, e, x).Some?
  {
    SettledKept(w, w1, e, x);
  }
}
