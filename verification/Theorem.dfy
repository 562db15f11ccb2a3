// What lowering promises for whole modules: the compiled program does what the
// interpreter does, in every one of its four outcomes.
module Theorem {
  import opened Numeric
  import opened Syntax
  import opened Ir
  import opened Names
  import opened Lowering
  import opened Machine
  import opened Relation
  import opened Steps
  import opened Entry
  import opened Cfg
  import opened Linking
  import opened Simulation
  import opened Guards
  import I = Interp

  // Arguments and results that mean the same on both sides: integers of a sized
  // type, booleans, unit.
  function Flat(v: I.Value): MVal {
    match v
    case VInt(n, _) => MInt(n)
    case VBool(b) => MBool(b)
    case _ => MUnit
  }

  predicate IsFlat(v: I.Value) { (v.VInt? && v.ty.Holds(v.n)) || v.VBool? || v.VUnit? }

  predicate AllFlat(vals: seq<I.Value>) { forall i :: 0 <= i < |vals| ==> IsFlat(vals[i]) }

  function Flats(vals: seq<I.Value>): (ms: seq<MVal>)
    ensures |ms| == |vals| && forall i :: 0 <= i < |vals| ==> ms[i] == Flat(vals[i])
  {
    if vals == [] then [] else [Flat(vals[0])] + Flats(vals[1..])
  }

  // The interpreter calling function f of the module, its counted loops counting
  // in the given mode; in the interpreter proper that is Exact.
  function Interpret(mode: I.Mode, ds: List<FuncDecl>, fuel: nat, f: string, vals: seq<I.Value>): I.Out<I.Value>
    requires f in Source(ds)
  {
    var d := Source(ds)[f];
    I.Apply(I.Program(Source(ds), mode), fuel, I.Store([], []), I.VClo(d.params, d.ret, d.body, -1), vals)
  }

  // Where no index leaves its type, all modes agree.
  lemma GuardedIs(mode: I.Mode, ds: List<FuncDecl>, fuel: nat, f: string, vals: seq<I.Value>)
    requires f in Source(ds)
    ensures var o := Interpret(I.Guarded, ds, fuel, f, vals); o.Err? || Interpret(mode, ds, fuel, f, vals) == o
  {
    hide I.Apply;
    var d := Source(ds)[f];
    ApplyGuard(Source(ds), mode, fuel, I.Store([], []), I.VClo(d.params, d.ret, d.body, -1), vals);
  }

  // The machine's first configuration for the same call, and n steps from it.
  function Start(mod: string, ds: List<FuncDecl>, f: string, vals: seq<I.Value>): Conf {
    Enter(Compile(mod, ds), Mangle(mod, f), Flats(vals), None, Nil, [])
  }

  function RunFor(mod: string, ds: List<FuncDecl>, f: string, vals: seq<I.Value>, n: nat): Conf {
    StepN(Compile(mod, ds), Start(mod, ds, f, vals), n)
  }

  // The call is one the checker lets through: arity and argument types agree.
  predicate WellCalled(ds: List<FuncDecl>, f: string, vals: seq<I.Value>) {
    f in Source(ds) && AllFlat(vals) && ArgsFit(Source(ds)[f].params, vals)
  }

  predicate ArgsFit(ps: List<Param>, vals: seq<I.Value>) {
    match ps
    case Nil => vals == []
    case Cons(p, rest) => vals != [] && I.HasTy(vals[0], p.ty) && ArgsFit(rest, vals[1..])
  }

  lemma {:induction false} FitBinds(st: I.Store, env: int, ps: List<Param>, vals: seq<I.Value>)
    requires 0 <= env < |st.envs| && ArgsFit(ps, vals)
    ensures I.BindParams(st, env, ps, vals).Some?
    decreases ps
  {
    match ps
    case Nil =>
    case Cons(p, rest) => FitBinds(I.Define(st, env, p.name, vals[0], true), env, rest, vals[1..]);
  }

  // Forward simulation of one call, at every amount of fuel.
  lemma Simulates(mod: string, ds: List<FuncDecl>, fuel: nat, f: string, vals: seq<I.Value>)
    returns (n: nat, heap: seq<HObj>, m: MVal)
    requires FineModule(ds) && WellCalled(ds, f, vals)
    ensures var c := RunFor(mod, ds, f, vals, n);
            match Interpret(I.Wrapping, ds, fuel, f, vals)
            case Ok(v, _) => c == Halt(m, heap) && (IsFlat(v) ==> m == Flat(v)) && (v.VInt? ==> v.ty.Holds(v.n))
            case Panic => c == Panicked
            case NoFuel => n >= fuel && c.Run?
            case Err(_) => true
  {
    hide StepN, Step, Exec, FuncAt, LamAt, I.ExecBlock, OkModule, CodeOk, Enter, I.Apply;
    var code := Code(Source(ds), Compile(mod, ds), mod);
    var d := Source(ds)[f];
    var clo := I.VClo(d.params, d.ret, d.body, -1);
    SourceKeys(ds);
    ModuleCode(mod, ds);
    var w := World(I.Store([], []), map[], [], []);
    FitBinds(I.NewEnv(w.st, -1), 0, d.params, vals);
    FlatsRelated(code, w, vals);
    assert code.src[d.name] == d;
    assert IsCallee(code, w, clo, Mangle(mod, f), []);
    var w2;
    w2, m, n := SimApplyFunc(code, fuel, w, clo, vals, Flats(vals), Mangle(mod, f), None, Nil);
    heap := w2.heap;
  }

  lemma FlatsRelated(code: Code, w: World, vals: seq<I.Value>)
    requires AllFlat(vals)
    ensures VRels(code, w, vals, Flats(vals))
  {
    hide LamAt;
  }

  // ----- determinism and fuel -----

  // The machine is at rest after n steps, and stays so.
  lemma RestsAt(q: IRProgram, c: Conf, n: nat, k: nat)
    requires !StepN(q, c, n).Run? && k >= n
    ensures StepN(q, c, k) == StepN(q, c, n)
  {
    StepsCompose(q, c, n, k - n);
    StoppedStays(q, StepN(q, c, n), k - n);
  }

  lemma SameRest(q: IRProgram, c: Conf, n: nat, k: nat)
    requires !StepN(q, c, n).Run? && !StepN(q, c, k).Run?
    ensures StepN(q, c, n) == StepN(q, c, k)
  {
    if n <= k { RestsAt(q, c, n, k); } else { RestsAt(q, c, k, n); }
  }

  // ----- the theorem -----

  // What a run of the compiled call comes to.
  ghost predicate Halts(mod: string, ds: List<FuncDecl>, f: string, vals: seq<I.Value>, m: MVal) {
    exists n :: RunFor(mod, ds, f, vals, n).Halt? && RunFor(mod, ds, f, vals, n).v == m
  }

  ghost predicate Aborts(mod: string, ds: List<FuncDecl>, f: string, vals: seq<I.Value>) {
    exists n :: RunFor(mod, ds, f, vals, n).Panicked?
  }

  ghost predicate RunsForever(mod: string, ds: List<FuncDecl>, f: string, vals: seq<I.Value>) {
    forall n :: RunFor(mod, ds, f, vals, n).Run?
  }

  // What the interpreter's call comes to, over all amounts of fuel.
  ghost predicate Returns(mode: I.Mode, ds: List<FuncDecl>, f: string, vals: seq<I.Value>, v: I.Value)
    requires f in Source(ds)
  {
    exists fuel :: Interpret(mode, ds, fuel, f, vals).Ok? && Interpret(mode, ds, fuel, f, vals).v == v
  }

  ghost predicate Panics(mode: I.Mode, ds: List<FuncDecl>, f: string, vals: seq<I.Value>)
    requires f in Source(ds)
  {
    exists fuel :: Interpret(mode, ds, fuel, f, vals).Panic?
  }

  ghost predicate Diverges(mode: I.Mode, ds: List<FuncDecl>, f: string, vals: seq<I.Value>)
    requires f in Source(ds)
  {
    forall fuel :: Interpret(mode, ds, fuel, f, vals).NoFuel?
  }

  // No run of the call ends in Err, and what it returns is no closure.
  ghost predicate Proper(mode: I.Mode, ds: List<FuncDecl>, f: string, vals: seq<I.Value>)
    requires f in Source(ds)
  {
    forall fuel ::
      && !Interpret(mode, ds, fuel, f, vals).Err?
      && (Interpret(mode, ds, fuel, f, vals).Ok? ==> IsFlat(Interpret(mode, ds, fuel, f, vals).v))
  }

  // The compiled call comes to what the interpreter's comes to in this mode: it
  // returns the value, aborts, or runs forever exactly when the interpreter's does.
  ghost predicate SameMeaning(mode: I.Mode, mod: string, ds: List<FuncDecl>, f: string, vals: seq<I.Value>)
    requires f in Source(ds)
  {
    && (forall v :: Returns(mode, ds, f, vals, v) ==> Halts(mod, ds, f, vals, Flat(v)))
    && (forall m :: Halts(mod, ds, f, vals, m) ==> exists v :: Returns(mode, ds, f, vals, v) && Flat(v) == m)
    && (Panics(mode, ds, f, vals) <==> Aborts(mod, ds, f, vals))
    && (Diverges(mode, ds, f, vals) <==> RunsForever(mod, ds, f, vals))
  }

  // Compiled code is the interpreter with counted loops that wrap.
  lemma LoweringWraps(mod: string, ds: List<FuncDecl>, f: string, vals: seq<I.Value>)
    requires FineModule(ds) && WellCalled(ds, f, vals) && Proper(I.Wrapping, ds, f, vals)
    ensures SameMeaning(I.Wrapping, mod, ds, f, vals)
  {
    hide Interpret, RunFor;
    forall v | Returns(I.Wrapping, ds, f, vals, v) ensures Halts(mod, ds, f, vals, Flat(v)) {
      var fuel :| Interpret(I.Wrapping, ds, fuel, f, vals).Ok? && Interpret(I.Wrapping, ds, fuel, f, vals).v == v;
      var n, heap, m := Simulates(mod, ds, fuel, f, vals);
      assert RunFor(mod, ds, f, vals, n).Halt?;
    }
    forall m | Halts(mod, ds, f, vals, m) ensures exists v :: Returns(I.Wrapping, ds, f, vals, v) && Flat(v) == m {
      var k :| RunFor(mod, ds, f, vals, k).Halt? && RunFor(mod, ds, f, vals, k).v == m;
      var n := Settles(mod, ds, f, vals, k);
    }
    if Panics(I.Wrapping, ds, f, vals) {
      var fuel :| Interpret(I.Wrapping, ds, fuel, f, vals).Panic?;
      var n, heap, m := Simulates(mod, ds, fuel, f, vals);
    }
    if Aborts(mod, ds, f, vals) {
      var k :| RunFor(mod, ds, f, vals, k).Panicked?;
      var n := Settles(mod, ds, f, vals, k);
    }
    if Diverges(I.Wrapping, ds, f, vals) {
      forall k ensures RunFor(mod, ds, f, vals, k).Run? {
        if !RunFor(mod, ds, f, vals, k).Run? {
          var n := Settles(mod, ds, f, vals, k);
        }
      }
    }
    if RunsForever(mod, ds, f, vals) {
      forall fuel ensures Interpret(I.Wrapping, ds, fuel, f, vals).NoFuel? {
        var n, heap, m := Simulates(mod, ds, fuel, f, vals);
      }
    }
  }

  // A machine at rest after k steps: with more fuel than that the interpreter has
  // come to the same end.
  lemma Settles(mod: string, ds: List<FuncDecl>, f: string, vals: seq<I.Value>, k: nat)
    returns (fuel: nat)
    requires FineModule(ds) && WellCalled(ds, f, vals) && Proper(I.Wrapping, ds, f, vals)
    requires !RunFor(mod, ds, f, vals, k).Run?
    ensures match Interpret(I.Wrapping, ds, fuel, f, vals)
            case Ok(v, _) => RunFor(mod, ds, f, vals, k).Halt? && RunFor(mod, ds, f, vals, k).v == Flat(v)
            case Panic => RunFor(mod, ds, f, vals, k).Panicked?
            case _ => false
    ensures Interpret(I.Wrapping, ds, fuel, f, vals).Ok? ==> Returns(I.Wrapping, ds, f, vals, Interpret(I.Wrapping, ds, fuel, f, vals).v)
  {
    hide Interpret, Start, Compile, StepN;
    fuel := k + 1;
    var n, heap, m := Simulates(mod, ds, fuel, f, vals);
    if Interpret(I.Wrapping, ds, fuel, f, vals).NoFuel? {
      RestsAt(Compile(mod, ds), Start(mod, ds, f, vals), k, n);
    } else {
      SameRest(Compile(mod, ds), Start(mod, ds, f, vals), n, k);
    }
  }

  // And where no run takes an index out of its type, it is the interpreter.
  lemma LoweringPreservesMeaning(mod: string, ds: List<FuncDecl>, f: string, vals: seq<I.Value>)
    requires FineModule(ds) && WellCalled(ds, f, vals) && Proper(I.Guarded, ds, f, vals)
    ensures SameMeaning(I.Exact, mod, ds, f, vals)
  {
    hide Interpret, RunFor, FineModule, Halts, Aborts, RunsForever;
    forall fuel ensures Interpret(I.Wrapping, ds, fuel, f, vals) == Interpret(I.Exact, ds, fuel, f, vals) == Interpret(I.Guarded, ds, fuel, f, vals) {
      GuardedIs(I.Wrapping, ds, fuel, f, vals);
      GuardedIs(I.Exact, ds, fuel, f, vals);
    }
    LoweringWraps(mod, ds, f, vals);
    forall v ensures Returns(I.Exact, ds, f, vals, v) <==> Returns(I.Wrapping, ds, f, vals, v) {
      if Returns(I.Exact, ds, f, vals, v) {
        var fuel :| Interpret(I.Exact, ds, fuel, f, vals).Ok? && Interpret(I.Exact, ds, fuel, f, vals).v == v;
        assert Interpret(I.Wrapping, ds, fuel, f, vals).Ok?;
      }
      if Returns(I.Wrapping, ds, f, vals, v) {
        var fuel :| Interpret(I.Wrapping, ds, fuel, f, vals).Ok? && Interpret(I.Wrapping, ds, fuel, f, vals).v == v;
        assert Interpret(I.Exact, ds, fuel, f, vals).Ok?;
      }
    }
    assert Panics(I.Exact, ds, f, vals) <==> Panics(I.Wrapping, ds, f, vals);
    assert Diverges(I.Exact, ds, f, vals) <==> Diverges(I.Wrapping, ds, f, vals);
  }
}
