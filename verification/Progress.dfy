// Runs of typed modules are never refused, so lowering preserves the meaning of every
// typed program: the conditions are on its syntax alone.
module Progress {
  import opened Numeric
  import opened Syntax
  import opened Relation
  import opened Cfg
  import opened Linking
  import opened Typing
  import opened Soundness
  import opened Theorem
  import I = Interp

  predicate TypedModule(ds: List<FuncDecl>, counts: bool, steps: bool) { TypedFuncs(Rules(Source(ds), counts, steps), ds) }

  lemma {:induction false} FuncsSound(r: Run, ds: List<FuncDecl>)
    requires OkModule(r.fs.Keys, ds) && TypedFuncs(r.rules, ds)
    ensures forall f :: f in Source(ds) ==> FuncOk(r, Source(ds)[f])
    decreases ds
  {
    hide OkSs, TypedSs, OkParams, DistinctParams;
    if ds.Cons? { FuncsSound(r, ds.tail); }
  }

  lemma {:induction false} ArgsSound(r: Run, w: World, sig: Sig, ps: List<Param>, vals: seq<I.Value>)
    requires ArgsFit(ps, vals) && AllFlat(vals)
    ensures ValuesOk(r, w, sig, vals, ParamTypes(ps))
    decreases ps
  {
    hide ClosureOk;
    if ps.Cons? { ArgsSound(r, w, sig, ps.tail, vals[1..]); }
  }

  // A run of a typed module ends in Err for nothing but a negative shift count or, if
  // guarded, an index that leaves its type; and it returns the declared type.
  lemma TypedRuns(mode: I.Mode, ds: List<FuncDecl>, counts: bool, steps: bool, fuel: nat, f: string, vals: seq<I.Value>)
    requires FineModule(ds) && TypedModule(ds, counts, steps) && WellCalled(ds, f, vals)
    ensures var o := Interpret(mode, ds, fuel, f, vals);
            && (o.Err? ==> (o.why.NegativeShift? && (!counts || mode.Exact?)) || (o.why.IndexLeft? && mode.Guarded? && !steps))
            && (o.Ok? ==> I.HasTy(o.v, Source(ds)[f].ret) && (!mode.Exact? && !o.v.VClo? ==> IsFlat(o.v)))
  {
    hide FuncOk, I.Apply, ClosureOk, OkModule;
    var r := Run(Rules(Source(ds), counts, steps), mode);
    var w, d := World(I.Store([], []), map[], [], []), Source(ds)[f];
    SourceKeys(ds);
    FuncsSound(r, ds);
    FuncSound(r, w, [], f);
    ArgsSound(r, w, [], d.params, vals);
    var clo := I.VClo(d.params, d.ret, d.body, -1);
    var w2, sig2 := ApplySound(r, fuel, w, [], clo, vals, TFunc(ParamTypes(d.params), d.ret));
    var o := I.Apply(I.Program(r.fs, mode), fuel, w.st, clo, vals);
    if o.Ok? { HasShape(r, w2, sig2, o.v, d.ret); }
  }

  // Compiled code is the interpreter with counted loops that wrap.
  lemma TypedWraps(mod: string, ds: List<FuncDecl>, steps: bool, f: string, vals: seq<I.Value>)
    requires FineModule(ds) && TypedModule(ds, true, steps) && WellCalled(ds, f, vals) && !Source(ds)[f].ret.TFunc?
    ensures SameMeaning(I.Wrapping, mod, ds, f, vals)
  {
    hide FineModule, Interpret, SameMeaning, TypedModule;
    forall fuel
      ensures var o := Interpret(I.Wrapping, ds, fuel, f, vals); !o.Err? && (o.Ok? ==> IsFlat(o.v))
    {
      TypedRuns(I.Wrapping, ds, true, steps, fuel, f, vals);
    }
    LoweringWraps(mod, ds, f, vals);
  }

  // And with loops that step by one it is the interpreter.
  lemma TypedPreservesMeaning(mod: string, ds: List<FuncDecl>, f: string, vals: seq<I.Value>)
    requires FineModule(ds) && TypedModule(ds, true, true) && WellCalled(ds, f, vals) && !Source(ds)[f].ret.TFunc?
    ensures SameMeaning(I.Exact, mod, ds, f, vals)
  {
    hide FineModule, Interpret, SameMeaning, TypedModule;
    forall fuel
      ensures var o := Interpret(I.Guarded, ds, fuel, f, vals); !o.Err? && (o.Ok? ==> IsFlat(o.v))
    {
      TypedRuns(I.Guarded, ds, true, true, fuel, f, vals);
    }
    LoweringPreservesMeaning(mod, ds, f, vals);
  }

  // With other steps and counts: the conditions left are on runs, and exact.
  lemma TypedProper(mode: I.Mode, ds: List<FuncDecl>, counts: bool, steps: bool, f: string, vals: seq<I.Value>)
    requires FineModule(ds) && TypedModule(ds, counts, steps) && WellCalled(ds, f, vals) && !Source(ds)[f].ret.TFunc? && !mode.Exact?
    ensures Proper(mode, ds, f, vals) <==>
            forall fuel :: Interpret(mode, ds, fuel, f, vals) != I.Err(I.NegativeShift) && Interpret(mode, ds, fuel, f, vals) != I.Err(I.IndexLeft)
  {
    hide FineModule, Interpret, TypedModule;
    forall fuel
      ensures var o := Interpret(mode, ds, fuel, f, vals); (o.Err? ==> !o.why.Mistyped?) && (o.Ok? ==> IsFlat(o.v))
    {
      TypedRuns(mode, ds, counts, steps, fuel, f, vals);
    }
  }

  // ----- setting a name -----

  //   func f (n i32) -> i32
  //       let x i32 = 1          (const or mutable)
  //       set x = n
  //       return x
  function Sets(mutable: bool): FuncDecl {
    FuncDecl("f", Cons(Param("n", TInt(I32)), Nil), TInt(I32),
             Cons(SLet("x", TInt(I32), EInt(1, I32), mutable), Cons(SSet("x", EName("n")), Cons(SReturn(EName("x")), Nil))))
  }

  // The mutable one returns its argument; the other is refused, by the types and by
  // every run.
  lemma OnlyMutableIsSet(mutable: bool, mode: I.Mode, fuel: nat, n: int)
    requires I32.Holds(n)
    ensures TypedModule(Cons(Sets(mutable), Nil), true, true) <==> mutable
    ensures var o := Interpret(mode, Cons(Sets(mutable), Nil), fuel, "f", [I.VInt(n, I32)]);
            if mutable then o.Ok? && o.v == I.VInt(n, I32) else o == I.Err(I.Mistyped)
  {
    var d, a := Sets(mutable), I.VInt(n, I32);
    var p := I.Program(Source(Cons(d, Nil)), mode);
    var st0 := I.NewEnv(I.Store([], []), -1);
    var st1 := I.Define(st0, 0, "n", a, true);
    assert I.BindParams(st1, 0, Nil, [a][1..]) == Some(st1);
    assert I.BindParams(st0, 0, d.params, [a]) == Some(st1);
    var st2 := I.Define(st1, 0, "x", I.VInt(1, I32), mutable);
    assert I.Exec(p, fuel, st1, 0, false, d.body.head) == I.Ok(I.Normal, st2);
    var rest := d.body.tail;
    assert I.EvalName(p, st2, 0, "n") == I.Ok(a, st2);
    assert I.Lookup(st2.envs, 0, "x") == Some(1);
    if mutable {
      var st3 := I.Assign(st2, 0, "x", a).st;
      assert I.Exec(p, fuel, st2, 0, false, rest.head) == I.Ok(I.Normal, st3);
      assert I.EvalName(p, st3, 0, "x") == I.Ok(a, st3);
      assert I.Exec(p, fuel, st3, 0, false, rest.tail.head) == I.Ok(I.Return(a), st3);
      assert I.ExecBlock(p, fuel, st3, 0, false, rest.tail) == I.Ok(I.Return(a), st3);
    } else {
      assert I.Exec(p, fuel, st2, 0, false, rest.head) == I.Err(I.Mistyped);
    }
    assert I.ExecBlock(p, fuel, st1, 0, false, d.body) == I.ExecBlock(p, fuel, st2, 0, false, rest);
    SetsTyped(mutable);
  }

  lemma SetsTyped(mutable: bool)
    ensures TypedModule(Cons(Sets(mutable), Nil), true, true) <==> mutable
  {
    var d := Sets(mutable);
    var r := Rules(Source(Cons(d, Nil)), true, true);
    var g := WithParams(map[], d.params);
    assert g == map["n" := Bind(TInt(I32), true)];
    assert TypedS(r, g, d.ret, d.body.head);
    var g1 := After(g, d.body.head);
    var rest := d.body.tail;
    assert TypedS(r, g1, d.ret, rest.head) <==> mutable;
    assert After(g1, rest.head) == g1;
    assert TypedS(r, g1, d.ret, rest.tail.head);
    assert TypedSs(r, g1, d.ret, rest.tail);
    assert TypedSs(r, g1, d.ret, rest) <==> mutable;
  }
}
