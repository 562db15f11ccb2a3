// Counted loops: the interpreter's counter is unbounded, the compiled one wraps
// at the index type. When do they give the body the same index values?
module CountedLoop {
  import opened Modular
  import opened Numeric
  import opened Syntax
  import I = Interp

  // The index values of `for i = start to limit step step` (exec_fornum).
  function Indices(i: int, limit: int, step: int): seq<int>
    requires step >= 1
    decreases limit - i
  {
    if i >= limit then [] else [i] + Indices(i + step, limit, step)
  }

  // The compiled counter at the head of round k (lower_fornum: add, unchecked).
  function Counter(i: int, step: int, ty: IntTy, k: nat): int
    decreases k
  {
    if k == 0 then i else Wrap(Counter(i, step, ty, k - 1) + step, ty)
  }

  // The compiled loop leaves at the head of round n, having run rounds 0 to n-1.
  ghost predicate EndsAfter(i: int, limit: int, step: int, ty: IntTy, n: nat) {
    Counter(i, step, ty, n) >= limit && forall k :: 0 <= k < n ==> Counter(i, step, ty, k) < limit
  }

  // The last index value, when there is one.
  function Last(i: int, limit: int, step: int): int
    requires step >= 1
  {
    i + (limit - 1 - i) / step * step
  }

  lemma IndicesAre(i: int, limit: int, step: int)
    requires step >= 1 && i < limit
    ensures var n := (limit - 1 - i) / step + 1;
            |Indices(i, limit, step)| == n && forall k :: 0 <= k < n ==> Indices(i, limit, step)[k] == i + k * step
  {
    var q, r := (limit - 1 - i) / step, (limit - 1 - i) % step;
    assert limit - 1 - i == q * step + r;
    IndicesCount(i, limit, step, q, r);
  }

  lemma {:induction false} IndicesCount(i: int, limit: int, step: int, q: nat, r: nat)
    requires step >= 1 && r < step && limit - 1 - i == q * step + r && 0 <= q * step
    ensures |Indices(i, limit, step)| == q + 1 && forall k :: 0 <= k < q + 1 ==> Indices(i, limit, step)[k] == i + k * step
    decreases q
  {
    if q > 0 {
      StepTimes(q, step);
      MulMono(1, q, step);
      IndicesCount(i + step, limit, step, q - 1, r);
      forall k | 0 < k < q + 1 ensures Indices(i, limit, step)[k] == i + k * step { StepTimes(k, step); }
    } else {
      assert Indices(i + step, limit, step) == [];
    }
  }

  lemma LastBounds(i: int, limit: int, step: int)
    requires step >= 1 && i < limit
    ensures i <= Last(i, limit, step) < limit <= Last(i, limit, step) + step
  {
    var q, r := (limit - 1 - i) / step, (limit - 1 - i) % step;
    assert limit - 1 - i == q * step + r;
    MulMono(0, q, step);
  }

  // Up to the last round no increment wraps.
  lemma {:induction false} CounterIs(i: int, limit: int, step: int, ty: IntTy, k: nat)
    requires step >= 1 && ty.Holds(i) && ty.Holds(limit) && i < limit && k <= (limit - 1 - i) / step
    ensures Counter(i, step, ty, k) == i + k * step <= Last(i, limit, step)
    decreases k
  {
    hide Wrap;
    LastBounds(i, limit, step);
    var q := (limit - 1 - i) / step;
    MulMono(k, q, step);
    if k > 0 {
      CounterIs(i, limit, step, ty, k - 1);
      StepTimes(k, step);
      WrapFits(i + k * step, ty);
    }
  }

  lemma StepTimes(k: int, step: int)
    ensures (k - 1) * step + step == k * step
  {
  }

  // A value past the maximum by less than the modulus wraps around once.
  lemma WrapOver(x: int, ty: IntTy)
    requires ty.Max() < x <= ty.Max() + ty.Modulus()
    ensures Wrap(x, ty) == x - ty.Modulus()
  {
    hide Wrap;
    var m := ty.Modulus();
    ModAddMultiple(0, 1, m);
    WrapCongruent(x, x - m, ty);
    WrapFits(x - m, ty);
  }

  // What the wrapped increment past the last round comes to.
  lemma LastIncrement(i: int, limit: int, step: int, ty: IntTy)
    requires step >= 1 && ty.Holds(i) && ty.Holds(limit) && ty.Holds(step) && i < limit
    ensures var l := Last(i, limit, step);
            l + step >= limit && (if l + step <= ty.Max() then Wrap(l + step, ty) == l + step else Wrap(l + step, ty) < limit)
  {
    hide Wrap, Last;
    var l := Last(i, limit, step);
    LastBounds(i, limit, step);
    if l + step <= ty.Max() { WrapFits(l + step, ty); } else { WrapOver(l + step, ty); }
  }

  // The compiled loop gives the body exactly the interpreter's index values, and
  // then ends, if and only if adding the step to the last of them does not leave
  // the index type.
  lemma SameIndices(i: int, limit: int, step: int, ty: IntTy)
    requires step >= 1 && ty.Holds(i) && ty.Holds(limit) && ty.Holds(step)
    ensures var xs := Indices(i, limit, step);
            (EndsAfter(i, limit, step, ty, |xs|) && forall k :: 0 <= k < |xs| ==> Counter(i, step, ty, k) == xs[k])
            <==> i >= limit || Last(i, limit, step) + step <= ty.Max()
  {
    if i < limit {
      hide Wrap, Last;
      var q := (limit - 1 - i) / step;
      IndicesAre(i, limit, step);
      LastIncrement(i, limit, step, ty);
      LastBounds(i, limit, step);
      RoundsAre(i, limit, step, ty, q);
    }
  }

  // Every round's counter, and the one after the last.
  lemma RoundsAre(i: int, limit: int, step: int, ty: IntTy, q: nat)
    requires step >= 1 && ty.Holds(i) && ty.Holds(limit) && i < limit && q == (limit - 1 - i) / step
    ensures forall k :: 0 <= k < q + 1 ==> Counter(i, step, ty, k) == i + k * step < limit
    ensures Counter(i, step, ty, q + 1) == Wrap(Last(i, limit, step) + step, ty)
  {
    hide Wrap;
    LastBounds(i, limit, step);
    forall k | 0 <= k < q + 1 ensures Counter(i, step, ty, k) == i + k * step < limit { CounterIs(i, limit, step, ty, k); }
  }

  // With step 1 nothing is asked of the bounds.
  lemma StepOne(i: int, limit: int, ty: IntTy)
    requires ty.Holds(i) && ty.Holds(limit)
    ensures EndsAfter(i, limit, 1, ty, |Indices(i, limit, 1)|)
  {
    if i < limit { assert Last(i, limit, 1) == limit - 1; }
    SameIndices(i, limit, 1, ty);
  }

  // ----- the loops themselves -----

  // The index values ExecFor binds, round by round, and whether it reaches the
  // limit (and is not left early, and does not run out of fuel).
  function Bindings(p: I.Program, fuel: nat, st: I.Store, env: int, chk: bool, x: string, t: IntTy, i: int, limit: int,
                    step: int,
                    body: List<Stmt>): (seq<int>, bool)
    decreases fuel
  {
    if i >= limit then ([], true)
    else if fuel == 0 then ([], false)
    else
      var e := |st.envs|;
      match I.ExecBlock(p, fuel - 1, I.Define(I.NewEnv(st, env), e, x, I.VInt(i, t), true), e, chk, body)
      case Ok(flow, st2) =>
        if (flow.Normal? || flow.Continue?) && !(p.mode.Guarded? && !t.Holds(i + step)) then
          var rest := Bindings(p, fuel - 1, st2, env, chk, x, t, I.NextIndex(p.mode, i, step, t), limit, step, body);
          ([i] + rest.0, rest.1)
        else ([i], false)
      case _ => ([i], false)
  }

  // Those are all the rounds there are.
  lemma {:induction false} BindingsEnd(p: I.Program, fuel: nat, st: I.Store, env: int, chk: bool, x: string, t: IntTy,
                                       i: int, limit: int,
                                       step: int, body: List<Stmt>)
    ensures Bindings(p, fuel, st, env, chk, x, t, i, limit, step, body).1 ==>
              var o := I.ExecFor(p, fuel, st, env, chk, x, t, i, limit, step, body); o.Ok? && o.v == I.Normal
    decreases fuel
  {
    hide I.ExecBlock;
    if i < limit && fuel > 0 {
      var e := |st.envs|;
      var o := I.ExecBlock(p, fuel - 1, I.Define(I.NewEnv(st, env), e, x, I.VInt(i, t), true), e, chk, body);
      if o.Ok? { BindingsEnd(p, fuel - 1, o.st, env, chk, x, t, I.NextIndex(p.mode, i, step, t), limit, step, body); }
    }
  }

  // The interpreter's loop: the indices, in order; all of them, if it gets to the
  // end. Whatever the body does to the index, the bound or the step.
  lemma {:induction false} BindsIndices(p: I.Program, fuel: nat, st: I.Store, env: int, chk: bool, x: string, t: IntTy,
                                        i: int, limit: int,
                                        step: int, body: List<Stmt>)
    requires p.mode.Exact? && step >= 1
    ensures var (xs, done) := Bindings(p, fuel, st, env, chk, x, t, i, limit, step, body);
            xs <= Indices(i, limit, step) && (done ==> xs == Indices(i, limit, step))
    decreases fuel
  {
    hide I.ExecBlock;
    if i < limit && fuel > 0 {
      var e := |st.envs|;
      var o := I.ExecBlock(p, fuel - 1, I.Define(I.NewEnv(st, env), e, x, I.VInt(i, t), true), e, chk, body);
      if o.Ok? { BindsIndices(p, fuel - 1, o.st, env, chk, x, t, i + step, limit, step, body); }
    }
  }

  // The compiled loop: what its counter local holds at the head of each round.
  lemma {:induction false} BindsCounter(p: I.Program, fuel: nat, st: I.Store, env: int, chk: bool, x: string, t: IntTy,
                                        i: int, limit: int,
                                        step: int, body: List<Stmt>)
    requires p.mode.Wrapping?
    ensures var (xs, done) := Bindings(p, fuel, st, env, chk, x, t, i, limit, step, body);
            && (forall k :: 0 <= k < |xs| ==> xs[k] == Counter(i, step, t, k) < limit)
            && (done ==> EndsAfter(i, limit, step, t, |xs|))
    decreases fuel
  {
    hide I.ExecBlock, Wrap;
    if i < limit && fuel > 0 {
      var e := |st.envs|;
      var o := I.ExecBlock(p, fuel - 1, I.Define(I.NewEnv(st, env), e, x, I.VInt(i, t), true), e, chk, body);
      if o.Ok? {
        var j := Wrap(i + step, t);
        BindsCounter(p, fuel - 1, o.st, env, chk, x, t, j, limit, step, body);
        var rest := Bindings(p, fuel - 1, o.st, env, chk, x, t, j, limit, step, body).0;
        var xs := [i] + rest;
        assert xs == Bindings(p, fuel, st, env, chk, x, t, i, limit, step, body).0 || !(o.v.Normal? || o.v.Continue?);
        forall k | 0 < k <= |xs| ensures Counter(i, step, t, k) == Counter(j, step, t, k - 1) { CounterShift(i, step, t, k - 1); }
        forall k | 0 <= k < |xs| ensures xs[k] == Counter(i, step, t, k) < limit { if k > 0 { assert xs[k] == rest[k - 1]; } }
      }
    }
  }

  lemma {:induction false} CounterShift(i: int, step: int, t: IntTy, k: nat)
    ensures Counter(Wrap(i + step, t), step, t, k) == Counter(i, step, t, k + 1)
    decreases k
  {
    hide Wrap;
    if k > 0 {
      CounterShift(i, step, t, k - 1);
      assert Counter(i, step, t, k + 1) == Wrap(Counter(i, step, t, k) + step, t);
    } else {
      assert Counter(i, step, t, 1) == Wrap(Counter(i, step, t, 0) + step, t);
    }
  }
}
