// The pieces of a lowered counted loop: the hidden counter and the snapshots of
// the bounds, the head's test, and the post block.
module ForLoop {
  import opened Numeric
  import opened Syntax
  import opened Ir
  import opened Names
  import opened Lowering
  import opened Machine
  import opened Growth
  import opened Relation
  import opened Steps
  import opened SimBase
  import opened Entry
  import opened Capture
  import opened Flow
  import opened Variables
  import I = Interp

  // The visible index, the counter, and the temps of the two bounds.
  datatype ForRegs = ForRegs(un: IVal, cnt: IVal, b: IVal, c: IVal)

  // ----- the registers a running loop relies on -----

  ghost predicate LoopNames(f: ForRegs, x: string, t: IntTy, uq: nat) {
    && f.un == Local(UniqName(x, uq + 1), IntT(t)) && f.cnt == Local(UniqName(x + "__cnt", uq + 2), IntT(t))
    && f.b.Temp? && f.c.Temp?
  }

  ghost predicate Counting(f: ForRegs, rg: Regs, i: int, limit: int, step: int, tc: nat) {
    && f.b.Temp? && f.b.id < tc && f.c.Temp? && f.c.id < tc
    && ValOf(rg, f.cnt) == Some(MInt(i)) && ValOf(rg, f.b) == Some(MInt(limit)) && ValOf(rg, f.c) == Some(MInt(step))
  }

  lemma NameStamps(f: ForRegs, x: string, t: IntTy, uq: nat)
    requires LoopNames(f, x, t, uq)
    ensures Stamp(f.un.name) == uq + 1 && Stamp(f.cnt.name) == uq + 2 && !Boxed(f.un)
  {
    StampOfUniq(x, uq + 1);
    StampOfUniq(x + "__cnt", uq + 2);
  }

  // Nothing the body may touch is the counter or a bound.
  lemma CountingKept(f: ForRegs, x: string, t: IntTy, uq: nat, rg: Regs, rg2: Regs, i: int, limit: int, step: int,
                     tc: nat, tc2: nat, uq2: nat, own: set<string>)
    requires LoopNames(f, x, t, uq) && Counting(f, rg, i, limit, step, tc)
    requires RegsKept(rg, rg2, tc2, uq2, own) && tc <= tc2 && uq + 2 <= uq2 && f.cnt.name !in own
    ensures Counting(f, rg2, i, limit, step, tc)
  {
    hide Stamp;
    NameStamps(f, x, t, uq);
  }

  // The body's variables: those of the scope, and the index unless it is boxed.
  lemma CounterFree(code: Code, w: World, vars: map<nat, string>, rg: Regs, uq: nat, f: ForRegs, x: string, t: IntTy, c: nat)
    requires Live(code, w, vars, rg, uq) && LoopNames(f, x, t, uq)
    ensures f.cnt.name !in vars.Values && f.cnt.name !in vars[c := f.un.name].Values
    ensures f.un.name !in vars.Values
  {
    hide LamAt, Stamp;
    NameStamps(f, x, t, uq);
    forall d | d in vars ensures Stamp(vars[d]) <= uq {
      assert LiveCell(code, w, d, vars[d], rg, uq);
    }
  }

  // ----- snapshots -----

  // `(+ v 0)` into a fresh temp.
  ghost predicate SnapSim(k: Act, ls: LS, r: (LS, IVal), out: I.Out<int>, t: IntTy, fuel: nat,
                          w: World, rg: Regs, w2: World, rg2: Regs, n: nat)
  {
    var c := StepN(k.code.ir, At(k, ls.b, rg, w.heap), n);
    match out
    case Ok(x, st) =>
      && w2.st == st && ExprDone(k, ls, r, w, rg, w2, rg2, MInt(x)) && r.1.Temp? && t.Holds(x)
      && c == At(k, r.0.b, rg2, w2.heap)
    case Panic => c == Panicked
    case NoFuel => n >= fuel && c.Run?
    case Err(_) => true
  }

  function IntOut(out: I.Out<I.Value>, t: IntTy): I.Out<int> {
    match out
    case Ok(v, st) => if I.HasTy(v, TInt(t)) then I.Ok(v.n, st) else I.Err(I.Mistyped)
    case Panic => I.Panic
    case Err(why) => I.Err(why)
    case NoFuel => I.NoFuel
  }

  lemma AppendSnap(k: Act, ls: LS, r1: (LS, IVal), out: I.Out<I.Value>, t: IntTy, fuel: nat,
                   w: World, rg: Regs, w1: World, rg1: Regs, m: MVal, n: nat)
    returns (rg2: Regs, n2: nat)
    requires ExprSim(k, ls, r1, out, fuel, w, rg, w1, rg1, m, n) && Grows(ls, r1.0)
    requires Placed(k, Snapshot(r1.0, r1.1, t).0)
    ensures SnapSim(k, ls, Snapshot(r1.0, r1.1, t), IntOut(out, t), t, fuel, w, rg, w1, rg2, n2)
  {
    hide StepN, Step, Exec, FuncAt, LamAt, CodeIn, Linked, Extends, Grows, Inv, Moves, Wrap;
    rg2, n2 := rg1, n;
    if out.Ok? && I.HasTy(out.v, TInt(t)) {
      var ins := IBin(r1.0.b.tc, Bin(Add), r1.1, ImmInt(0, t), t, false);
      ExecSnap(k, r1.0.b.tc, r1.1, t, HereFrame(k, r1.0.b, rg1), w1.heap, out.v.n);
      rg2 := AppendTmp(k, ls, r1.0, IntT(t), ins, w, rg, w1, rg1, n, MInt(out.v.n));
      n2 := n + 1;
    }
  }

  lemma ExecSnap(k: Act, dst: nat, v: IVal, t: IntTy, fr: Frame, heap: seq<HObj>, x: int)
    requires ValOf(fr.rg, v) == Some(MInt(x)) && t.Holds(x)
    ensures Exec(k.code.ir, IBin(dst, Bin(Add), v, ImmInt(0, t), t, false), fr, k.rest, heap)
         == Run(Next(fr, SetTemp(fr.rg, dst, MInt(x))), k.rest, heap)
  {
    WrapFits(x, t);
  }

  // ----- the head -----

  datatype HeadCode = HeadCode(ll: ForLabels, last: LS, head: LS, test: LS, body: LS)

  // Up to the body block; `test` ends the head block.
  function HeadOf(ls: LS, f: ForRegs, t: IntTy): HeadCode {
    var (ls1, head) := Lbl(ls, "for_head");
    var (ls2, bodyl) := Lbl(ls1, "for_body");
    var (ls3, post) := Lbl(ls2, "for_post");
    var (ls4, fin) := Lbl(ls3, "for_end");
    var last := Put(ls4, IBr(head));
    var lsH := Block0(last, head);
    var (ls5, c) := Tmp(lsH, BOOL);
    var ls6 := Put(ls5, IBin(c.id, Cmp(Lt), f.cnt, f.b, t, false));
    var test := Put(ls6, ICondBr(c, bodyl, fin));
    HeadCode(ForLabels(head, bodyl, post, fin), last, lsH, test, Block0(test, bodyl))
  }

  lemma HeadIs(ls: LS, f: ForRegs, t: IntTy)
    requires f.un.Local?
    ensures var h := HeadOf(ls, f, t);
            && ForHead(ls, f.un, f.cnt, f.b, t) == (Put(h.body, IAssign(PLocal(f.un.name), f.cnt)), h.ll)
            && h.head == Block0(h.last, h.ll.head) && JumpsTo(ls, h.last, h.ll.head) && h.body == Block0(h.test, h.ll.body)
            && Grows(ls, h.head) && Grows(h.head, h.test) && Grows(h.test, h.body) && Grows(h.head, h.body)
            && h.head.uq == ls.uq
  {
    hide Extends;
    var h := HeadOf(ls, f, t);
    var ls4 := Lbl(Lbl(Lbl(Lbl(ls, "for_head").0, "for_body").0, "for_post").0, "for_end").0;
    assert Relabelled(ls, ls4) && h.last == Put(ls4, IBr(h.ll.head));
    RelabelGrows(ls, ls4, IBr(h.ll.head));
    BlockGrows(h.last, h.ll.head);
    Trans(ls, h.last, h.head);
    var (ls5, c) := Tmp(h.head, BOOL);
    var cmp := IBin(c.id, Cmp(Lt), f.cnt, f.b, t, false);
    TmpPutGrows(h.head, BOOL, cmp);
    PutGrows(Put(ls5, cmp), ICondBr(c, h.ll.body, h.ll.fin));
    Trans(h.head, Put(ls5, cmp), h.test);
    BlockGrows(h.test, h.ll.body);
    Trans(h.head, h.test, h.body);
  }

  // ls2 is the state ls1 with further labels drawn.
  ghost predicate Relabelled(ls1: LS, ls2: LS) {
    ls1.b.bc <= ls2.b.bc && ls2 == ls1.(b := ls1.b.(bc := ls2.b.bc))
  }

  lemma RelabelGrows(ls1: LS, ls2: LS, i: Instr)
    requires Relabelled(ls1, ls2)
    ensures Grows(ls1, ls2) && Grows(ls1, Put(ls2, i)) && CurTerminated(ls2.b) == CurTerminated(ls1.b)
  {
    GrowsRefl(ls1);
    PutGrows(ls2, i);
    Trans(ls1, ls2, Put(ls2, i));
  }

  // `last` is ls with labels drawn and a jump to l.
  ghost predicate JumpsTo(ls: LS, last: LS, l: string) {
    exists ls1 :: Relabelled(ls, ls1) && last == Put(ls1, IBr(l))
  }

  // The test sends control to the body exactly when the counter is below the limit.
  lemma RunTest(k: Act, ls: LS, f: ForRegs, t: IntTy, rg: Regs, heap: seq<HObj>, i: int, limit: int, step: int, tc: nat)
    returns (rg2: Regs)
    requires Counting(f, rg, i, limit, step, tc) && Placed(k, HeadOf(ls, f, t).test)
    ensures var h := HeadOf(ls, f, t);
            && StepN(k.code.ir, At(k, h.head.b, rg, heap), 2) == AtLabel(k, if i < limit then h.ll.body else h.ll.fin, rg2, heap)
            && rg2 == SetTemp(rg, h.head.b.tc, MBool(i < limit))
  {
    hide StepN, Step, FuncAt, LamAt, CodeIn, Linked, Extends, Exec, CodeOk, Grows;
    var h := HeadOf(ls, f, t);
    var (ls5, c) := Tmp(h.head, BOOL);
    var cmp := IBin(c.id, Cmp(Lt), f.cnt, f.b, t, false);
    var br := ICondBr(c, h.ll.body, h.ll.fin);
    PutGrows(Put(ls5, cmp), br);
    PlacedEarlier(k, Put(ls5, cmp), h.test);
    rg2 := SetTemp(rg, c.id, MBool(i < limit));
    FetchPlaced(k, ls5, cmp, rg, heap);
    ExecTest(k, c.id, f, t, HereFrame(k, ls5.b, rg), heap, i, limit, step, tc);
    FetchPlaced(k, Put(ls5, cmp), br, rg2, heap);
    ExecBranch(k, c, h.ll.body, h.ll.fin, HereFrame(k, Put(ls5, cmp).b, rg2), heap, i < limit);
    var c0 := At(k, h.head.b, rg, heap);
    assert c0 == At(k, ls5.b, rg, heap);
    NoSteps(k.code.ir, c0);
    OneMore(k.code.ir, c0, 0, c0);
    OneMore(k.code.ir, c0, 1, At(k, Put(ls5, cmp).b, rg2, heap));
    JumpIsLabel(k, HereFrame(k, Put(ls5, cmp).b, rg2), if i < limit then h.ll.body else h.ll.fin, rg2, heap);
  }

  lemma ExecTest(k: Act, dst: nat, f: ForRegs, t: IntTy, fr: Frame, heap: seq<HObj>, i: int, limit: int, step: int,
                 tc: nat)
    requires Counting(f, fr.rg, i, limit, step, tc)
    ensures Exec(k.code.ir, IBin(dst, Cmp(Lt), f.cnt, f.b, t, false), fr, k.rest, heap)
         == Run(Next(fr, SetTemp(fr.rg, dst, MBool(i < limit))), k.rest, heap)
  {
  }

  lemma ExecBranch(k: Act, c: IVal, tl: string, fl: string, fr: Frame, heap: seq<HObj>, b: bool)
    requires ValOf(fr.rg, c) == Some(MBool(b))
    ensures Exec(k.code.ir, ICondBr(c, tl, fl), fr, k.rest, heap) == Jump(fr, if b then tl else fl, k.rest, heap)
  {
  }

  // ----- the post block -----

  // Its instructions, up to the jump back.
  function PostOf(ls: LS, ll: ForLabels, f: ForRegs, t: IntTy): LS
    requires f.cnt.Local?
  {
    var (ls1, nxt) := Tmp(Block0(ls, ll.post), IntT(t));
    var ls2 := Put(ls1, IBin(nxt.id, Bin(Add), f.cnt, f.c, t, false));
    Put(Put(ls2, IAssign(PLocal(f.cnt.name), nxt)), IBr(ll.head))
  }

  lemma PostIs(ls: LS, ll: ForLabels, f: ForRegs, t: IntTy)
    requires f.cnt.Local?
    ensures ForPost(ls, ll, f.cnt, f.c, t) == Block0(PostOf(ls, ll, f, t), ll.fin)
    ensures Grows(Block0(ls, ll.post), PostOf(ls, ll, f, t)) && Grows(ls, Block0(ls, ll.post))
  {
    hide Extends;
    var ls0 := Block0(ls, ll.post);
    var (ls1, nxt) := Tmp(ls0, IntT(t));
    var add := IBin(nxt.id, Bin(Add), f.cnt, f.c, t, false);
    var ls2 := Put(ls1, add);
    var ls3 := Put(ls2, IAssign(PLocal(f.cnt.name), nxt));
    BlockGrows(ls, ll.post);
    TmpPutGrows(ls0, IntT(t), add);
    PutGrows(ls2, IAssign(PLocal(f.cnt.name), nxt));
    PutGrows(ls3, IBr(ll.head));
    Trans(ls0, ls2, ls3);
    Trans(ls0, ls3, PostOf(ls, ll, f, t));
  }

  function Bumped(rg: Regs, tc: nat, cnt: string, i: int): Regs { SetLocal(SetTemp(rg, tc, MInt(i)), cnt, MInt(i)) }

  // The post block adds the step to the counter and goes back to the head.
  lemma RunPost(k: Act, ls: LS, ll: ForLabels, f: ForRegs, t: IntTy, rg: Regs, heap: seq<HObj>, i: int, limit: int,
                step: int, tc: nat)
    requires f.cnt.Local? && Counting(f, rg, i, limit, step, tc)
    requires Placed(k, PostOf(ls, ll, f, t)) && ActOk(k)
    ensures var rg2 := Bumped(rg, ls.b.tc, f.cnt.name, Wrap(i + step, t));
            StepN(k.code.ir, AtLabel(k, ll.post, rg, heap), 3) == AtLabel(k, ll.head, rg2, heap)
  {
    hide StepN, Step, FuncAt, LamAt, CodeIn, Linked, Extends, Grows, CodeOk;
    var ls0 := Block0(ls, ll.post);
    var (ls1, nxt) := Tmp(ls0, IntT(t));
    var add := IBin(nxt.id, Bin(Add), f.cnt, f.c, t, false);
    var upd := IAssign(PLocal(f.cnt.name), nxt);
    var ls2 := Put(ls1, add);
    var ls3 := Put(ls2, upd);
    var ls4 := PostOf(ls, ll, f, t);
    PutGrows(ls3, IBr(ll.head));
    PlacedEarlier(k, ls3, ls4);
    PutGrows(ls2, upd);
    PlacedEarlier(k, ls2, ls3);
    TmpPutGrows(ls0, IntT(t), add);
    PlacedEarlier(k, ls0, ls2);
    LabelOpen(k, ls, ll.post, rg, heap);
    var c0 := At(k, ls0.b, rg, heap);
    assert c0 == At(k, ls1.b, rg, heap);
    var rg1 := SetTemp(rg, nxt.id, MInt(Wrap(i + step, t)));
    var rg2 := SetLocal(rg1, f.cnt.name, MInt(Wrap(i + step, t)));
    FetchPlaced(k, ls1, add, rg, heap);
    ExecAdd(k, nxt.id, f, t, HereFrame(k, ls1.b, rg), heap, i, limit, step, tc);
    FetchPlaced(k, ls2, upd, rg1, heap);
    ExecSetLocal(k, f.cnt.name, nxt, HereFrame(k, ls2.b, rg1), heap, MInt(Wrap(i + step, t)));
    RunJump(k, ls3, ll.head, rg2, heap);
    NoSteps(k.code.ir, c0);
    OneMore(k.code.ir, c0, 0, c0);
    OneMore(k.code.ir, c0, 1, At(k, ls2.b, rg1, heap));
    OneMore(k.code.ir, c0, 2, At(k, ls3.b, rg2, heap));
  }

  lemma ExecAdd(k: Act, dst: nat, f: ForRegs, t: IntTy, fr: Frame, heap: seq<HObj>, i: int, limit: int, step: int,
                tc: nat)
    requires Counting(f, fr.rg, i, limit, step, tc)
    ensures Exec(k.code.ir, IBin(dst, Bin(Add), f.cnt, f.c, t, false), fr, k.rest, heap)
         == Run(Next(fr, SetTemp(fr.rg, dst, MInt(Wrap(i + step, t)))), k.rest, heap)
  {
  }

  // ----- one round's environment -----

  // The world of a round: an environment that binds the index.
  function RoundWorld(w: World, env: int, x: string, i: int, t: IntTy, decls: set<string>): World
    requires |w.later| == |w.st.envs|
  {
    Defined(Inside(w, env, {x} + decls), |w.st.envs|, x, I.VInt(i, t), true, decls)
  }

  lemma RoundReady(k: Act, cx: Cx, ls: LS, vs: Scope, w: World, rg: Regs, env: int, vars: map<nat, string>, x: string,
                   i: int, t: IntTy,
                   decls: set<string>, N: set<string>)
    requires Ready(k, cx, ls, vs, w, rg, env, vars) && SettledAll(w, env, N, vs) && x !in k.code.src && t.Holds(i)
    requires |w.later| == |w.st.envs|
    ensures var w1 := RoundWorld(w, env, x, i, t, decls);
            var e := |w.st.envs|;
            && Ready(k, cx, ls, vs - {x}, w1, rg, e, vars) && FlowDone(k, ls, vars, w, rg, w1, rg, -1)
            && |w.st.cells| !in w1.boxes && |w.st.cells| !in vars
            && w1.later == w.later + [decls]
  {
    hide StepN, Step, Exec, FuncAt, LamAt, Inv, Moves, Live, ScopeRel, FlowDone, RegsKept;
    var w0 := Inside(w, env, {x} + decls);
    EnterInner(k, cx, ls, vs, w, rg, env, vars, N, {x} + decls);
    DefineReady(k, cx, ls, vs, w0, rg, |w.st.envs|, vars, x, I.VInt(i, t), MInt(i), true, decls);
    FlowTrans(k, ls, ls, -1, |w.st.envs|, vars, vars, w, rg, w0, rg, RoundWorld(w, env, x, i, t, decls), rg);
  }

  // The index where the body finds it: the published local, or a fresh box.
  lemma RunIndex(k: Act, cx: Cx, ls: LS, ls8: LS, vs: Scope, w: World, rg: Regs, env: int, vars: map<nat, string>,
                 x: string, i: int, t: IntTy,
                 f: ForRegs, decls: set<string>, N: set<string>, tc: nat, b: bool)
    returns (w2: World, rg2: Regs, vars2: map<nat, string>, n: nat)
    requires Ready(k, cx, ls, vs, w, rg, env, vars) && SettledAll(w, env, N, vs) && x !in k.code.src && t.Holds(i)
    requires LoopNames(f, x, t, ls.uq) && Counts(ls, ls8) && ls.uq + 2 <= ls8.uq && tc >= ls.b.tc && !CurTerminated(ls8.b)
    requires Placed(k, ForIndex(cx, ls8, x, t, f.un).0)
    ensures var r := ForIndex(cx, ls8, x, t, f.un);
            var rg8 := SetLocal(SetTemp(rg, tc, MBool(b)), f.un.name, MInt(i));
            var e := |w.st.envs|;
            && IndexDone(k, cx, ls, ls8, r, vs, w, rg, e, vars, x, f.un, rg8, w2, rg2, vars2, n)
            && SettledAbove(w2, e, N, vs[x := r.1]) && w2.later[e] == decls
            && w2.st == I.Define(I.NewEnv(w.st, env), e, x, I.VInt(i, t), true)
  {
    hide StepN, Step, Exec, FuncAt, LamAt, CodeIn, Linked, Extends, Grows, Inv, Moves, Live, ScopeRel, FlowDone,
         Evolves, Stamp, Settled, VRel, RegsKept, UniqName, CodeOk, IndexDone;
    ReadyEnv(k, cx, ls, vs, w, rg, env, vars);
    NameStamps(f, x, t, ls.uq);
    RoundReady(k, cx, ls, vs, w, rg, env, vars, x, i, t, decls, N);
    var w1, e, m := RoundWorld(w, env, x, i, t, decls), |w.st.envs|, MInt(i);
    var rg1 := SetTemp(rg, tc, MBool(b));
    var rg8 := SetLocal(rg1, f.un.name, m);
    RoundRegs(k, cx, ls, vs - {x}, w, rg, w1, rg1, rg8, e, vars, tc, b, f.un.name, m);
    IndexRel(k.code, w1, i, t);
    w2, rg2, vars2, n := w1, rg8, vars, if x in cx.captured then 2 else 0;
    if x in cx.captured {
      w2, rg2 := IndexBox(k, cx, ls, ls8, vs, w, rg, e, vars, x, t, f.un, m, w1, rg8);
    } else {
      vars2 := IndexLocal(k, cx, ls, ls8, vs, w, rg, e, vars, x, t, f.un, m, w1, rg1, rg8);
    }
    IndexFlow(k, cx, ls, ls8, ForIndex(cx, ls8, x, t, f.un), vs, w, rg, e, vars, x, f.un, rg8, w2, rg2, vars2, n);
    RoundSettled(k, ls, vars, w, rg, w2, rg2, env, x, N, vs, ForIndex(cx, ls8, x, t, f.un).1);
  }

  ghost predicate IndexDone(k: Act, cx: Cx, ls: LS, ls8: LS, r: (LS, IVal), vs: Scope, w: World, rg: Regs, e: int,
                            vars: map<nat, string>,
                            x: string, un: IVal, rg8: Regs, w2: World, rg2: Regs, vars2: map<nat, string>, n: nat)
    requires un.Local?
  {
    && Ready(k, cx, r.0, vs[x := r.1], w2, rg2, e, vars2)
    && StepN(k.code.ir, At(k, ls8.b, rg8, w.heap), n) == At(k, r.0.b, rg2, w2.heap)
    && RegsKept(rg8, rg2, ls8.b.tc, ls8.uq, {})
    && FlowDone(k, ls, vars, w, rg, w2, rg2, -1) && Extended(vars, vars2, |w.st.cells|, ls.uq)
    && (vars2 == vars || vars2 == vars[|w.st.cells| := un.name])
  }

  lemma IndexFlow(k: Act, cx: Cx, ls: LS, ls8: LS, r: (LS, IVal), vs: Scope, w: World, rg: Regs, e: int,
                  vars: map<nat, string>,
                  x: string, un: IVal, rg8: Regs, w2: World, rg2: Regs, vars2: map<nat, string>, n: nat)
    requires un.Local? && IndexDone(k, cx, ls, ls8, r, vs, w, rg, e, vars, x, un, rg8, w2, rg2, vars2, n)
    ensures FlowDone(k, ls, vars, w, rg, w2, rg2, -1)
  {
    hide StepN, LamAt, FuncAt, Inv, Moves, Live, ScopeRel, FlowDone, RegsKept;
  }

  lemma IndexBox(k: Act, cx: Cx, ls: LS, ls8: LS, vs: Scope, w: World, rg: Regs, e: int, vars: map<nat, string>,
                 x: string, t: IntTy,
                 un: IVal, m: MVal, w1: World, rg8: Regs)
    returns (w2: World, rg2: Regs)
    requires x in cx.captured && un.Local? && Stamp(un.name) <= ls8.uq && ValOf(rg8, un) == Some(m) && Placed(k, MakeBox(ls8, IntT(t), un).0)
    requires Ready(k, cx, ls, vs - {x}, w1, rg, e, vars) && FlowDone(k, ls, vars, w1, rg, w1, rg8, -1)
    requires FlowDone(k, ls, vars, w, rg, w1, rg8, -1) && Counts(ls, ls8) && !CurTerminated(ls8.b)
    requires x in w1.st.envs[e].vars && w1.st.envs[e].vars[x] == |w.st.cells| < |w1.st.cells|
    requires |w.st.cells| !in w1.boxes && |w.st.cells| !in vars && VRel(k.code, w1, w1.st.cells[|w.st.cells|].value, m) && w1.heap == w.heap
    ensures IndexDone(k, cx, ls, ls8, ForIndex(cx, ls8, x, t, un), vs, w, rg, e, vars, x, un, rg8, w2, rg2, vars, 2)
    ensures w2.st == w1.st && w2.later == w1.later
  {
    hide StepN, Step, Exec, FuncAt, LamAt, CodeIn, Linked, Extends, Grows, Inv, Moves, Live, ScopeRel, FlowDone,
         Evolves, Stamp, Settled, VRel, RegsKept, CodeOk;
    var r := MakeBox(ls8, IntT(t), un);
    var c := |w.st.cells|;
    ReadyFlow(k, cx, cx, ls, ls8, vs - {x}, w1, rg, e, vars, w1, rg8);
    RunMakeBox(k, ls8, IntT(t), un, rg8, w.heap, m);
    ReadyInv(k, cx, ls8, vs - {x}, w1, rg8, e, vars);
    BoxCell(k.code, w1, c, m);
    w2, rg2 := Boxing(w1, c, m), SetTemp(rg8, ls8.b.tc, MBox(|w.heap|));
    ScopeBoxed(k, cx, ls8, r.0, vs - {x}, w1, rg8, e, vars, x, c, r.1, w2, rg2);
    assert (vs - {x})[x := r.1] == vs[x := r.1];
    BoxedFlow(k, ls, vars, w, rg, w1, rg8, w2, -1, c, m);
    KeptTemp(rg8, ls8.b.tc, MBox(|w.heap|), ls.b.tc, ls.uq);
    KeptTemp(rg8, ls8.b.tc, MBox(|w.heap|), ls8.b.tc, ls8.uq);
    RegFlow(k, ls, vars, w, rg, w2, rg8, rg2, -1);
  }

  lemma IndexLocal(k: Act, cx: Cx, ls: LS, ls8: LS, vs: Scope, w: World, rg: Regs, e: int, vars: map<nat, string>,
                   x: string, t: IntTy,
                   un: IVal, m: MVal, w1: World, rg1: Regs, rg8: Regs)
    returns (vars2: map<nat, string>)
    requires x !in cx.captured && un.Local? && !Boxed(un) && ls.uq < Stamp(un.name) <= ls8.uq && rg8 == SetLocal(rg1, un.name, m)
    requires Ready(k, cx, ls, vs - {x}, w1, rg1, e, vars)
    requires FlowDone(k, ls, vars, w, rg, w1, rg8, -1) && Counts(ls, ls8) && !CurTerminated(ls8.b)
    requires x in w1.st.envs[e].vars && w1.st.envs[e].vars[x] == |w.st.cells| < |w1.st.cells|
    requires |w.st.cells| !in w1.boxes && |w.st.cells| !in vars && VRel(k.code, w1, w1.st.cells[|w.st.cells|].value, m) && w1.heap == w.heap
    ensures IndexDone(k, cx, ls, ls8, ForIndex(cx, ls8, x, t, un), vs, w, rg, e, vars, x, un, rg8, w1, rg8, vars2, 0)
  {
    hide StepN, Step, Exec, FuncAt, LamAt, CodeIn, Linked, Extends, Grows, Inv, Moves, Live, ScopeRel, FlowDone,
         Evolves, Stamp, Settled, VRel, RegsKept, CodeOk;
    vars2 := vars[|w.st.cells| := un.name];
    ScopePlaced(k, cx, ls, ls8, vs - {x}, w1, rg1, e, vars, x, |w.st.cells|, un, m);
    assert (vs - {x})[x := un] == vs[x := un];
    NoSteps(k.code.ir, At(k, ls8.b, rg8, w.heap));
    KeptRefl(rg8, ls8.b.tc, ls8.uq);
  }

  lemma IndexRel(code: Code, w: World, i: int, t: IntTy)
    requires t.Holds(i)
    ensures VRel(code, w, I.VInt(i, t), MInt(i))
  {
    hide LamAt;
  }

  lemma RoundRegs(k: Act, cx: Cx, ls: LS, vs: Scope, w: World, rg: Regs, w1: World, rg1: Regs, rg8: Regs, e: int,
                  vars: map<nat, string>,
                  tc: nat, b: bool, un: string, m: MVal)
    requires FlowDone(k, ls, vars, w, rg, w1, rg, -1) && Ready(k, cx, ls, vs, w1, rg, e, vars)
    requires tc >= ls.b.tc && Stamp(un) > ls.uq
    requires rg1 == SetTemp(rg, tc, MBool(b)) && rg8 == SetLocal(rg1, un, m)
    ensures FlowDone(k, ls, vars, w, rg, w1, rg1, -1) && FlowDone(k, ls, vars, w, rg, w1, rg8, -1)
    ensures FlowDone(k, ls, vars, w1, rg, w1, rg8, -1) && Ready(k, cx, ls, vs, w1, rg1, e, vars)
  {
    hide LamAt, FuncAt, Live, ScopeRel, Inv, FlowDone, Moves, RegsKept;
    KeptTemp(rg, tc, MBool(b), ls.b.tc, ls.uq);
    KeptLocal(rg1, un, m, ls.b.tc, ls.uq);
    RegFlow(k, ls, vars, w, rg, w1, rg, rg1, -1);
    RegFlow(k, ls, vars, w, rg, w1, rg1, rg8, -1);
    FlowRefl(k, ls, cx, vs, vars, w1, rg, e);
    RegFlow(k, ls, vars, w1, rg, w1, rg, rg1, -1);
    RegFlow(k, ls, vars, w1, rg, w1, rg1, rg8, -1);
    ReadyFlow(k, cx, cx, ls, ls, vs, w1, rg, e, vars, w1, rg1);
  }

  lemma RoundSettled(k: Act, ls: LS, vars: map<nat, string>, w: World, rg: Regs, w2: World, rg2: Regs, env: int,
                     x: string, N: set<string>,
                     vs: Scope, idx: IVal)
    requires FlowDone(k, ls, vars, w, rg, w2, rg2, -1) && SettledAll(w, env, N, vs)
    requires |w.st.envs| < |w2.st.envs| && w2.st.envs[|w.st.envs|].parent == env && x in w2.st.envs[|w.st.envs|].vars
    ensures SettledAbove(w2, |w.st.envs|, N, vs[x := idx])
  {
    hide LamAt, FuncAt, Live, Inv, RegsKept;
    SettledAllKept(w, w2, env, N, vs);
  }
}
