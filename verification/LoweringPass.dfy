// The pass of compiler/lower.cardinal in its own form: an object with counter
// cells, loop stacks and the builder of the function at hand, walking the tree
// with loops. Each method computes the function of the same name in Lowering.
module LoweringPass {
  import opened Numeric
  import opened Syntax
  import opened Ir
  import opened Names
  import opened Builders
  import opened Lowering
  import opened CaptureSafe
  import Ops = Lowering

  // Making the environment neither looks at the flag nor changes it.
  lemma EnvRefuses(ls: LS, vs: Scope, caps: seq<string>, r: bool)
    requires forall x | x in caps :: x in vs
    ensures MakeEnv(ls.(refused := r), vs, caps) == (MakeEnv(ls, vs, caps).0.(refused := r), MakeEnv(ls, vs, caps).1)
  {
    hide Emit;
    if caps != [] {
      var (ls1, env) := Tmp(ls, ENV_TY);
      StoreRefuses(Ops.Put(ls1, IEnvNew(env.id, |caps|)), vs, caps, env, 0, r);
    }
  }

  lemma {:induction false} StoreRefuses(ls: LS, vs: Scope, caps: seq<string>, env: IVal, i: nat, r: bool)
    requires forall x | x in caps :: x in vs
    requires i <= |caps|
    ensures StoreCaps(ls.(refused := r), vs, caps, env, i) == StoreCaps(ls, vs, caps, env, i).(refused := r)
    decreases |caps| - i
  {
    hide Emit;
    if i < |caps| {
      assert caps[i] in caps;
      StoreRefuses(Ops.Put(ls, IEnvStore(env, i, vs[caps[i]])), vs, caps, env, i + 1, r);
    }
  }

  class Lowerer {
    var b: FuncBuilder
    var uq: nat
    var lamn: nat
    var funcs: seq<IRFunc>
    var chk: bool
    var brk: seq<string>
    var cont: seq<string>
    var captured: set<string>
    var refused: bool
    const mod: string

    predicate Valid() reads this, b { b.Valid() }

    function View(): LS
      reads this, b
      requires Valid()
    {
      LS(b.View(), uq, lamn, funcs, refused)
    }

    function Context(): Cx
      reads this
    {
      Cx(chk, brk, cont, captured, mod)
    }

    constructor (mod: string)
      ensures Valid() && fresh(b) && lamn == 0 && funcs == [] && this.mod == mod && !refused && !chk && brk == [] && cont == []
    {
      this.mod := mod;
      b := new FuncBuilder("", Nil);
      uq, lamn, funcs, chk, brk, cont, captured, refused := 0, 0, [], false, [], [], {}, false;
    }

    // ----- the builder's operations, and uniq -----

    method Put(i: Instr)
      requires Valid()
      modifies b
      ensures Valid() && View() == Ops.Put(old(View()), i)
    {
      b.Emit(i);
    }

    method OpenBlock(l: string)
      requires Valid()
      modifies b
      ensures Valid() && View() == Ops.Block0(old(View()), l)
    {
      b.NewBlock(l);
    }

    method Label(hint: string) returns (l: string)
      requires Valid()
      modifies b
      ensures Valid() && (View(), l) == Ops.Lbl(old(View()), hint)
    {
      l := b.FreshLabel(hint);
    }

    method Temporary(ty: IRType) returns (v: IVal)
      requires Valid()
      modifies b
      ensures Valid() && (View(), v) == Ops.Tmp(old(View()), ty)
      ensures v.Temp?
    {
      v := b.FreshTemp(ty);
    }

    // A minted name, declared as a local.
    method Variable(base: string, ty: IRType) returns (v: IVal)
      requires Valid()
      modifies this`uq, b
      ensures Valid() && (View(), v) == Ops.Loc(old(View()), base, ty)
      ensures v.Local?
    {
      uq := uq + 1;
      v := b.AddLocal(UniqName(base, uq), ty);
    }

    method FallTo(l: string)
      requires Valid()
      modifies b
      ensures Valid() && View() == Ops.FallTo(old(View()), l)
    {
      var t := b.CurTerminated();
      if !t { Put(IBr(l)); }
    }

    method MakeBox(vty: IRType, init: IVal) returns (box: IVal)
      requires Valid()
      modifies b
      ensures Valid() && (View(), box) == Ops.MakeBox(old(View()), vty, init)
    {
      box := Temporary(Ptr(vty));
      Put(IAlloc(box.id));
      Put(IAssign(PDeref(box), init));
    }

    method BindName(x: string, ty: IRType, v: IVal) returns (loc: IVal)
      requires Valid()
      modifies this`uq, b
      ensures Valid() && (View(), loc) == Ops.BindName(Context(), old(View()), x, ty, v)
    {
      if x in captured {
        loc := MakeBox(ty, v);
      } else {
        loc := Variable(x, ty);
        Put(IAssign(PLocal(loc.name), v));
      }
    }

    // ----- expressions -----

    method LowerExpr(vs: Scope, e: Expr) returns (v: IVal)
      requires Valid()
      modifies this, b
      ensures Valid() && b == old(b) && Context() == old(Context())
      ensures (View(), v) == Ops.LowerExpr(old(Context()), old(View()), vs, e)
      decreases e, 2
    {
      match e
      case EInt(n, t) => v := ImmInt(n, t);
      case EBool(x) => v := ImmBool(x);
      case EName(x) => v := LowerName(vs, x);
      case EOp(op, args, t) => v := LowerOp(vs, op, args, t);
      case ECast(e1, t) =>
        var a := LowerExpr(vs, e1);
        v := Temporary(IntT(t));
        Put(ICast(v.id, a, t));
      case ECall(callee, args, rty) => v := LowerCall(vs, e);
      case EFunc(params, ret, body) => v := LowerFunclit(vs, params, ret, body);
      case EPanic =>
        Put(IPanic);
        v := ImmUnit;
    }

    method LowerName(vs: Scope, x: string) returns (v: IVal)
      requires Valid()
      modifies b
      ensures Valid() && (View(), v) == Ops.LowerName(old(View()), vs, x)
    {
      if x !in vs { return ImmUnit; }
      if Boxed(vs[x]) {
        v := Temporary(Inner(vs[x].ty));
        Put(ILoad(v.id, vs[x]));
      } else {
        v := vs[x];
      }
    }

    method LowerCall(vs: Scope, e: Expr) returns (v: IVal)
      requires Valid() && e.ECall?
      modifies this, b
      ensures Valid() && b == old(b) && Context() == old(Context())
      ensures (View(), v) == Ops.LowerExpr(old(Context()), old(View()), vs, e)
      decreases e, 1
    {
      var direct := e.callee.EName? && e.callee.x !in vs;
      var clos := ImmUnit;
      if !direct { clos := LowerExpr(vs, e.callee); }
      var vals := LowerArgs(vs, e.cargs);
      v := ImmUnit;
      var res: Option<nat> := None;
      if e.rty != TUnit {
        v := Temporary(TyOf(e.rty));
        res := Some(v.id);
      }
      if direct { Put(ICall(res, Mangle(mod, e.callee.x), vals)); } else { Put(ICallClosure(res, clos, vals)); }
    }

    method LowerArgs(vs: Scope, es: List<Expr>) returns (vals: seq<IVal>)
      requires Valid()
      modifies this, b
      ensures Valid() && b == old(b) && Context() == old(Context())
      ensures (View(), vals) == Ops.LowerExprs(old(Context()), old(View()), vs, es)
      decreases es, 0
    {
      vals := [];
      var rest := es;
      assert [] + Ops.LowerExprs(Context(), View(), vs, es).1 == Ops.LowerExprs(Context(), View(), vs, es).1;
      while rest.Cons?
        invariant Valid() && b == old(b) && Context() == old(Context())
        invariant rest.Cons? ==> rest == es || rest < es
        invariant var all := Ops.LowerExprs(old(Context()), old(View()), vs, es);
                  var left := Ops.LowerExprs(old(Context()), View(), vs, rest);
                  all == (left.0, vals + left.1)
        decreases rest
      {
        ghost var before := vals;
        ghost var left := Ops.LowerExprs(old(Context()), View(), vs, rest).1;
        var v := LowerExpr(vs, rest.head);
        vals := vals + [v];
        rest := rest.tail;
        assert before + left == vals + left[1..];
      }
      assert vals + [] == vals;
    }

    method LowerOp(vs: Scope, op: Op, args: List<Expr>, t: IntTy) returns (v: IVal)
      requires Valid()
      modifies this, b
      ensures Valid() && b == old(b) && Context() == old(Context())
      ensures (View(), v) == Ops.LowerOp(old(Context()), old(View()), vs, op, args, t)
      decreases args, 2
    {
      hide Ops.LowerFold, Ops.LowerExpr, Ops.LowerAndOr;
      if op.And? || op.Or? {
        v := LowerAndOr(vs, args, op.Or?);
      } else if args.Nil? {
        v := ImmUnit;
      } else if op.Not? {
        v := LowerUnary(vs, args.head, BOOL, LNot, t, false);
      } else if op.Cmp? {
        if args.tail.Nil? { return ImmUnit; }
        var l := LowerExpr(vs, args.head);
        var r := LowerExpr(vs, args.tail.head);
        v := Temporary(BOOL);
        Put(IBin(v.id, op, l, r, t, false));
      } else if op.Bnot? || (op.b.Sub? && args.tail.Nil?) {
        v := LowerUnary(vs, args.head, IntT(t), if op.Bnot? then BNot else Neg, t, chk);
      } else {
        v := LowerFold(vs, op, args, t);
      }
    }

    // One operand, one instruction.
    method LowerUnary(vs: Scope, e: Expr, ty: IRType, op: UnOp, t: IntTy, c: bool) returns (v: IVal)
      requires Valid()
      modifies this, b
      ensures Valid() && b == old(b) && Context() == old(Context())
      ensures var (ls1, a) := Ops.LowerExpr(old(Context()), old(View()), vs, e);
              var (ls2, dst) := Tmp(ls1, ty);
              (View(), v) == (Ops.Put(ls2, IUn(dst.id, op, a, t, c)), dst)
      decreases e, 3
    {
      hide Ops.LowerExpr, Emit;
      var a := LowerExpr(vs, e);
      v := Temporary(ty);
      Put(IUn(v.id, op, a, t, c));
    }

    // n-ary arithmetic: fold left.
    method LowerFold(vs: Scope, op: Op, args: List<Expr>, t: IntTy) returns (acc: IVal)
      requires Valid() && args.Cons?
      modifies this, b
      ensures Valid() && b == old(b) && Context() == old(Context())
      ensures var first := Ops.LowerExpr(old(Context()), old(View()), vs, args.head);
              (View(), acc) == Ops.LowerFold(old(Context()), first.0, vs, op, args.tail, t, first.1)
      decreases args, 1
    {
      acc := LowerExpr(vs, args.head);
      ghost var done := Ops.LowerFold(Context(), View(), vs, op, args.tail, t, acc);
      var rest := args.tail;
      while rest.Cons?
        invariant Valid() && b == old(b) && Context() == old(Context())
        invariant rest < args
        invariant Ops.LowerFold(old(Context()), View(), vs, op, rest, t, acc) == done
        decreases rest
      {
        var v := LowerExpr(vs, rest.head);
        var dst := Temporary(IntT(t));
        Put(IBin(dst.id, op, acc, v, t, chk));
        acc := dst;
        rest := rest.tail;
      }
    }

    method LowerAndOr(vs: Scope, args: List<Expr>, shortTrue: bool) returns (res: IVal)
      requires Valid()
      modifies this, b
      ensures Valid() && b == old(b) && Context() == old(Context())
      ensures (View(), res) == Ops.LowerAndOr(old(Context()), old(View()), vs, args, shortTrue)
      decreases args, 1
    {
      hide Ops.LowerExpr, Dec, LabelName, UniqName;
      res := Variable("sc", BOOL);
      var endl := Label("sc_end");
      ghost var done := LowerTests(Context(), View(), vs, args, shortTrue, res.name, endl);
      var rest := args;
      while rest.Cons?
        invariant Valid() && b == old(b) && Context() == old(Context())
        invariant rest.Cons? ==> rest == args || rest < args
        invariant LowerTests(old(Context()), View(), vs, rest, shortTrue, res.name, endl) == done
        decreases rest
      {
        var v := LowerExpr(vs, rest.head);
        Put(IAssign(PLocal(res.name), v));
        var nxt := Label("sc_nx");
        Put(if shortTrue then ICondBr(v, endl, nxt) else ICondBr(v, nxt, endl));
        OpenBlock(nxt);
        rest := rest.tail;
      }
      Put(IBr(endl));
      OpenBlock(endl);
    }

    // ----- closures -----

    method LowerFunclit(vs: Scope, params: List<Param>, ret: Ty, body: List<Stmt>) returns (v: IVal)
      requires Valid()
      modifies this, b
      ensures Valid() && b == old(b) && Context() == old(Context())
      ensures (View(), v) == Ops.LowerExpr(old(Context()), old(View()), vs, EFunc(params, ret, body))
      decreases body, 4
    {
      hide LowerLambda, CapTypes, LambdaBody, Ops.OpenLiteral, SortedNames, LambdaFree;
      var caps := SortedNames(LambdaFree(params, body) * vs.Keys);
      var tys, lname;
      v, lname, tys := OpenLiteral(vs, caps, TyOf(TFunc(ParamTypes(params), ret)));
      LowerLambdaBody(lname, params, ret, body, caps, tys);
    }

    method OpenLiteral(vs: Scope, caps: seq<string>, fty: IRType) returns (v: IVal, lname: string, tys: seq<IRType>)
      requires Valid() && (forall x | x in caps :: x in vs)
      modifies this, b
      ensures Valid() && b == old(b) && Context() == old(Context()) && tys == CapTypes(vs, caps)
      ensures (View(), v, lname) == Ops.OpenLiteral(mod, old(View()), vs, caps, fty)
    {
      hide Emit, CapTypes, CannotCapture, Ops.MakeEnv;
      EnvRefuses(View(), vs, caps, refused || CannotCapture(vs, caps));
      tys := CaptureTypes(vs, caps);
      var env := MakeEnv(vs, caps);
      lamn := lamn + 1;
      lname := LambdaName(mod, lamn);
      v := Temporary(fty);
      Put(IMakeClosure(v.id, lname, env));
    }

    // What each captured name's box holds; a name without a box ends the pass.
    method CaptureTypes(vs: Scope, caps: seq<string>) returns (tys: seq<IRType>)
      requires Valid() && forall x | x in caps :: x in vs
      modifies this`refused
      ensures tys == CapTypes(vs, caps) && refused == (old(refused) || CannotCapture(vs, caps))
    {
      tys := [];
      var i := 0;
      while i < |caps|
        invariant 0 <= i <= |caps| && tys == CapTypes(vs, caps)[..i]
        invariant refused == (old(refused) || exists j :: 0 <= j < i && !Boxed(vs[caps[j]]))
      {
        var cv := vs[caps[i]];
        if !Boxed(cv) { refused := true; }
        tys := tys + [if Boxed(cv) then Inner(cv.ty) else VoidPtr];
        i := i + 1;
      }
    }

    method MakeEnv(vs: Scope, caps: seq<string>) returns (env: IVal)
      requires Valid() && forall x | x in caps :: x in vs
      modifies b
      ensures Valid() && (View(), env) == Ops.MakeEnv(old(View()), vs, caps)
    {
      if caps == [] { return ImmNull; }
      env := Temporary(ENV_TY);
      Put(IEnvNew(env.id, |caps|));
      ghost var done := StoreCaps(View(), vs, caps, env, 0);
      var i := 0;
      while i < |caps|
        invariant Valid() && 0 <= i <= |caps|
        invariant StoreCaps(View(), vs, caps, env, i) == done
      {
        Put(IEnvStore(env, i, vs[caps[i]]));
        i := i + 1;
      }
    }

    // The lifted function gets a builder and a uniquifier of its own; the
    // enclosing ones are put back afterwards.
    method LowerLambdaBody(lname: string, params: List<Param>, ret: Ty, body: List<Stmt>, caps: seq<string>,
                           capTys: seq<IRType>)
      requires Valid() && |caps| == |capTys|
      modifies this
      ensures Valid() && b == old(b) && Context() == old(Context()) && b.View() == old(b.View()) && uq == old(uq)
      ensures (lamn, funcs) == LowerLambda(old(Context()), old(lamn), old(funcs), lname, params, ret, body, caps, capTys)
      ensures refused == (old(refused) || LambdaBody(old(Context()), old(lamn), old(funcs), lname, params, body, caps, capTys).refused)
      decreases body, 3
    {
      hide LowerLambda, LambdaBody;
      var savedB, savedCaptured, savedUq, savedRefused := b, captured, uq, refused;
      LiftBody(lname, params, ret, body, caps, capTys);
      b, captured, uq, refused := savedB, savedCaptured, savedUq, savedRefused || refused;
    }

    method LiftBody(lname: string, params: List<Param>, ret: Ty, body: List<Stmt>, caps: seq<string>,
                    capTys: seq<IRType>)
      requires Valid() && |caps| == |capTys|
      modifies this
      ensures Valid() && fresh(b) && Context() == old(Context()).(captured := captured)
      ensures (lamn, funcs) == LowerLambda(old(Context()), old(lamn), old(funcs), lname, params, ret, body, caps, capTys)
      ensures refused == LambdaBody(old(Context()), old(lamn), old(funcs), lname, params, body, caps, capTys).refused
      decreases body, 2
    {
      hide Ops.LoadCaps, Ops.BindParams, LowerStmts, Emit;
      b := new FuncBuilder(lname, Cons(IRParam("__env", ENV_TY), IrParams(params)));
      uq, refused := 0, false;
      captured := CapturedSs(body);
      var vs := LoadCaptured(caps, capTys);
      vs := BindParams(params, vs);
      LowerBlock(vs, body);
      Finish(ret);
      funcs := funcs + [b.View().fn];
    }

    method LoadCaptured(caps: seq<string>, capTys: seq<IRType>) returns (vs: Scope)
      requires Valid() && |caps| == |capTys|
      modifies b
      ensures Valid() && (View(), vs) == LoadCaps(old(View()), caps, capTys, 0, map[])
    {
      vs := map[];
      var i := 0;
      while i < |caps|
        invariant Valid() && 0 <= i <= |caps|
        invariant LoadCaps(View(), caps, capTys, i, vs) == LoadCaps(old(View()), caps, capTys, 0, map[])
      {
        var ptr := Temporary(Ptr(capTys[i]));
        Put(IEnvLoad(ptr.id, Local("__env", ENV_TY), i));
        vs := vs[caps[i] := ptr];
        i := i + 1;
      }
    }

    method BindParams(params: List<Param>, scope: Scope) returns (vs: Scope)
      requires Valid()
      modifies b
      ensures Valid() && (View(), vs) == Ops.BindParams(Context(), old(View()), params, scope)
    {
      vs := scope;
      var rest := params;
      while rest.Cons?
        invariant Valid()
        invariant Ops.BindParams(Context(), View(), rest, vs) == Ops.BindParams(Context(), old(View()), params, scope)
        decreases rest
      {
        var p := rest.head;
        var arg := Local(p.name, TyOf(p.ty));
        if p.name in captured {
          var box := MakeBox(TyOf(p.ty), arg);
          vs := vs[p.name := box];
        } else {
          vs := vs[p.name := arg];
        }
        rest := rest.tail;
      }
    }

    method Finish(ret: Ty)
      requires Valid()
      modifies b
      ensures Valid() && View() == Ops.Finish(old(View()), ret)
    {
      var t := b.CurTerminated();
      if !t { Put(if ret == TUnit then IRet(ImmUnit) else IPanic); }
    }

    // ----- statements -----

    method LowerBlock(scope: Scope, body: List<Stmt>)
      requires Valid()
      modifies this, b
      ensures Valid() && b == old(b) && Context() == old(Context())
      ensures View() == LowerStmts(old(Context()), old(View()), scope, body)
      decreases body, 1
    {
      var vs := scope;
      var rest := body;
      while rest.Cons?
        invariant Valid() && b == old(b) && Context() == old(Context())
        invariant rest.Cons? ==> rest == body || rest < body
        invariant LowerStmts(old(Context()), View(), vs, rest) == LowerStmts(old(Context()), old(View()), scope, body)
        decreases rest
      {
        vs := LowerStmt(vs, rest.head);
        rest := rest.tail;
      }
    }

    method LowerStmt(scope: Scope, s: Stmt) returns (vs: Scope)
      requires Valid()
      modifies this, b
      ensures Valid() && b == old(b) && Context() == old(Context())
      ensures (View(), vs) == Ops.LowerStmt(old(Context()), old(View()), scope, s)
      decreases s, 2
    {
      hide LowerStmts, Ops.LowerExpr, Ops.BindName, LowerBranches, ForTail;
      vs := scope;
      match s
      case SLet(x, ty, init, _) =>
        var v := LowerExpr(vs, init);
        var loc := BindName(x, TyOf(ty), v);
        vs := vs[x := loc];
      case SSet(x, rhs) =>
        var v := LowerExpr(vs, rhs);
        if x in vs {
          Put(IAssign(if Boxed(vs[x]) then PDeref(vs[x]) else PLocal(if vs[x].Local? then vs[x].name else ""), v));
        }
      case SDo(e) =>
        var v := LowerExpr(vs, e);
      case SIf(_, _) => LowerIf(vs, s);
      case SWhile(_, _) => LowerWhile(vs, s);
      case SForNum(_, _, _, _, _, _) => LowerFornum(vs, s);
      case SLoop(_) => LowerLoop(vs, s);
      case SBreak => Put(IBr(Top(brk)));
      case SContinue => Put(IBr(Top(cont)));
      case SPass =>
      case SReturn(e) =>
        var v := LowerExpr(vs, e);
        Put(IRet(v));
      case SReturnNone => Put(IRet(ImmUnit));
      case SChecked(body) =>
        var saved := chk;
        chk := true;
        LowerBlock(vs, body);
        chk := saved;
    }

    method LowerIf(vs: Scope, s: Stmt)
      requires Valid() && s.SIf?
      modifies this, b
      ensures Valid() && b == old(b) && Context() == old(Context())
      ensures View() == Ops.LowerStmt(old(Context()), old(View()), vs, s).0
      decreases s, 0
    {
      var endl := Label("if_end");
      ghost var done := LowerBranches(Context(), View(), vs, s.branches, endl);
      var rest := s.branches;
      while rest.Cons?
        invariant Valid() && b == old(b) && Context() == old(Context())
        invariant rest < s
        invariant LowerBranches(old(Context()), View(), vs, rest, endl) == done
        decreases rest
      {
        var br := rest.head;
        var c := LowerExpr(vs, br.cond);
        var thenl := Label("then");
        var elsl := Label("else");
        Put(ICondBr(c, thenl, elsl));
        OpenBlock(thenl);
        LowerBlock(vs, br.bbody);
        FallTo(endl);
        OpenBlock(elsl);
        rest := rest.tail;
      }
      LowerBlock(vs, s.orelse);
      FallTo(endl);
      OpenBlock(endl);
    }

    // A loop body with its targets on the stacks.
    method LowerLoopBody(vs: Scope, body: List<Stmt>, fin: string, again: string)
      requires Valid()
      modifies this, b
      ensures Valid() && b == old(b) && Context() == old(Context())
      ensures View() == Ops.FallTo(LowerStmts(InLoop(old(Context()), fin, again), old(View()), vs, body), again)
      decreases body, 3
    {
      brk, cont := brk + [fin], cont + [again];
      LowerBlock(vs, body);
      brk, cont := brk[..|brk| - 1], cont[..|cont| - 1];
      FallTo(again);
    }

    method LowerWhile(vs: Scope, s: Stmt)
      requires Valid() && s.SWhile?
      modifies this, b
      ensures Valid() && b == old(b) && Context() == old(Context())
      ensures View() == Ops.LowerStmt(old(Context()), old(View()), vs, s).0
      decreases s, 0
    {
      var head := Label("while_head");
      var bodyl := Label("while_body");
      var endl := Label("while_end");
      Put(IBr(head));
      OpenBlock(head);
      var c := LowerExpr(vs, s.cond);
      Put(ICondBr(c, bodyl, endl));
      OpenBlock(bodyl);
      LowerLoopBody(vs, s.body, endl, head);
      OpenBlock(endl);
    }

    method LowerLoop(vs: Scope, s: Stmt)
      requires Valid() && s.SLoop?
      modifies this, b
      ensures Valid() && b == old(b) && Context() == old(Context())
      ensures View() == Ops.LowerStmt(old(Context()), old(View()), vs, s).0
      decreases s, 0
    {
      var head := Label("loop_head");
      var endl := Label("loop_end");
      Put(IBr(head));
      OpenBlock(head);
      LowerLoopBody(vs, s.body, endl, head);
      OpenBlock(endl);
    }

    method Snapshot(v: IVal, t: IntTy) returns (s: IVal)
      requires Valid()
      modifies b
      ensures Valid() && (View(), s) == Ops.Snapshot(old(View()), v, t)
    {
      s := Temporary(IntT(t));
      Put(IBin(s.id, Bin(Add), v, ImmInt(0, t), t, false));
    }

    method LowerFornum(vs: Scope, s: Stmt)
      requires Valid() && s.SForNum?
      modifies this, b
      ensures Valid() && b == old(b) && Context() == old(Context())
      ensures View() == Ops.LowerStmt(old(Context()), old(View()), vs, s).0
      decreases s, 1
    {
      hide Ops.Loc, ForTail, Ops.LowerExpr, LowerStmts, Ops.Snapshot, UniqName, Dec, Emit;
      var t := s.ity;
      var un := Variable(s.v, IntT(t));
      var cnt := Variable(s.v + "__cnt", IntT(t));
      var a := LowerExpr(vs, s.start);
      Put(IAssign(PLocal(cnt.name), a));
      var b0 := LowerExpr(vs, s.stop);
      var stop := Snapshot(b0, t);
      var c0 := ImmInt(1, t);
      if s.stride.Some? { c0 := LowerExpr(vs, s.stride.value); }
      var step := Snapshot(c0, t);
      LowerCounted(vs, s, un, cnt, stop, step);
    }

    // The loop itself, once the bounds are in temps.
    method LowerCounted(vs: Scope, s: Stmt, un: IVal, cnt: IVal, stop: IVal, step: IVal)
      requires Valid() && s.SForNum? && un.Local? && cnt.Local?
      modifies this, b
      ensures Valid() && b == old(b) && Context() == old(Context())
      ensures View() == ForTail(old(Context()), old(View()), vs, s.v, s.ity, un, cnt, stop, step, s.body)
      decreases s, 0
    {
      hide LowerStmts, Ops.LowerExpr, ForHead, ForPost, ForIndex, Ops.FallTo, Emit;
      var t := s.ity;
      var ll := OpenHead(un, cnt, stop, t);
      var idx := PlaceIndex(s.v, un, t);
      LowerLoopBody(vs[s.v := idx], s.body, ll.fin, ll.post);
      ClosePost(ll, cnt, step, t);
    }

    // A captured index gets a fresh box.
    method PlaceIndex(x: string, un: IVal, t: IntTy) returns (idx: IVal)
      requires Valid()
      modifies b
      ensures Valid() && (View(), idx) == ForIndex(Context(), old(View()), x, t, un)
    {
      idx := un;
      if x in captured { idx := MakeBox(IntT(t), un); }
    }

    // Test the counter, and publish it as the index.
    method OpenHead(un: IVal, cnt: IVal, stop: IVal, t: IntTy) returns (ll: ForLabels)
      requires Valid() && un.Local?
      modifies b
      ensures Valid() && (View(), ll) == ForHead(old(View()), un, cnt, stop, t)
    {
      hide Dec, LabelName;
      var head := Label("for_head");
      var bodyl := Label("for_body");
      var post := Label("for_post");
      var fin := Label("for_end");
      Put(IBr(head));
      OpenBlock(head);
      var c := Temporary(BOOL);
      Put(IBin(c.id, Cmp(Lt), cnt, stop, t, false));
      Put(ICondBr(c, bodyl, fin));
      OpenBlock(bodyl);
      Put(IAssign(PLocal(un.name), cnt));
      ll := ForLabels(head, bodyl, post, fin);
    }

    // Step the counter and go round.
    method ClosePost(ll: ForLabels, cnt: IVal, step: IVal, t: IntTy)
      requires Valid() && cnt.Local?
      modifies b
      ensures Valid() && View() == ForPost(old(View()), ll, cnt, step, t)
    {
      OpenBlock(ll.post);
      var nxt := Temporary(IntT(t));
      Put(IBin(nxt.id, Bin(Add), cnt, step, t, false));
      Put(IAssign(PLocal(cnt.name), nxt));
      Put(IBr(ll.head));
      OpenBlock(ll.fin);
    }

    // ----- functions -----

    method LowerFunc(d: FuncDecl)
      requires Valid() && !chk && brk == [] && cont == [] && !refused
      modifies this
      ensures Valid() && fresh(b) && !chk && brk == [] && cont == [] && !refused
      ensures (lamn, funcs) == Ops.LowerFunc(mod, old(lamn), old(funcs), d)
    {
      hide Ops.BindParams, Ops.Finish, Emit, Mangle;
      FuncBodyAccepted(mod, lamn, funcs, d);
      b := new FuncBuilder(Mangle(mod, d.name), IrParams(d.params));
      uq := 0;
      captured := CapturedSs(d.body);
      var vs := BindParams(d.params, map[]);
      LowerBlock(vs, d.body);
      Finish(d.ret);
      funcs := funcs + [b.View().fn];
    }

    // No module is refused.
    method LowerModule(ds: List<FuncDecl>)
      requires Valid() && !chk && brk == [] && cont == [] && !refused
      modifies this
      ensures Valid() && !refused
      ensures (lamn, funcs) == Ops.LowerModule(mod, old(lamn), old(funcs), ds)
    {
      var rest := ds;
      while rest.Cons?
        invariant Valid() && !chk && brk == [] && cont == [] && !refused
        invariant Ops.LowerModule(mod, lamn, funcs, rest) == Ops.LowerModule(mod, old(lamn), old(funcs), ds)
        decreases rest
      {
        LowerFunc(rest.head);
        rest := rest.tail;
      }
    }
  }
}
