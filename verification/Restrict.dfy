// Facts about the free-variable analysis that closure conversion rests on.
module Restrict {
  import opened Syntax

  // Binding more names only removes those names from the free ones.
  lemma {:induction false} FreeBoundSs(ss: List<Stmt>, b1: set<string>, b2: set<string>)
    ensures FreeSs(ss, b1 + b2) == FreeSs(ss, b1) - b2
    decreases ss, 0
  {
    match ss
    case Nil =>
    case Cons(s, rest) =>
      FreeBoundS(s, b1, b2);
      if s.SLet? {
        FreeBoundSs(rest, b1 + {s.name}, b2);
        assert b1 + b2 + {s.name} == b1 + {s.name} + b2;
      } else {
        FreeBoundSs(rest, b1, b2);
      }
  }

  lemma {:induction false} FreeBoundS(s: Stmt, b1: set<string>, b2: set<string>)
    ensures FreeS(s, b1 + b2) == FreeS(s, b1) - b2
    decreases s, 0
  {
    match s
    case SLet(_, _, init, _) => FreeBoundE(init, b1, b2);
    case SSet(_, rhs) => FreeBoundE(rhs, b1, b2);
    case SDo(e) => FreeBoundE(e, b1, b2);
    case SIf(branches, orelse) =>
      FreeBoundBs(branches, b1, b2);
      FreeBoundSs(orelse, b1, b2);
    case SWhile(cond, body) =>
      FreeBoundE(cond, b1, b2);
      FreeBoundSs(body, b1, b2);
    case SForNum(v, _, start, stop, stride, body) =>
      FreeBoundE(start, b1, b2);
      FreeBoundE(stop, b1, b2);
      if stride.Some? { FreeBoundE(stride.value, b1, b2); }
      FreeBoundSs(body, b1 + {v}, b2);
      assert b1 + b2 + {v} == b1 + {v} + b2;
    case SLoop(body) => FreeBoundSs(body, b1, b2);
    case SReturn(e) => FreeBoundE(e, b1, b2);
    case SChecked(body) => FreeBoundSs(body, b1, b2);
    case _ =>
  }

  lemma {:induction false} FreeBoundBs(bs: List<Branch>, b1: set<string>, b2: set<string>)
    ensures FreeBs(bs, b1 + b2) == FreeBs(bs, b1) - b2
    decreases bs, 0
  {
    match bs
    case Nil =>
    case Cons(b, rest) =>
      FreeBoundE(b.cond, b1, b2);
      FreeBoundSs(b.bbody, b1, b2);
      FreeBoundBs(rest, b1, b2);
  }

  lemma {:induction false} FreeBoundE(e: Expr, b1: set<string>, b2: set<string>)
    ensures FreeE(e, b1 + b2) == FreeE(e, b1) - b2
    decreases e, 0
  {
    match e
    case EOp(_, args, _) => FreeBoundEs(args, b1, b2);
    case ECast(e1, _) => FreeBoundE(e1, b1, b2);
    case ECall(callee, args, _) =>
      FreeBoundE(callee, b1, b2);
      FreeBoundEs(args, b1, b2);
    case _ =>
  }

  lemma {:induction false} FreeBoundEs(es: List<Expr>, b1: set<string>, b2: set<string>)
    ensures FreeEs(es, b1 + b2) == FreeEs(es, b1) - b2
    decreases es, 0
  {
    match es
    case Nil =>
    case Cons(e, rest) =>
      FreeBoundE(e, b1, b2);
      FreeBoundEs(rest, b1, b2);
  }

  lemma LambdaFreeDisjoint(params: List<Param>, body: List<Stmt>)
    ensures LambdaFree(params, body) !! ParamNames(params)
  {
    FreeBoundSs(body, {}, ParamNames(params));
    assert {} + ParamNames(params) == ParamNames(params);
  }

  // Code that is fine in a scope is fine in any smaller scope that still holds
  // the bound names and every free name the larger scope resolved.
  ghost predicate Enough(sc: set<string>, sc2: set<string>, bound: set<string>, free: set<string>) {
    sc2 <= sc && bound <= sc2 && free * sc <= sc2
  }

  lemma {:induction false} RestrictSs(g: set<string>, sc: set<string>, sc2: set<string>, bound: set<string>,
                                      chk: bool, loop: bool, ss: List<Stmt>)
    requires OkSs(g, sc, chk, loop, ss) && Enough(sc, sc2, bound, FreeSs(ss, bound))
    ensures OkSs(g, sc2, chk, loop, ss)
    decreases ss, 0
  {
    match ss
    case Nil =>
    case Cons(s, rest) =>
      RestrictS(g, sc, sc2, bound, chk, loop, s);
      if s.SLet? {
        RestrictSs(g, sc + {s.name}, sc2 + {s.name}, bound + {s.name}, chk, loop, rest);
      } else {
        RestrictSs(g, sc, sc2, bound, chk, loop, rest);
      }
  }

  lemma {:induction false} RestrictS(g: set<string>, sc: set<string>, sc2: set<string>, bound: set<string>,
                                     chk: bool, loop: bool, s: Stmt)
    requires OkS(g, sc, chk, loop, s) && Enough(sc, sc2, bound, FreeS(s, bound))
    ensures OkS(g, sc2, chk, loop, s)
    decreases s, 0
  {
    match s
    case SLet(_, _, init, _) => RestrictE(g, sc, sc2, bound, chk, init);
    case SSet(x, rhs) => RestrictE(g, sc, sc2, bound, chk, rhs);
    case SDo(e) => RestrictE(g, sc, sc2, bound, chk, e);
    case SIf(branches, orelse) =>
      RestrictBs(g, sc, sc2, bound, chk, loop, branches);
      RestrictSs(g, sc, sc2, bound, chk, loop, orelse);
    case SWhile(cond, body) =>
      RestrictE(g, sc, sc2, bound, chk, cond);
      RestrictSs(g, sc, sc2, bound, chk, true, body);
    case SForNum(v, _, start, stop, stride, body) =>
      RestrictE(g, sc, sc2, bound, chk, start);
      RestrictE(g, sc, sc2, bound, chk, stop);
      if stride.Some? { RestrictE(g, sc, sc2, bound, chk, stride.value); }
      RestrictSs(g, sc + {v}, sc2 + {v}, bound + {v}, chk, true, body);
    case SLoop(body) => RestrictSs(g, sc, sc2, bound, chk, true, body);
    case SReturn(e) => RestrictE(g, sc, sc2, bound, chk, e);
    case SChecked(body) => RestrictSs(g, sc, sc2, bound, true, loop, body);
    case _ =>
  }

  lemma {:induction false} RestrictBs(g: set<string>, sc: set<string>, sc2: set<string>, bound: set<string>,
                                      chk: bool, loop: bool, bs: List<Branch>)
    requires OkBs(g, sc, chk, loop, bs) && Enough(sc, sc2, bound, FreeBs(bs, bound))
    ensures OkBs(g, sc2, chk, loop, bs)
    decreases bs, 0
  {
    match bs
    case Nil =>
    case Cons(b, rest) =>
      RestrictE(g, sc, sc2, bound, chk, b.cond);
      RestrictSs(g, sc, sc2, bound, chk, loop, b.bbody);
      RestrictBs(g, sc, sc2, bound, chk, loop, rest);
  }

  lemma {:induction false} RestrictE(g: set<string>, sc: set<string>, sc2: set<string>, bound: set<string>,
                                     chk: bool, e: Expr)
    requires OkE(g, sc, chk, e) && Enough(sc, sc2, bound, FreeE(e, bound))
    ensures OkE(g, sc2, chk, e)
    decreases e, 0
  {
    match e
    case EOp(_, args, _) => RestrictEs(g, sc, sc2, bound, chk, args);
    case ECast(e1, _) => RestrictE(g, sc, sc2, bound, chk, e1);
    case ECall(callee, args, _) =>
      if OkE(g, sc, chk, callee) { RestrictE(g, sc, sc2, bound, chk, callee); }
      RestrictEs(g, sc, sc2, bound, chk, args);
    case EFunc(params, _, body) =>
      var p := ParamNames(params);
      FreeBoundSs(body, p, bound);
      RestrictSs(g, sc + p, sc2 + p, p + bound, false, false, body);
    case _ =>
  }

  lemma {:induction false} RestrictEs(g: set<string>, sc: set<string>, sc2: set<string>, bound: set<string>,
                                      chk: bool, es: List<Expr>)
    requires OkEs(g, sc, chk, es) && Enough(sc, sc2, bound, FreeEs(es, bound))
    ensures OkEs(g, sc2, chk, es)
    decreases es, 0
  {
    match es
    case Nil =>
    case Cons(e, rest) =>
      RestrictE(g, sc, sc2, bound, chk, e);
      RestrictEs(g, sc, sc2, bound, chk, rest);
  }

  // A lifted body needs no more of its surroundings than the names captured:
  // every name it uses is one of its parameters, its own, or in the captured set.
  lemma LambdaScopeSuffices(g: set<string>, sc: set<string>, params: List<Param>, body: List<Stmt>)
    requires OkSs(g, sc + ParamNames(params), false, false, body)
    ensures OkSs(g, LambdaFree(params, body) * sc + ParamNames(params), false, false, body)
  {
    var p := ParamNames(params);
    RestrictSs(g, sc + p, LambdaFree(params, body) * sc + p, p, false, false, body);
  }
}
