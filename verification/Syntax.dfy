// The source language fragment: sized integers, booleans, structured control
// flow, lexical `checked`, and closures that capture by reference. Types the
// checker would supply sit on the nodes the lowering asks it about.
module Syntax {
  import opened Numeric

  datatype List<+T> = Nil | Cons(head: T, tail: List<T>)

  function Length<T>(xs: List<T>): nat {
    match xs
    case Nil => 0
    case Cons(_, tail) => 1 + Length(tail)
  }

  datatype Ty = TInt(it: IntTy) | TBool | TUnit | TFunc(params: List<Ty>, ret: Ty)

  datatype Op = And | Or | Not | Bnot | Cmp(c: CmpOp) | Bin(b: BinOp)

  datatype Param = Param(name: string, ty: Ty)

  // EOp carries the integer type the checker gives its result; ECall the
  // callee's return type. EPanic is a call of the builtin `panic`.
  datatype Expr =
    | EInt(value: int, ity: IntTy)
    | EBool(b: bool)
    | EName(x: string)
    | EOp(op: Op, args: List<Expr>, oty: IntTy)
    | ECast(e: Expr, cty: IntTy)
    | ECall(callee: Expr, cargs: List<Expr>, rty: Ty)
    | EFunc(params: List<Param>, ret: Ty, fbody: List<Stmt>)
    | EPanic

  datatype Branch = Branch(cond: Expr, bbody: List<Stmt>)

  // A missing else is an empty one; a missing step is None. `lty` and `ity` are
  // the checker's types for the binding and the loop index.
  datatype Stmt =
    | SLet(name: string, lty: Ty, init: Expr, mutable: bool)
    | SSet(target: string, rhs: Expr)
    | SDo(e: Expr)
    | SIf(branches: List<Branch>, orelse: List<Stmt>)
    | SWhile(cond: Expr, body: List<Stmt>)
    | SForNum(v: string, ity: IntTy, start: Expr, stop: Expr, stride: Option<Expr>, body: List<Stmt>)
    | SLoop(body: List<Stmt>)
    | SBreak
    | SContinue
    | SPass
    | SReturn(value: Expr)
    | SReturnNone
    | SChecked(body: List<Stmt>)

  datatype FuncDecl = FuncDecl(name: string, params: List<Param>, ret: Ty, body: List<Stmt>)

  function ParamNames(ps: List<Param>): set<string> {
    match ps
    case Nil => {}
    case Cons(p, rest) => {p.name} + ParamNames(rest)
  }

  function ParamTypes(ps: List<Param>): List<Ty> {
    match ps
    case Nil => Nil
    case Cons(p, rest) => Cons(p.ty, ParamTypes(rest))
  }

  predicate DistinctParams(ps: List<Param>) {
    match ps
    case Nil => true
    case Cons(p, rest) => p.name !in ParamNames(rest) && DistinctParams(rest)
  }

  // ----- free-variable analysis (fv_*, lambda_free, compute_captured) -----

  // Names an expression reads that are not in `bound`.
  function FreeE(e: Expr, bound: set<string>): set<string>
    decreases e
  {
    match e
    case EName(x) => if x in bound then {} else {x}
    case EOp(_, args, _) => FreeEs(args, bound)
    case ECast(e1, _) => FreeE(e1, bound)
    case ECall(callee, args, _) => FreeE(callee, bound) + FreeEs(args, bound)
    case EFunc(params, _, body) => FreeSs(body, ParamNames(params)) - bound
    case _ => {}
  }

  function FreeEs(es: List<Expr>, bound: set<string>): set<string>
    decreases es
  {
    match es
    case Nil => {}
    case Cons(e, rest) => FreeE(e, bound) + FreeEs(rest, bound)
  }

  // A block: a let binds for the statements after it.
  function FreeSs(ss: List<Stmt>, bound: set<string>): set<string>
    decreases ss
  {
    match ss
    case Nil => {}
    case Cons(s, rest) => FreeS(s, bound) + FreeSs(rest, if s.SLet? then bound + {s.name} else bound)
  }

  function FreeS(s: Stmt, bound: set<string>): set<string>
    decreases s
  {
    match s
    case SLet(_, _, init, _) => FreeE(init, bound)
    case SSet(x, rhs) => (if x in bound then {} else {x}) + FreeE(rhs, bound)
    case SDo(e) => FreeE(e, bound)
    case SIf(branches, orelse) => FreeBs(branches, bound) + FreeSs(orelse, bound)
    case SWhile(cond, body) => FreeE(cond, bound) + FreeSs(body, bound)
    case SForNum(v, _, start, stop, stride, body) =>
      FreeE(start, bound) + FreeE(stop, bound)
      + (if stride.Some? then FreeE(stride.value, bound) else {})
      + FreeSs(body, bound + {v})
    case SLoop(body) => FreeSs(body, bound)
    case SReturn(e) => FreeE(e, bound)
    case SChecked(body) => FreeSs(body, bound)
    case _ => {}
  }

  function FreeBs(bs: List<Branch>, bound: set<string>): set<string>
    decreases bs
  {
    match bs
    case Nil => {}
    case Cons(b, rest) => FreeE(b.cond, bound) + FreeSs(b.bbody, bound) + FreeBs(rest, bound)
  }

  // Names a function literal uses but does not bind.
  function LambdaFree(params: List<Param>, body: List<Stmt>): set<string> {
    FreeSs(body, ParamNames(params))
  }

  // Union of the free names of the direct (not nested) function literals.
  function CapturedE(e: Expr): set<string>
    decreases e
  {
    match e
    case EOp(_, args, _) => CapturedEs(args)
    case ECast(e1, _) => CapturedE(e1)
    case ECall(callee, args, _) => CapturedE(callee) + CapturedEs(args)
    case EFunc(params, _, body) => LambdaFree(params, body)
    case _ => {}
  }

  function CapturedEs(es: List<Expr>): set<string>
    decreases es
  {
    match es
    case Nil => {}
    case Cons(e, rest) => CapturedE(e) + CapturedEs(rest)
  }

  function CapturedSs(ss: List<Stmt>): set<string>
    decreases ss
  {
    match ss
    case Nil => {}
    case Cons(s, rest) => CapturedS(s) + CapturedSs(rest)
  }

  function CapturedS(s: Stmt): set<string>
    decreases s
  {
    match s
    case SLet(_, _, init, _) => CapturedE(init)
    case SSet(_, rhs) => CapturedE(rhs)
    case SDo(e) => CapturedE(e)
    case SIf(branches, orelse) => CapturedBs(branches) + CapturedSs(orelse)
    case SWhile(cond, body) => CapturedE(cond) + CapturedSs(body)
    case SForNum(_, _, start, stop, stride, body) =>
      CapturedE(start) + CapturedE(stop)
      + (if stride.Some? then CapturedE(stride.value) else {})
      + CapturedSs(body)
    case SLoop(body) => CapturedSs(body)
    case SReturn(e) => CapturedE(e)
    case SChecked(body) => CapturedSs(body)
    case _ => {}
  }

  function CapturedBs(bs: List<Branch>): set<string>
    decreases bs
  {
    match bs
    case Nil => {}
    case Cons(b, rest) => CapturedE(b.cond) + CapturedSs(b.bbody) + CapturedBs(rest)
  }

  // Names the lets of a block declare at its top level.
  function Decls(ss: List<Stmt>): set<string> {
    match ss
    case Nil => {}
    case Cons(s, rest) => (if s.SLet? then {s.name} else {}) + Decls(rest)
  }

  // ----- the fragment the lowering theorem covers -----

  // `globals` are the module's functions, `sc` the names in scope, `chk` whether
  // the code is lexically inside `checked`, `loop` whether it is inside a loop of
  // the same function. Every condition is a syntactic one:
  //  - names are declared before use, and locals do not shadow module functions;
  //  - and/or have an argument, a comparison two, and only + - * are n-ary;
  //  - `checked` covers two-operand + - * and no function literal;
  //  - break and continue stay inside a loop of their function;
  //  - a block does not declare a name that an earlier (or the same) statement of
  //    it mentions inside a function literal.
  predicate OkE(globals: set<string>, sc: set<string>, chk: bool, e: Expr)
    decreases e
  {
    match e
    case EInt(v, t) => t.Holds(v)
    case EBool(_) => true
    case EName(x) => x in sc
    case EOp(op, args, _) => OkShape(chk, op, args) && OkEs(globals, sc, chk, args)
    case ECast(e1, _) => !chk && OkE(globals, sc, chk, e1)
    case ECall(callee, args, _) =>
      && ((callee.EName? && callee.x !in sc && callee.x in globals) || OkE(globals, sc, chk, callee))
      && OkEs(globals, sc, chk, args)
    case EFunc(params, ret, body) =>
      && !chk
      && DistinctParams(params)
      && OkParams(globals, params)
      && OkSs(globals, sc + ParamNames(params), false, false, body)
    case EPanic => true
  }

  predicate OkShape(chk: bool, op: Op, args: List<Expr>) {
    match op
    case And => args.Cons?
    case Or => args.Cons?
    case Not => Length(args) == 1
    case Bnot => !chk && Length(args) == 1
    case Cmp(_) => Length(args) == 2
    case Bin(b) =>
      if chk then b.Ring() && Length(args) == 2
      else if b.Ring() then args.Cons?
      else Length(args) == 2
  }

  // Parameters are not module functions and not of the shape uniq mints.
  predicate OkParams(globals: set<string>, ps: List<Param>) {
    match ps
    case Nil => true
    case Cons(p, rest) => p.name !in globals && p.name != "__env" && Stamp(p.name) == 0 && OkParams(globals, rest)
  }

  predicate OkEs(globals: set<string>, sc: set<string>, chk: bool, es: List<Expr>)
    decreases es
  {
    match es
    case Nil => true
    case Cons(e, rest) => OkE(globals, sc, chk, e) && OkEs(globals, sc, chk, rest)
  }

  predicate OkSs(globals: set<string>, sc: set<string>, chk: bool, loop: bool, ss: List<Stmt>)
    decreases ss
  {
    match ss
    case Nil => true
    case Cons(s, rest) =>
      && OkS(globals, sc, chk, loop, s)
      && CapturedS(s) !! Decls(ss)
      && OkSs(globals, if s.SLet? then sc + {s.name} else sc, chk, loop, rest)
  }

  predicate OkS(globals: set<string>, sc: set<string>, chk: bool, loop: bool, s: Stmt)
    decreases s
  {
    match s
    case SLet(x, _, init, _) => x !in globals && OkE(globals, sc, chk, init)
    case SSet(x, rhs) => x in sc && OkE(globals, sc, chk, rhs)
    case SDo(e) => OkE(globals, sc, chk, e)
    case SIf(branches, orelse) => OkBs(globals, sc, chk, loop, branches) && OkSs(globals, sc, chk, loop, orelse)
    case SWhile(cond, body) => OkE(globals, sc, chk, cond) && OkSs(globals, sc, chk, true, body)
    case SForNum(v, _, start, stop, stride, body) =>
      && v !in globals
      && OkE(globals, sc, chk, start) && OkE(globals, sc, chk, stop)
      && (stride.Some? ==> OkE(globals, sc, chk, stride.value))
      && OkSs(globals, sc + {v}, chk, true, body)
    case SLoop(body) => OkSs(globals, sc, chk, true, body)
    case SBreak => loop
    case SContinue => loop
    case SReturn(e) => OkE(globals, sc, chk, e)
    case SChecked(body) => OkSs(globals, sc, true, loop, body)
    case _ => true
  }

  predicate OkBs(globals: set<string>, sc: set<string>, chk: bool, loop: bool, bs: List<Branch>)
    decreases bs
  {
    match bs
    case Nil => true
    case Cons(b, rest) =>
      && OkE(globals, sc, chk, b.cond) && OkSs(globals, sc, chk, loop, b.bbody)
      && OkBs(globals, sc, chk, loop, rest)
  }

  // ----- decimal strings and the stamps of minted names -----

  function Digit(d: nat): (c: char)
    requires d < 10
    ensures IsDigit(c)
  {
    "0123456789"[d]
  }

  predicate IsDigit(c: char) { '0' <= c <= '9' }

  // int_to_str of a non-negative number.
  function Dec(n: nat): string {
    if n < 10 then [Digit(n)] else Dec(n / 10) + [Digit(n % 10)]
  }

  // The number a string's trailing digits spell, 0 if it has none.
  function TrailNum(s: string): nat {
    if s == [] || !IsDigit(s[|s| - 1]) then 0
    else 10 * TrailNum(s[..|s| - 1]) + (s[|s| - 1] as int - '0' as int)
  }

  // What is left when the trailing digits are dropped.
  function TrailRest(s: string): (r: string)
    ensures |r| <= |s|
  {
    if s == [] || !IsDigit(s[|s| - 1]) then s else TrailRest(s[..|s| - 1])
  }

  // The counter of a name of the shape base_n, 0 for any other name.
  function Stamp(s: string): nat {
    var r := TrailRest(s);
    if r != [] && r[|r| - 1] == '_' then TrailNum(s) else 0
  }
}
