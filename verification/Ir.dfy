// The block IR (compiler/ir.cardinal): instructions, the function builder as a
// value with its operations.
module Ir {
  import opened Numeric
  import opened Syntax

  datatype IRType = TyOf(t: Ty) | Ptr(p: IRType) | VoidPtr

  datatype IVal =
    | Temp(id: nat, ty: IRType)
    | Local(name: string, ty: IRType)
    | ImmInt(val: int, ity: IntTy)
    | ImmBool(b: bool)
    | ImmUnit
    | ImmNull

  datatype IPlace = PLocal(name: string) | PDeref(ptr: IVal)

  datatype UnOp = LNot | BNot | Neg

  datatype Instr =
    | IBin(dst: nat, op: Op, lhs: IVal, rhs: IVal, ty: IntTy, chk: bool)
    | IUn(dst: nat, uop: UnOp, arg: IVal, uty: IntTy, uchk: bool)
    | ICast(dst: nat, arg: IVal, toty: IntTy)
    | IAssign(place: IPlace, src: IVal)
    | ICall(res: Option<nat>, callee: string, args: seq<IVal>)
    | IAlloc(dst: nat)
    | ILoad(dst: nat, ptr: IVal)
    | IEnvNew(dst: nat, n: nat)
    | IEnvStore(env: IVal, idx: nat, ptr: IVal)
    | IEnvLoad(dst: nat, env: IVal, idx: nat)
    | IMakeClosure(dst: nat, fn: string, env: IVal)
    | ICallClosure(res: Option<nat>, clos: IVal, args: seq<IVal>)
    | IBr(target: string)
    | ICondBr(cond: IVal, thenL: string, elseL: string)
    | IRet(val: IVal)
    | IPanic

  predicate IsTerminator(i: Instr) { i.IBr? || i.ICondBr? || i.IRet? || i.IPanic? }

  datatype Block = Block(lbl: string, instrs: seq<Instr>)

  datatype IRParam = IRParam(name: string, ty: IRType)

  datatype IRFunc = IRFunc(name: string, params: List<IRParam>, blocks: seq<Block>,
                           temps: seq<IVal>, locals: seq<IRParam>)

  // ----- FuncBuilder, as a value -----

  datatype BuilderState = BuilderState(fn: IRFunc, tc: nat, bc: nat, cur: nat) {
    predicate Wf() { |fn.blocks| > 0 && cur == |fn.blocks| - 1 }
    function Here(): Block requires Wf() { fn.blocks[cur] }
  }

  type Builder = b: BuilderState | b.Wf()
    witness BuilderState(IRFunc("", Nil, [Block("entry", [])], [], []), 0, 0, 0)

  function NewBuilder(name: string, params: List<IRParam>): Builder {
    BuilderState(IRFunc(name, params, [Block("entry", [])], [], []), 0, 0, 0)
  }

  function NewBlock(b: Builder, l: string): Builder {
    b.(fn := b.fn.(blocks := b.fn.blocks + [Block(l, [])]), cur := |b.fn.blocks|)
  }

  predicate CurTerminated(b: Builder) {
    |b.Here().instrs| > 0 && IsTerminator(b.Here().instrs[|b.Here().instrs| - 1])
  }

  // hint ++ decimal counter.
  function LabelName(hint: string, n: nat): string { hint + Dec(n) }

  function FreshLabel(b: Builder, hint: string): (Builder, string) {
    (b.(bc := b.bc + 1), LabelName(hint, b.bc + 1))
  }

  function FreshTemp(b: Builder, ty: IRType): (Builder, IVal) {
    (b.(tc := b.tc + 1, fn := b.fn.(temps := b.fn.temps + [Temp(b.tc, ty)])), Temp(b.tc, ty))
  }

  function AddLocal(b: Builder, name: string, ty: IRType): (Builder, IVal) {
    (b.(fn := b.fn.(locals := b.fn.locals + [IRParam(name, ty)])), Local(name, ty))
  }

  function Append(b: Builder, i: Instr): Builder {
    b.(fn := b.fn.(blocks := b.fn.blocks[b.cur := Block(b.Here().lbl, b.Here().instrs + [i])]))
  }

  // A terminated block is left behind: the instruction starts a dead block.
  function Emit(b: Builder, i: Instr): Builder {
    if CurTerminated(b) then
      var (b1, l) := FreshLabel(b, "dead");
      Append(NewBlock(b1, l), i)
    else Append(b, i)
  }
}
