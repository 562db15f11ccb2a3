// The FuncBuilder of compiler/ir.cardinal as the object its helpers mutate; each
// method is proved against the operation of the same name on values.
module Builders {
  import opened Syntax
  import opened Ir
  import Ops = Ir

  class FuncBuilder {
    const name: string
    const params: List<IRParam>
    var blocks: seq<Block>
    var temps: seq<IVal>
    var locals: seq<IRParam>
    var tc: nat
    var bc: nat
    var cur: nat

    predicate Valid() reads this { |blocks| > 0 && cur == |blocks| - 1 }

    function View(): Builder
      reads this
      requires Valid()
    {
      BuilderState(IRFunc(name, params, blocks, temps, locals), tc, bc, cur)
    }

    constructor (name: string, params: List<IRParam>)
      ensures Valid() && View() == NewBuilder(name, params)
    {
      this.name, this.params := name, params;
      blocks, temps, locals := [Block("entry", [])], [], [];
      tc, bc, cur := 0, 0, 0;
    }

    method FreshTemp(ty: IRType) returns (v: IVal)
      requires Valid()
      modifies this
      ensures Valid() && (View(), v) == Ops.FreshTemp(old(View()), ty)
    {
      v := Temp(tc, ty);
      temps := temps + [v];
      tc := tc + 1;
    }

    method AddLocal(name: string, ty: IRType) returns (v: IVal)
      requires Valid()
      modifies this
      ensures Valid() && (View(), v) == Ops.AddLocal(old(View()), name, ty)
    {
      locals := locals + [IRParam(name, ty)];
      v := Local(name, ty);
    }

    method FreshLabel(hint: string) returns (l: string)
      requires Valid()
      modifies this
      ensures Valid() && (View(), l) == Ops.FreshLabel(old(View()), hint)
    {
      bc := bc + 1;
      l := LabelName(hint, bc);
    }

    method NewBlock(l: string)
      requires Valid()
      modifies this
      ensures Valid() && View() == Ops.NewBlock(old(View()), l)
    {
      blocks := blocks + [Block(l, [])];
      cur := |blocks| - 1;
    }

    method CurTerminated() returns (r: bool)
      requires Valid()
      ensures r == Ops.CurTerminated(View())
    {
      var instrs := blocks[cur].instrs;
      r := |instrs| > 0 && IsTerminator(instrs[|instrs| - 1]);
    }

    method Emit(i: Instr)
      requires Valid()
      modifies this
      ensures Valid() && View() == Ops.Emit(old(View()), i)
    {
      var t := CurTerminated();
      if t {
        var l := FreshLabel("dead");
        NewBlock(l);
      }
      blocks := blocks[cur := Block(blocks[cur].lbl, blocks[cur].instrs + [i])];
    }
  }
}
