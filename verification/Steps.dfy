// Single machine steps at the position a lowering state stands for.
module Steps {
  import opened Numeric
  import opened Syntax
  import opened Ir
  import opened Lowering
  import opened Machine
  import opened Growth
  import opened Relation

  function HereFrame(k: Act, b: Builder, rg: Regs): Frame {
    Frame(k.f, b.cur, |b.Here().instrs|, rg, k.dst)
  }

  // The instruction put next is the one the machine executes next.
  lemma Fetch(k: Act, ls: LS, i: Instr, rg: Regs, heap: seq<HObj>)
    requires !CurTerminated(ls.b) && CodeIn(Put(ls, i).b, k.f)
    ensures Step(k.code.ir, At(k, ls.b, rg, heap)) == Exec(k.code.ir, i, HereFrame(k, ls.b, rg), k.rest, heap)
    ensures forall rg2, heap2 :: At(k, Put(ls, i).b, rg2, heap2) == Run(Next(HereFrame(k, ls.b, rg), rg2), k.rest, heap2)
    ensures CurTerminated(Put(ls, i).b) <==> IsTerminator(i)
  {
    var b2 := Put(ls, i).b;
    assert b2.fn.blocks[b2.cur].instrs == ls.b.Here().instrs + [i];
    assert k.f.blocks[b2.cur].lbl == b2.fn.blocks[b2.cur].lbl;
  }

  lemma {:induction false} FindUnique(blocks: seq<Block>, l: string, from: nat, i: nat)
    requires from <= i < |blocks| && blocks[i].lbl == l
    requires forall j :: from <= j < i ==> blocks[j].lbl != l
    ensures FindLabel(blocks, l, from) == Some(i)
    decreases i - from
  {
    if from < i { FindUnique(blocks, l, from + 1, i); }
  }

  // A jump to the label of a block opened by the lowering arrives at its start.
  lemma LabelHere(k: Act, ls: LS, l: string, rg: Regs, heap: seq<HObj>)
    requires CodeIn(Block0(ls, l).b, k.f) && DistinctLabels(k.f)
    ensures AtLabel(k, l, rg, heap) == At(k, Block0(ls, l).b, rg, heap)
    ensures !CurTerminated(Block0(ls, l).b)
  {
    var b := Block0(ls, l).b;
    assert k.f.blocks[b.cur].lbl == b.fn.blocks[b.cur].lbl == l;
    FindUnique(k.f.blocks, l, 0, b.cur);
  }

  lemma JumpIsLabel(k: Act, fr: Frame, l: string, rg: Regs, heap: seq<HObj>)
    requires fr.fn == k.f && fr.dst == k.dst && fr.rg == rg
    ensures Jump(fr, l, k.rest, heap) == AtLabel(k, l, rg, heap)
  {
  }

  lemma Chain(q: IRProgram, a: Conf, n: nat, b: Conf, m: nat)
    requires StepN(q, a, n) == b
    ensures StepN(q, a, n + m) == StepN(q, b, m)
  {
    StepsCompose(q, a, n, m);
  }

  lemma NoSteps(q: IRProgram, a: Conf)
    ensures StepN(q, a, 0) == a
  {
  }

  lemma OneMore(q: IRProgram, a: Conf, n: nat, b: Conf)
    requires StepN(q, a, n) == b
    ensures StepN(q, a, n + 1) == Step(q, b)
  {
    StepsCompose(q, a, n, 1);
    assert StepN(q, Step(q, b), 0) == Step(q, b);
  }
}
