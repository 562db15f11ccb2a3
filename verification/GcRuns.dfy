// Runs of the collector: any sequence of allocations, collections, stores and
// root operations.
module GcRuns {
  import opened Handles
  import opened GcModel
  import opened GcProps

  // What the program and its runtime can ask for. A root's memory changes when
  // the frame that owns it stores there.
  datatype Op =
    | OAlloc(size: nat)
    | OCollect
    | OWrite(h: Word, k: nat, w: Word)
    | OPushRoot(words: seq<Word>)
    | OPopRoots(n: nat)
    | OSetRoot(r: nat, words: seq<Word>)
    | OPin(words: seq<Word>)
    | OSetPin(r: nat, words: seq<Word>)
    | OSetThreshold(bytes: nat)

  function WriteWord(g: Gc, i: nat, k: nat, w: Word): Gc
    requires i < |g.table| && k < |g.table[i].words|
  {
    g.(table := g.table[i := g.table[i].(words := g.table[i].words[k := w])])
  }

  // An operation that is not allowed (a stale handle, an empty stack, a full
  // table) is a panic, after which there is nothing more to say: no step.
  ghost predicate Enabled(g: Gc, op: Op) {
    match op
    case OAlloc(_) => Roomy(g)
    case OWrite(h, k, _) => var d := DerefOf(g, h); d.Object? && d.i < |g.table| && k < |g.table[d.i].words|
    case OPopRoots(n) => n <= |g.roots|
    case OSetRoot(r, _) => r < |g.roots|
    case OSetPin(r, _) => r < |g.pins|
    case _ => true
  }

  ghost function Step(g: Gc, op: Op): Gc
    requires Inv(g)
  {
    if !Enabled(g, op) then g
    else
      match op
      case OAlloc(size) => AllocInv(g, size); Alloc(g, size).0
      case OCollect => Collect(g)
      case OWrite(h, k, w) => WriteWord(g, DerefOf(g, h).i, k, w)
      case OPushRoot(words) => g.(roots := g.roots + [words])
      case OPopRoots(n) => g.(roots := g.roots[..|g.roots| - n])
      case OSetRoot(r, words) => g.(roots := g.roots[r := words])
      case OPin(words) => g.(pins := g.pins + [words])
      case OSetPin(r, words) => g.(pins := g.pins[r := words])
      case OSetThreshold(bytes) => g.(threshold := bytes, floor := bytes)
  }

  lemma WriteInv(g: Gc, i: nat, k: nat, w: Word)
    requires Inv(g) && i < |g.table| && k < |g.table[i].words|
    ensures Inv(WriteWord(g, i, k, w))
  {
    var t := WriteWord(g, i, k, w).table;
    CountSame(g.table, t, |t|);
    forall j | 0 <= j < |t| ensures SlotOk(t[j]) { assert SlotOk(g.table[j]); }
  }

  lemma StepInv(g: Gc, op: Op)
    requires Inv(g)
    ensures Inv(Step(g, op))
  {
    if Enabled(g, op) {
      match op
      case OAlloc(size) => AllocInv(g, size);
      case OCollect => CollectInv(g);
      case OWrite(h, k, w) => WriteInv(g, DerefOf(g, h).i, k, w);
      case _ =>
    }
  }

  lemma StartInv(threshold: nat)
    ensures Inv(Start(threshold))
  {
  }

  ghost function Run(g: Gc, ops: seq<Op>): (r: Gc)
    requires Inv(g)
    ensures Inv(r)
    decreases |ops|
  {
    if ops == [] then g
    else
      var r := Run(g, ops[..|ops| - 1]);
      StepInv(r, ops[|ops| - 1]);
      Step(r, ops[|ops| - 1])
  }

  // At every moment of every run: the free stack is exactly the unused slots
  // above 0, each once; the counters are the sums over the used slots; and no two
  // live objects have the same handle.
  lemma RunsAreSound(threshold: nat, ops: seq<Op>)
    ensures Inv(Start(threshold))
    ensures var g := Run(Start(threshold), ops);
            && Distinct(g.free) && (forall i :: i in g.free <==> 0 < i < |g.table| && !g.table[i].used)
            && g.live == CountUsed(g.table, |g.table|) && g.bytes == BytesUsed(g.table, |g.table|)
            && forall i: nat, j: nat :: i < |g.table| && j < |g.table| && i != j && g.table[i].used && g.table[j].used ==>
                 MkHandle(g.table[i].gen, i) != MkHandle(g.table[j].gen, j)
  {
    StartInv(threshold);
    var g := Run(Start(threshold), ops);
    forall i: nat, j: nat | i < |g.table| && j < |g.table| && i != j && g.table[i].used && g.table[j].used
      ensures MkHandle(g.table[i].gen, i) != MkHandle(g.table[j].gen, j)
    {
      LiveHandlesDiffer(g, i, j);
    }
  }

  // ----- stale handles -----

  ghost predicate Collects(g: Gc, op: Op) { op.OCollect? || (op.OAlloc? && Roomy(g) && g.since > g.threshold) }

  // Whether an operation frees slot i.
  ghost function Freed(g: Gc, op: Op, i: nat): nat
    requires Inv(g)
  {
    if Collects(g, op) && i < |g.table| && g.table[i].used && !Reachable(g, i) then 1 else 0
  }

  ghost function Frees(g: Gc, ops: seq<Op>, i: nat): nat
    requires Inv(g)
    decreases |ops|
  {
    if ops == [] then 0
    else Frees(g, ops[..|ops| - 1], i) + Freed(Run(g, ops[..|ops| - 1]), ops[|ops| - 1], i)
  }

  lemma StepGen(g: Gc, op: Op, i: nat)
    requires Inv(g) && i < |g.table|
    ensures |g.table| <= |Step(g, op).table|
    ensures Step(g, op).table[i].gen == if Freed(g, op, i) == 1 then (g.table[i].gen + 1) % GENS else g.table[i].gen
  {
    hide Collect, Inv, Reachable, FreeOk;
    if Enabled(g, op) {
      match op
      case OAlloc(size) =>
        AllocInv(g, size);
        MaybeCollectInv(g);
        TakeSlotTaken(MaybeCollect(g));
        if g.since > g.threshold { CollectExact(g, i); }
      case OCollect => CollectExact(g, i);
      case _ =>
    }
  }

  lemma {:induction false} GenAfter(g: Gc, ops: seq<Op>, i: nat)
    requires Inv(g) && i < |g.table| && g.table[i].gen < GENS
    ensures i < |Run(g, ops).table| && Run(g, ops).table[i].gen == (g.table[i].gen + Frees(g, ops, i)) % GENS
    decreases |ops|
  {
    hide Inv, Step, Freed;
    SmallGen(g.table[i].gen);
    if ops != [] {
      var r, op := Run(g, ops[..|ops| - 1]), ops[|ops| - 1];
      GenAfter(g, ops[..|ops| - 1], i);
      StepGen(r, op, i);
      FreedOnce(r, op, i);
      BumpGen(g.table[i].gen, Frees(g, ops[..|ops| - 1], i), Freed(r, op, i));
      SmallStep(g.table[i].gen + Frees(g, ops[..|ops| - 1], i));
    }
  }

  lemma FreedOnce(g: Gc, op: Op, i: nat)
    requires Inv(g)
    ensures Freed(g, op, i) <= 1
  {
  }

  lemma SmallStep(n: nat)
    ensures (n % GENS + 0) % GENS == n % GENS
  {
  }

  // A handle that was good stays good exactly as long as its slot is in use and
  // has been freed a multiple of 65536 times since.
  lemma StaleUntilWrap(g: Gc, ops: seq<Op>, w: Word)
    requires Inv(g) && HandleAt(g.table, w).Just?
    ensures var i := IdxOf(w);
            var g2 := Run(g, ops);
            && i < |g2.table|
            && (HandleAt(g2.table, w) == Just(i) <==> g2.table[i].used && Frees(g, ops, i) % GENS == 0)
  {
    hide Inv, Run, Frees, GenOf, TagOf, IdxOf;
    UsedGen(g, w);
    GenAfter(g, ops, IdxOf(w));
    GoodAgain(g.table, Run(g, ops).table, w, Frees(g, ops, IdxOf(w)));
  }

  lemma UsedGen(g: Gc, w: Word)
    requires Inv(g) && HandleAt(g.table, w).Just?
    ensures IdxOf(w) < |g.table| && g.table[IdxOf(w)].gen < GENS
  {
    assert SlotOk(g.table[IdxOf(w)]);
  }

  lemma GoodAgain(t: seq<Slot>, t2: seq<Slot>, w: Word, n: nat)
    requires HandleAt(t, w).Just? && IdxOf(w) < |t2| && t[IdxOf(w)].gen < GENS
    requires t2[IdxOf(w)].gen == (t[IdxOf(w)].gen + n) % GENS
    ensures HandleAt(t2, w) == Just(IdxOf(w)) <==> t2[IdxOf(w)].used && n % GENS == 0
  {
    hide GenOf, TagOf, IdxOf;
    SameGen(t[IdxOf(w)].gen, n);
  }

  // In particular: freed, and fewer than 65536 times, means rejected, however the
  // slot is reused.
  lemma FreedIsRejected(g: Gc, ops: seq<Op>, w: Word)
    requires Inv(g) && HandleAt(g.table, w).Just? && 0 < Frees(g, ops, IdxOf(w)) < GENS
    ensures DerefOf(Run(g, ops), w) == StaleHandle
  {
    hide Run, Frees, Inv;
    StaleUntilWrap(g, ops, w);
    SmallGen(Frees(g, ops, IdxOf(w)));
    TaggedNotNull(w);
  }

  lemma TaggedNotNull(w: Word)
    requires TagOf(w) == TAG
    ensures w != 0
  {
  }

  // ----- the cost of collecting -----

  // Bytes of survivors scanned, and bytes allocated, by one operation.
  ghost function Scanned(g: Gc, op: Op): nat
    requires Inv(g)
  {
    if Collects(g, op) then Collect(g).bytes else 0
  }

  function Asked(g: Gc, op: Op): nat { if op.OAlloc? && Roomy(g) then op.size else 0 }

  ghost function ScannedIn(g: Gc, ops: seq<Op>): nat
    requires Inv(g)
    decreases |ops|
  {
    if ops == [] then 0
    else ScannedIn(g, ops[..|ops| - 1]) + Scanned(Run(g, ops[..|ops| - 1]), ops[|ops| - 1])
  }

  ghost function AskedIn(g: Gc, ops: seq<Op>): nat
    requires Inv(g)
    decreases |ops|
  {
    if ops == [] then 0
    else AskedIn(g, ops[..|ops| - 1]) + Asked(Run(g, ops[..|ops| - 1]), ops[|ops| - 1])
  }

  predicate OnlyAutomatic(ops: seq<Op>) { forall k :: 0 <= k < |ops| ==> !ops[k].OCollect? && !ops[k].OSetThreshold? }

  // The survivors of the last collection (nothing before the first).
  ghost function LastLive(g: Gc, ops: seq<Op>): nat
    requires Inv(g)
    decreases |ops|
  {
    if ops == [] then 0
    else
      var r := Run(g, ops[..|ops| - 1]);
      if Collects(r, ops[|ops| - 1]) then Collect(r).bytes else LastLive(g, ops[..|ops| - 1])
  }

  lemma {:induction false} SweptBytes(table: seq<Slot>, keep: set<nat>, n: nat)
    requires n <= |table|
    ensures BytesUsed(Swept(table, keep), n) <= BytesUsed(table, n)
    decreases n
  {
    if n > 0 { SweptBytes(table, keep, n - 1); }
  }

  // What one operation does to the counters the threshold goes by.
  lemma StepPace(r: Gc, op: Op)
    requires Inv(r) && !op.OCollect? && !op.OSetThreshold?
    ensures var r2 := Step(r, op);
            if Collects(r, op) then
              && r.since > r.threshold && Collect(r).bytes <= r.bytes
              && r2.threshold == (if 2 * Collect(r).bytes < r.floor then r.floor else 2 * Collect(r).bytes)
              && r2.bytes == Collect(r).bytes + Asked(r, op) && r2.since == Asked(r, op)
            else r2.bytes == r.bytes + Asked(r, op) && r2.since == r.since + Asked(r, op) && r2.threshold == r.threshold
    ensures Step(r, op).floor == r.floor && (op.OAlloc? && Roomy(r) && !Collects(r, op) ==> r.since <= r.threshold)
  {
    hide Kept, Inv, BytesUsed;
    if op.OAlloc? && Roomy(r) {
      SweptBytes(r.table, Kept(r.table, AllRoots(r)), |r.table|);
      InvBytes(r);
      AllocInv(r, op.size);
    }
  }

  lemma InvBytes(g: Gc)
    requires Inv(g)
    ensures g.bytes == BytesUsed(g.table, |g.table|)
  {
  }

  lemma {:induction false} Paced(threshold: nat, ops: seq<Op>)
    requires OnlyAutomatic(ops)
    ensures Inv(Start(threshold))
    ensures var g := Start(threshold);
            var r := Run(g, ops);
            var a, s, l := AskedIn(g, ops), ScannedIn(g, ops), LastLive(g, ops);
            && r.since <= a && 2 * (s - l) <= a - r.since && l <= a - r.since && 2 * l <= r.threshold
            && r.bytes == l + r.since
    decreases |ops|
  {
    hide Step, Collect, Inv, Collects, Asked;
    StartInv(threshold);
    if ops != [] {
      Paced(threshold, ops[..|ops| - 1]);
      StepPace(Run(Start(threshold), ops[..|ops| - 1]), ops[|ops| - 1]);
    }
  }

  // Twice the bytes of survivors scanned by all collections together is at most
  // three times the bytes allocated, whatever the initial threshold.
  lemma CollectingIsCheap(threshold: nat, ops: seq<Op>)
    requires OnlyAutomatic(ops)
    ensures Inv(Start(threshold))
    ensures 2 * ScannedIn(Start(threshold), ops) <= 3 * AskedIn(Start(threshold), ops)
  {
    Paced(threshold, ops);
  }

  // The size of the last request served.
  ghost function LastAsked(g: Gc, ops: seq<Op>): nat
    requires Inv(g)
    decreases |ops|
  {
    if ops == [] then 0
    else
      var r, op := Run(g, ops[..|ops| - 1]), ops[|ops| - 1];
      if op.OAlloc? && Roomy(r) then op.size else LastAsked(g, ops[..|ops| - 1])
  }

  // Nor is collecting put off: at any time the bytes in use are at most those that
  // survived the last collection, as much as the larger of the initial threshold
  // and twice those, and the last request.
  lemma {:induction false} HeapIsBounded(threshold: nat, ops: seq<Op>)
    requires OnlyAutomatic(ops)
    ensures Inv(Start(threshold))
    ensures var g := Start(threshold);
            var r, l := Run(g, ops), LastLive(g, ops);
            var limit := if threshold < 2 * l then 2 * l else threshold;
            r.floor == threshold && r.threshold == limit && r.since <= limit + LastAsked(g, ops) && r.bytes <= l + limit + LastAsked(g, ops)
    decreases |ops|
  {
    hide Step, Collect, Inv, Collects, Asked, AskedIn, ScannedIn;
    StartInv(threshold);
    Paced(threshold, ops);
    if ops != [] {
      HeapIsBounded(threshold, ops[..|ops| - 1]);
      var r := Run(Start(threshold), ops[..|ops| - 1]);
      StepPace(r, ops[|ops| - 1]);
      AskedIs(r, ops[|ops| - 1]);
    }
  }

  lemma AskedIs(g: Gc, op: Op)
    ensures Asked(g, op) == if op.OAlloc? && Roomy(g) then op.size else 0
    ensures Collects(g, op) ==> op.OCollect? || (op.OAlloc? && Roomy(g))
  {
  }
}
