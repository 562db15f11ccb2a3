// Calls in compiler/backend_x86.cardinal: the caller parks, stacks and loads its
// arguments; the callee's prologue picks them up. The two classify the arguments
// separately and must agree.
module CallConv {
  import opened Words64
  import opened Numeric
  import L = Layout

  // A by-value argument: a float travels in an xmm register or one stack word,
  // anything else is one or more words.
  datatype Arg = FloatArg(bits: Reg) | WordsArg(words: seq<Reg>)

  datatype PTy = PFloat | PWords(k: nat)

  predicate ArgOk(a: Arg) { a.WordsArg? ==> |a.words| >= 1 }

  function TyOf(a: Arg): PTy { if a.FloatArg? then PFloat else PWords(|a.words|) }

  function Words(a: Arg): seq<Reg> { if a.FloatArg? then [a.bits] else a.words }

  function Tys(args: seq<Arg>): seq<PTy> { seq(|args|, i requires 0 <= i < |args| => TyOf(args[i])) }

  function Count(t: PTy): nat { if t.PFloat? then 1 else t.k }

  // ----- where an argument goes -----

  // Integer registers, float registers and stack words taken so far.
  datatype Taken = Taken(rg: nat, xrg: nat, mem: nat)

  datatype Place = InGp(r: nat) | InXmm(x: nat) | OnStack(m: nat)

  function PlaceOf(t: PTy, s: Taken): Place {
    match t
    case PFloat => if s.xrg < 8 then InXmm(s.xrg) else OnStack(s.mem)
    case PWords(k) => if k <= 2 && s.rg + k <= 6 then InGp(s.rg) else OnStack(s.mem)
  }

  function Advance(t: PTy, s: Taken): Taken {
    match PlaceOf(t, s)
    case InGp(_) => s.(rg := s.rg + Count(t))
    case InXmm(_) => s.(xrg := s.xrg + 1)
    case OnStack(_) => s.(mem := s.mem + Count(t))
  }

  // After the first n parameters, the registers from `first` on being free.
  function TakenAt(ts: seq<PTy>, first: nat, n: nat): Taken
    requires n <= |ts|
  {
    if n == 0 then Taken(first, 0, 0) else Advance(ts[n - 1], TakenAt(ts, first, n - 1))
  }

  function PlaceAt(ts: seq<PTy>, first: nat, i: nat): Place
    requires i < |ts|
  {
    PlaceOf(ts[i], TakenAt(ts, first, i))
  }

  lemma {:induction false} TakenGrows(ts: seq<PTy>, first: nat, m: nat, n: nat)
    requires m <= n <= |ts|
    ensures var a, b := TakenAt(ts, first, m), TakenAt(ts, first, n); a.rg <= b.rg && a.xrg <= b.xrg && a.mem <= b.mem
    ensures first <= 6 ==> TakenAt(ts, first, n).rg <= 6
    ensures TakenAt(ts, first, n).xrg <= 8
    decreases n
  {
    if m < n { TakenGrows(ts, first, m, n - 1); } else if n > 0 { TakenGrows(ts, first, n - 1, n - 1); }
  }

  // One parameter further.
  lemma Next(ts: seq<PTy>, first: nat, i: nat)
    requires i < |ts|
    ensures PlaceAt(ts, first, i) == PlaceOf(ts[i], TakenAt(ts, first, i)) && TakenAt(ts, first, i + 1) == Advance(ts[i], TakenAt(ts, first, i))
    ensures TakenAt(ts, first, i).xrg <= 8 && TakenAt(ts, first, i + 1).mem <= TakenAt(ts, first, |ts|).mem
    ensures first <= 6 ==> TakenAt(ts, first, i).rg <= 6
    ensures first <= TakenAt(ts, first, i).rg
  {
    TakenGrows(ts, first, 0, i);
    TakenGrows(ts, first, i + 1, |ts|);
  }

  lemma Begin(ts: seq<PTy>, first: nat)
    ensures TakenAt(ts, first, 0) == Taken(first, 0, 0)
  {
  }

  lemma TysAt(args: seq<Arg>, i: nat)
    requires i < |args|
    ensures |Tys(args)| == |args| && Tys(args)[i] == TyOf(args[i]) && Count(TyOf(args[i])) == |Words(args[i])|
  {
  }

  // The bytes an argument's place holds.
  predicate Holds(ws: seq<Reg>, p: Place, gp: seq<Reg>, xmm: seq<Reg>, stack: seq<Reg>) {
    match p
    case InGp(r) => WordsIn(ws, r, gp)
    case InXmm(x) => x < |xmm| && ws == [xmm[x]]
    case OnStack(m) => WordsIn(ws, m, stack)
  }

  // round16 in words.
  function Even(n: nat): nat { n + n % 2 }

  // ----- the caller -----

  // What one argument was classified as: 0 = integer registers, 1 = xmm, 2 = stack.
  datatype Park = Park(cat: nat, scr: nat, off: nat)

  ghost predicate ParkedAs(p: Park, a: Arg, pl: Place, scratch: seq<Reg>, pw: nat) {
    match pl
    case InGp(_) => p.cat == 0 && p.scr + |Words(a)| <= pw <= |scratch| && scratch[p.scr..p.scr + |Words(a)|] == Words(a)
    case InXmm(_) => p.cat == 1 && p.scr < pw <= |scratch| && Words(a) == [scratch[p.scr]]
    case OnStack(m) => p.cat == 2 && p.off == m
  }

  // Copy words into a buffer.
  function Write(b: seq<Reg>, at: nat, ws: seq<Reg>): (r: seq<Reg>)
    requires at + |ws| <= |b|
    ensures |r| == |b|
  {
    b[..at] + ws + b[at + |ws|..]
  }

  lemma WriteKeeps(b: seq<Reg>, at: nat, ws: seq<Reg>)
    requires at + |ws| <= |b|
    ensures Write(b, at, ws)[..at] == b[..at] && Write(b, at, ws)[at..at + |ws|] == ws
    ensures forall n :: 0 <= n <= at ==> Write(b, at, ws)[..n] == b[..n]
  {
    forall n | 0 <= n <= at ensures Write(b, at, ws)[..n] == b[..n] {
      assert Write(b, at, ws)[..n] == Write(b, at, ws)[..at][..n];
    }
  }

  // Classify each argument and park what goes into registers. `first` is the
  // first free integer register, pw0 the first free of the 14 scratch words; the
  // words parked never run past them.
  method ParkArgs(args: seq<Arg>, first: nat, pw0: nat, scratch0: seq<Reg>)
    returns (parks: seq<Park>, scratch: seq<Reg>, stackWords: nat, ghost pw: nat)
    requires |scratch0| == 14 && pw0 <= first <= 2 && forall i :: 0 <= i < |args| ==> ArgOk(args[i])
    ensures |parks| == |args| && |scratch| == 14 && pw <= 14 && scratch[..pw0] == scratch0[..pw0]
    ensures forall i :: 0 <= i < |args| ==> ParkedAs(parks[i], args[i], PlaceAt(Tys(args), first, i), scratch, pw)
    ensures stackWords == TakenAt(Tys(args), first, |args|).mem
  {
    hide TakenAt, PlaceAt, ParkedAs, Write, Tys;
    ghost var ts := Tys(args);
    parks, scratch, stackWords := [], scratch0, 0;
    var gpw: nat, xmmw: nat, cursor: nat := first, 0, pw0;
    var i := 0;
    Begin(ts, first);
    SizeOfTys(args);
    while i < |args|
      invariant 0 <= i <= |args| == |ts| && |parks| == i && |scratch| == 14 && scratch[..pw0] == scratch0[..pw0]
      invariant Taken(gpw, xmmw, stackWords) == TakenAt(ts, first, i) && cursor == pw0 + (gpw - first) + xmmw
      invariant first <= gpw <= 6 && xmmw <= 8
      invariant forall j :: 0 <= j < i ==> ParkedAs(parks[j], args[j], PlaceAt(ts, first, j), scratch, cursor)
    {
      TysAt(args, i);
      Next(ts, first, i);
      ghost var scratch1, cursor1 := scratch, cursor;
      var ws := Words(args[i]);
      if args[i].FloatArg? && xmmw < 8 {
        WriteKeeps(scratch, cursor, ws);
        ParkedNew(Park(1, cursor, 0), args[i], InXmm(xmmw), scratch, cursor);
        scratch := Write(scratch, cursor, ws);
        parks := parks + [Park(1, cursor, 0)];
        cursor, xmmw := cursor + 1, xmmw + 1;
      } else if args[i].WordsArg? && |ws| <= 2 && gpw + |ws| <= 6 {
        WriteKeeps(scratch, cursor, ws);
        ParkedNew(Park(0, cursor, 0), args[i], InGp(gpw), scratch, cursor);
        scratch := Write(scratch, cursor, ws);
        parks := parks + [Park(0, cursor, 0)];
        cursor, gpw := cursor + |ws|, gpw + |ws|;
      } else {
        ParkedStack(Park(2, 0, stackWords), args[i], OnStack(stackWords), scratch, cursor);
        parks := parks + [Park(2, 0, stackWords)];
        stackWords := stackWords + |ws|;
      }
      forall j | 0 <= j < i ensures ParkedAs(parks[j], args[j], PlaceAt(ts, first, j), scratch, cursor) {
        ParkedKept(parks[j], args[j], PlaceAt(ts, first, j), scratch1, cursor1, scratch, cursor);
      }
      i := i + 1;
    }
    pw := cursor;
  }

  lemma SizeOfTys(args: seq<Arg>)
    ensures |Tys(args)| == |args|
  {
  }

  lemma ParkedNew(p: Park, a: Arg, pl: Place, s: seq<Reg>, at: nat)
    requires at + |Words(a)| <= |s| && p.scr == at
    requires (pl.InGp? && p.cat == 0) || (pl.InXmm? && p.cat == 1 && a.FloatArg?)
    ensures ParkedAs(p, a, pl, Write(s, at, Words(a)), at + |Words(a)|)
  {
    WriteKeeps(s, at, Words(a));
    var w := Write(s, at, Words(a));
    if pl.InXmm? { assert w[at] == w[at..at + 1][0]; }
  }

  lemma ParkedStack(p: Park, a: Arg, pl: Place, s: seq<Reg>, pw: nat)
    requires pl.OnStack? && p.cat == 2 && p.off == pl.m
    ensures ParkedAs(p, a, pl, s, pw)
  {
  }

  // Later parking leaves what is parked alone.
  lemma ParkedKept(p: Park, a: Arg, pl: Place, s1: seq<Reg>, pw1: nat, s2: seq<Reg>, pw2: nat)
    requires ParkedAs(p, a, pl, s1, pw1) && |s1| == |s2| && pw1 <= pw2 <= |s2| && pw1 <= |s1| && s2[..pw1] == s1[..pw1]
    ensures ParkedAs(p, a, pl, s2, pw2)
  {
    if pl.InGp? {
      var n := |Words(a)|;
      assert s2[p.scr..p.scr + n] == s2[..pw1][p.scr..p.scr + n];
      assert s1[p.scr..p.scr + n] == s1[..pw1][p.scr..p.scr + n];
    } else if pl.InXmm? {
      assert s2[p.scr] == s2[..pw1][p.scr] && s1[p.scr] == s1[..pw1][p.scr];
    }
  }

  // Words at an offset of a buffer.
  predicate WordsIn(ws: seq<Reg>, at: nat, buf: seq<Reg>) { at + |ws| <= |buf| && buf[at..at + |ws|] == ws }

  // A later write further on leaves them.
  lemma WordsKept(ws: seq<Reg>, at: nat, buf: seq<Reg>, at2: nat, ws2: seq<Reg>)
    requires WordsIn(ws, at, buf) && at + |ws| <= at2 && at2 + |ws2| <= |buf|
    ensures WordsIn(ws, at, Write(buf, at2, ws2))
  {
    WriteKeeps(buf, at2, ws2);
    var b2, n := Write(buf, at2, ws2), |ws|;
    assert b2[at..at + n] == b2[..at2][at..at + n] && buf[at..at + n] == buf[..at2][at..at + n];
  }

  ghost predicate ParksMatch(args: seq<Arg>, parks: seq<Park>, first: nat, scratch: seq<Reg>, pw: nat) {
    |parks| == |args| && forall i :: 0 <= i < |args| ==> ParkedAs(parks[i], args[i], PlaceAt(Tys(args), first, i), scratch, pw)
  }

  lemma MatchAt(args: seq<Arg>, parks: seq<Park>, first: nat, scratch: seq<Reg>, pw: nat, i: nat)
    requires ParksMatch(args, parks, first, scratch, pw) && i < |args|
    ensures match PlaceAt(Tys(args), first, i)
            case InGp(_) => parks[i].cat == 0 && WordsIn(Words(args[i]), parks[i].scr, scratch)
            case InXmm(_) => parks[i].cat == 1 && parks[i].scr < |scratch| && Words(args[i]) == [scratch[parks[i].scr]]
            case OnStack(m) => parks[i].cat == 2 && parks[i].off == m
  {
  }

  // Copy the stack arguments, in source order, below the aligned stack pointer.
  method StackArgs(args: seq<Arg>, parks: seq<Park>, stackWords: nat, ghost first: nat, ghost scratch: seq<Reg>,
                   ghost pw: nat)
    returns (stack: seq<Reg>)
    requires stackWords == TakenAt(Tys(args), first, |args|).mem && ParksMatch(args, parks, first, scratch, pw)
    ensures |stack| == Even(stackWords)
    ensures forall i :: 0 <= i < |args| && PlaceAt(Tys(args), first, i).OnStack? ==> WordsIn(Words(args[i]), PlaceAt(Tys(args), first, i).m, stack)
  {
    hide TakenAt, PlaceAt, ParkedAs, Write, Tys, ParksMatch, WordsIn;
    ghost var ts := Tys(args);
    stack := seq(Even(stackWords), _ => 0 as Reg);
    var i := 0;
    SizeOfTys(args);
    SizeOfParks(args, parks, first, scratch, pw);
    while i < |args|
      invariant 0 <= i <= |args| == |ts| == |parks| && |stack| == Even(stackWords)
      invariant forall j :: 0 <= j < i && PlaceAt(ts, first, j).OnStack? ==>
                  WordsIn(Words(args[j]), PlaceAt(ts, first, j).m, stack) && PlaceAt(ts, first, j).m + |Words(args[j])| <= TakenAt(ts, first, i).mem
    {
      TysAt(args, i);
      Next(ts, first, i);
      MatchAt(args, parks, first, scratch, pw, i);
      if parks[i].cat == 2 {
        ghost var stack1, m := stack, parks[i].off;
        forall j | 0 <= j < i && PlaceAt(ts, first, j).OnStack?
          ensures WordsIn(Words(args[j]), PlaceAt(ts, first, j).m, Write(stack, m, Words(args[i])))
        {
          WordsKept(Words(args[j]), PlaceAt(ts, first, j).m, stack, m, Words(args[i]));
        }
        WrittenIn(stack, m, Words(args[i]));
        stack := Write(stack, parks[i].off, Words(args[i]));
      }
      i := i + 1;
    }
  }

  lemma SizeOfParks(args: seq<Arg>, parks: seq<Park>, first: nat, scratch: seq<Reg>, pw: nat)
    requires ParksMatch(args, parks, first, scratch, pw)
    ensures |parks| == |args|
  {
  }

  lemma WrittenIn(b: seq<Reg>, at: nat, ws: seq<Reg>)
    requires at + |ws| <= |b|
    ensures WordsIn(ws, at, Write(b, at, ws))
  {
    WriteKeeps(b, at, ws);
  }

  // Load the parked words into %rdi.. from the first free register on.
  method LoadGp(args: seq<Arg>, parks: seq<Park>, scratch: seq<Reg>, first: nat, gp0: seq<Reg>,
                ghost pw: nat) returns (gp: seq<Reg>)
    requires |gp0| == 6 && first <= 2 && ParksMatch(args, parks, first, scratch, pw)
    ensures |gp| == 6 && gp[..first] == gp0[..first]
    ensures forall i :: 0 <= i < |args| && PlaceAt(Tys(args), first, i).InGp? ==> WordsIn(Words(args[i]), PlaceAt(Tys(args), first, i).r, gp)
  {
    hide Words, TakenAt, PlaceAt, ParkedAs, Write, Tys, ParksMatch;
    ghost var ts := Tys(args);
    gp := gp0;
    var reg := first;
    var i := 0;
    Begin(ts, first);
    SizeOfTys(args);
    SizeOfParks(args, parks, first, scratch, pw);
    while i < |args|
      invariant 0 <= i <= |args| == |ts| == |parks| && |gp| == 6 && gp[..first] == gp0[..first]
      invariant reg == TakenAt(ts, first, i).rg && first <= reg <= 6
      invariant forall j :: 0 <= j < i && PlaceAt(ts, first, j).InGp? ==>
                  PlaceAt(ts, first, j).r + |Words(args[j])| <= reg && WordsIn(Words(args[j]), PlaceAt(ts, first, j).r, gp)
    {
      TysAt(args, i);
      Next(ts, first, i);
      MatchAt(args, parks, first, scratch, pw, i);
      if parks[i].cat == 0 {
        var ws := scratch[parks[i].scr..parks[i].scr + |Words(args[i])|];
        forall j | 0 <= j < i && PlaceAt(ts, first, j).InGp? ensures WordsIn(Words(args[j]), PlaceAt(ts, first, j).r, Write(gp, reg, ws)) {
          WordsKept(Words(args[j]), PlaceAt(ts, first, j).r, gp, reg, ws);
        }
        WrittenIn(gp, reg, ws);
        WriteKeeps(gp, reg, ws);
        gp := Write(gp, reg, ws);
        reg := reg + |ws|;
      }
      i := i + 1;
    }
  }

  method LoadXmm(args: seq<Arg>, parks: seq<Park>, scratch: seq<Reg>, ghost first: nat,
                 ghost pw: nat) returns (xmm: seq<Reg>)
    requires ParksMatch(args, parks, first, scratch, pw)
    ensures |xmm| == 8
    ensures forall i :: 0 <= i < |args| && PlaceAt(Tys(args), first, i).InXmm? ==>
              PlaceAt(Tys(args), first, i).x < 8 && Words(args[i]) == [xmm[PlaceAt(Tys(args), first, i).x]]
  {
    hide TakenAt, PlaceAt, ParkedAs, Write, Tys, ParksMatch;
    ghost var ts := Tys(args);
    xmm := seq(8, _ => 0 as Reg);
    var reg := 0;
    var i := 0;
    Begin(ts, first);
    SizeOfTys(args);
    SizeOfParks(args, parks, first, scratch, pw);
    while i < |args|
      invariant 0 <= i <= |args| == |ts| == |parks| && |xmm| == 8 && reg == TakenAt(ts, first, i).xrg <= 8
      invariant forall j :: 0 <= j < i && PlaceAt(ts, first, j).InXmm? ==>
                  PlaceAt(ts, first, j).x < reg && Words(args[j]) == [xmm[PlaceAt(ts, first, j).x]]
    {
      TysAt(args, i);
      Next(ts, first, i);
      MatchAt(args, parks, first, scratch, pw, i);
      if parks[i].cat == 1 {
        xmm := xmm[reg := scratch[parks[i].scr]];
        reg := reg + 1;
      }
      i := i + 1;
    }
  }

  // What reaches the callee.
  datatype Machine = Machine(gp: seq<Reg>, xmm: seq<Reg>, stack: seq<Reg>)

  ghost predicate Placed(args: seq<Arg>, first: nat, m: Machine) {
    && |m.gp| == 6 && |m.xmm| == 8
    && |m.stack| == Even(TakenAt(Tys(args), first, |args|).mem)
    && forall i :: 0 <= i < |args| ==> Holds(Words(args[i]), PlaceAt(Tys(args), first, i), m.gp, m.xmm, m.stack)
  }

  // emit_call: the address of a memory result goes first, in %rdi.
  method EmitCall(args: seq<Arg>, hidden: Option<Reg>) returns (m: Machine)
    requires forall i :: 0 <= i < |args| ==> ArgOk(args[i])
    ensures var base := if hidden.Some? then 1 else 0;
            Placed(args, base, m) && (hidden.Some? ==> m.gp[0] == hidden.value)
  {
    hide TakenAt, PlaceAt, ParkedAs, Tys, WordsIn;
    var base: nat := if hidden.Some? then 1 else 0;
    var zero: seq<Reg> := seq(14, _ => 0 as Reg);
    var parks, scratch, stackWords;
    ghost var pw;
    parks, scratch, stackWords, pw := ParkArgs(args, base, 0, zero);
    assert ParksMatch(args, parks, base, scratch, pw);
    var stack := StackArgs(args, parks, stackWords, base, scratch, pw);
    var gp: seq<Reg> := seq(6, _ => 0 as Reg);
    if hidden.Some? { gp := gp[0 := hidden.value]; }
    ghost var gp0 := gp;
    gp := LoadGp(args, parks, scratch, base, gp, pw);
    var xmm := LoadXmm(args, parks, scratch, base, pw);
    m := Machine(gp, xmm, stack);
    if hidden.Some? { assert gp[0] == gp[..1][0] && gp0[0] == gp0[..1][0]; }
  }

  // ICallClosure: the environment is the first integer argument, parked in
  // scratch word 0; a memory result shifts it to the second register.
  method EmitClosureCall(env: Reg, args: seq<Arg>, hidden: Option<Reg>) returns (m: Machine)
    requires forall i :: 0 <= i < |args| ==> ArgOk(args[i])
    ensures var base := if hidden.Some? then 1 else 0;
            Placed(args, base + 1, m) && m.gp[base] == env && (hidden.Some? ==> m.gp[0] == hidden.value)
  {
    hide TakenAt, PlaceAt, ParkedAs, Tys, WordsIn;
    var hbase: nat := if hidden.Some? then 1 else 0;
    var scratch0: seq<Reg> := seq(14, _ => 0 as Reg)[0 := env];
    var parks, scratch, stackWords;
    ghost var pw;
    parks, scratch, stackWords, pw := ParkArgs(args, hbase + 1, 1, scratch0);
    assert ParksMatch(args, parks, hbase + 1, scratch, pw);
    var stack := StackArgs(args, parks, stackWords, hbase + 1, scratch, pw);
    var gp: seq<Reg> := seq(6, _ => 0 as Reg);
    if hidden.Some? { gp := gp[0 := hidden.value]; }
    assert scratch[0] == scratch[..1][0] && scratch0[0] == scratch0[..1][0];
    gp := gp[hbase := scratch[0]];
    ghost var gp0 := gp;
    gp := LoadGp(args, parks, scratch, hbase + 1, gp, pw);
    var xmm := LoadXmm(args, parks, scratch, hbase + 1, pw);
    m := Machine(gp, xmm, stack);
    assert forall k :: 0 <= k < hbase + 1 ==> gp[k] == gp[..hbase + 1][k] && gp0[k] == gp0[..hbase + 1][k];
  }

  // ----- the callee's prologue -----

  // Each parameter's slot, and the hidden result pointer.
  method Prologue(ts: seq<PTy>, retMem: bool, m: Machine) returns (slots: seq<seq<Reg>>, hidden: Option<Reg>)
    requires |m.gp| == 6 && |m.xmm| == 8 && TakenAt(ts, if retMem then 1 else 0, |ts|).mem <= |m.stack|
    ensures |slots| == |ts| && hidden == (if retMem then Some(m.gp[0]) else None)
    ensures forall i :: 0 <= i < |ts| ==> |slots[i]| == Count(ts[i])
    ensures forall i :: 0 <= i < |ts| ==> Holds(slots[i], PlaceAt(ts, if retMem then 1 else 0, i), m.gp, m.xmm, m.stack)
  {
    hide TakenAt, PlaceAt, WordsIn;
    hidden := if retMem then Some(m.gp[0]) else None;
    ghost var first: nat := if retMem then 1 else 0;
    var rg: nat, xrg: nat, memoff: nat := if retMem then 1 else 0, 0, 0;
    slots := [];
    var i := 0;
    Begin(ts, first);
    while i < |ts|
      invariant 0 <= i <= |ts| && |slots| == i && Taken(rg, xrg, memoff) == TakenAt(ts, first, i)
      invariant forall j :: 0 <= j < i ==> |slots[j]| == Count(ts[j])
      invariant forall j :: 0 <= j < i ==> Holds(slots[j], PlaceAt(ts, first, j), m.gp, m.xmm, m.stack)
    {
      Next(ts, first, i);
      if ts[i].PFloat? {
        if xrg < 8 {
          slots := slots + [[m.xmm[xrg]]];
          xrg := xrg + 1;
        } else {
          InSlice(m.stack, memoff, 1);
          slots := slots + [m.stack[memoff..memoff + 1]];
          memoff := memoff + 1;
        }
      } else {
        var k := ts[i].k;
        if k <= 2 && rg + k <= 6 {
          InSlice(m.gp, rg, k);
          slots := slots + [m.gp[rg..rg + k]];
          rg := rg + k;
        } else {
          InSlice(m.stack, memoff, k);
          slots := slots + [m.stack[memoff..memoff + k]];
          memoff := memoff + k;
        }
      }
      i := i + 1;
    }
  }

  lemma InSlice(buf: seq<Reg>, at: nat, n: nat)
    requires at + n <= |buf|
    ensures WordsIn(buf[at..at + n], at, buf)
  {
  }

  // A place holds one thing.
  lemma HoldsOne(a: seq<Reg>, b: seq<Reg>, p: Place, m: Machine)
    requires |a| == |b| && Holds(a, p, m.gp, m.xmm, m.stack) && Holds(b, p, m.gp, m.xmm, m.stack)
    ensures a == b
  {
  }

  // For every signature, every word of every argument reaches its parameter's
  // slot, and the result pointer its own.
  method CallReaches(args: seq<Arg>, hidden: Option<Reg>) returns (slots: seq<seq<Reg>>, h: Option<Reg>)
    requires forall i :: 0 <= i < |args| ==> ArgOk(args[i])
    ensures |slots| == |args| && (forall i :: 0 <= i < |args| ==> slots[i] == Words(args[i])) && h == hidden
  {
    var m := EmitCall(args, hidden);
    slots, h := Prologue(Tys(args), hidden.Some?, m);
    forall i | 0 <= i < |args| ensures slots[i] == Words(args[i]) {
      assert Tys(args)[i] == TyOf(args[i]);
      HoldsOne(slots[i], Words(args[i]), PlaceAt(Tys(args), if hidden.Some? then 1 else 0, i), m);
    }
  }

  // A lifted function's first parameter is its environment.
  function Lifted(ts: seq<PTy>): seq<PTy> { [PWords(1)] + ts }

  lemma {:induction false} LiftedTaken(ts: seq<PTy>, first: nat, n: nat)
    requires n <= |ts| && first <= 1
    ensures TakenAt(Lifted(ts), first, n + 1) == TakenAt(ts, first + 1, n)
    decreases n
  {
    if n == 0 {
      assert TakenAt(Lifted(ts), first, 0) == Taken(first, 0, 0);
    } else {
      LiftedTaken(ts, first, n - 1);
      assert Lifted(ts)[n] == ts[n - 1];
    }
  }

  method ClosureCallReaches(env: Reg, args: seq<Arg>, hidden: Option<Reg>) returns (slots: seq<seq<Reg>>,
                                                                                    h: Option<Reg>)
    requires forall i :: 0 <= i < |args| ==> ArgOk(args[i])
    ensures |slots| == |args| + 1 && slots[0] == [env] && h == hidden
    ensures forall i :: 0 <= i < |args| ==> slots[i + 1] == Words(args[i])
  {
    hide TakenAt, PlaceAt, Tys, WordsIn;
    var m := EmitClosureCall(env, args, hidden);
    ghost var base: nat := if hidden.Some? then 1 else 0;
    SizeOfTys(args);
    LiftedTaken(Tys(args), base, |args|);
    slots, h := Prologue(Lifted(Tys(args)), hidden.Some?, m);
    LiftedFirst(Tys(args), base);
    EnvSlot(slots[0], base, m, env);
    forall i | 0 <= i < |args| ensures slots[i + 1] == Words(args[i]) {
      LiftedPlace(Tys(args), base, i);
      TysAt(args, i);
      HoldsOne(slots[i + 1], Words(args[i]), PlaceAt(Tys(args), base + 1, i), m);
    }
  }

  lemma LiftedFirst(ts: seq<PTy>, base: nat)
    requires base <= 1
    ensures PlaceAt(Lifted(ts), base, 0) == InGp(base) && Count(Lifted(ts)[0]) == 1
  {
  }

  lemma EnvSlot(s: seq<Reg>, base: nat, m: Machine, env: Reg)
    requires |s| == 1 && WordsIn(s, base, m.gp) && base < |m.gp| && m.gp[base] == env
    ensures s == [env]
  {
    assert s[0] == m.gp[base..base + 1][0];
  }

  lemma LiftedPlace(ts: seq<PTy>, base: nat, i: nat)
    requires i < |ts| && base <= 1
    ensures Lifted(ts)[i + 1] == ts[i] && PlaceAt(Lifted(ts), base, i + 1) == PlaceAt(ts, base + 1, i)
  {
    LiftedTaken(ts, base, i);
  }

  // ----- the stack pointer -----

  // Entered with the return address pushed on a 16-aligned stack, a function's
  // frame and its outgoing arguments keep the stack 16-aligned at every call.
  lemma AlignedAtCall(entry: int, frame: nat, stackWords: nat)
    requires entry % 16 == 8 && frame % 16 == 0
    ensures (entry - 8 - frame - 8 * Even(stackWords)) % 16 == 0
  {
    var q := entry / 16;
    assert entry == 16 * q + 8;
    assert 8 * Even(stackWords) == 16 * ((stackWords + stackWords % 2) / 2);
  }

  // ----- thunks -----

  // gp_words_src over the parameters a thunk takes.
  function GpWords(ts: seq<PTy>): nat {
    if ts == [] then 0 else GpWords(ts[..|ts| - 1]) + (if ts[|ts| - 1].PFloat? then 0 else ts[|ts| - 1].k)
  }

  predicate ThunkTypes(ts: seq<PTy>) { forall i :: 0 <= i < |ts| ==> ts[i].PFloat? || 1 <= ts[i].k <= 2 }

  // The registers with the environment dropped: the k after it move down by one.
  function Shifted(gp: seq<Reg>, base: nat, k: nat): (r: seq<Reg>)
    requires |gp| == 6 && base + 1 + k <= 6
    ensures |r| == 6
  {
    seq(6, w requires 0 <= w < 6 => if base <= w < base + k then gp[w + 1] else gp[w])
  }

  // emit_thunk.
  method Thunk(gp0: seq<Reg>, base: nat, k: nat) returns (gp: seq<Reg>)
    requires |gp0| == 6 && base + 1 + k <= 6
    ensures gp == Shifted(gp0, base, k)
  {
    gp := gp0;
    var w := base;
    while w < base + k
      invariant base <= w <= base + k && |gp| == 6
      invariant forall v :: base <= v < w ==> gp[v] == gp0[v + 1]
      invariant forall v :: 0 <= v < 6 && !(base <= v < w) ==> gp[v] == gp0[v]
    {
      gp := gp[w := gp[w + 1]];
      w := w + 1;
    }
  }

  // With every integer word in a register, dropping the environment shifts every
  // register place down by one and no other.
  lemma {:induction false} ThunkTaken(ts: seq<PTy>, base: nat, n: nat)
    requires n <= |ts| && ThunkTypes(ts) && base + 1 + GpWords(ts) <= 6
    ensures GpWords(ts[..n]) <= GpWords(ts)
    ensures var a, b := TakenAt(ts, base, n), TakenAt(ts, base + 1, n);
            b == a.(rg := a.rg + 1) && a.rg == base + GpWords(ts[..n])
    decreases n
  {
    GpWordsFront(ts, n);
    if n > 0 {
      ThunkTaken(ts, base, n - 1);
      GpWordsFront(ts, n - 1);
      assert ts[..n][..n - 1] == ts[..n - 1];
    }
  }

  lemma {:induction false} GpWordsFront(ts: seq<PTy>, n: nat)
    requires n <= |ts|
    ensures GpWords(ts[..n]) <= GpWords(ts)
    decreases |ts| - n
  {
    if n < |ts| {
      GpWordsFront(ts, n + 1);
      assert ts[..n + 1][..n] == ts[..n];
    } else {
      assert ts[..n] == ts;
    }
  }

  // A closure call through the thunk reaches the function's own prologue.
  method ThunkReaches(env: Reg, args: seq<Arg>, hidden: Option<Reg>, base: nat) returns (slots: seq<seq<Reg>>,
      h: Option<Reg>)
    requires forall i :: 0 <= i < |args| ==> ArgOk(args[i])
    requires ThunkTypes(Tys(args)) && base == (if hidden.Some? then 1 else 0) && base + 1 + GpWords(Tys(args)) <= 6
    ensures |slots| == |args| && (forall i :: 0 <= i < |args| ==> slots[i] == Words(args[i])) && h == hidden
  {
    hide PlaceAt, Holds, TakenAt, GpWords;
    var m := EmitClosureCall(env, args, hidden);
    var gp := Thunk(m.gp, base, GpWords(Tys(args)));
    ThunkTaken(Tys(args), base, |args|);
    slots, h := Prologue(Tys(args), hidden.Some?, m.(gp := gp));
    forall i | 0 <= i < |args| ensures slots[i] == Words(args[i]) {
      assert Tys(args)[i] == TyOf(args[i]);
      ThunkPlace(args, base, i, m, gp);
      HoldsOne(slots[i], Words(args[i]), PlaceAt(Tys(args), base, i), m.(gp := gp));
    }
  }

  lemma ThunkPlace(args: seq<Arg>, base: nat, i: nat, m: Machine, gp: seq<Reg>)
    requires i < |args| && |gp| == 6 && |m.gp| == 6 && ArgOk(args[i])
    requires ThunkTypes(Tys(args)) && base + 1 + GpWords(Tys(args)) <= 6
    requires forall w :: base <= w < base + GpWords(Tys(args)) ==> gp[w] == m.gp[w + 1]
    requires Holds(Words(args[i]), PlaceAt(Tys(args), base + 1, i), m.gp, m.xmm, m.stack)
    ensures Holds(Words(args[i]), PlaceAt(Tys(args), base, i), gp, m.xmm, m.stack)
  {
    var ts := Tys(args);
    assert ts[i] == TyOf(args[i]);
    ThunkTaken(ts, base, i);
    ThunkTaken(ts, base, i + 1);
    var p := PlaceAt(ts, base + 1, i);
    if p.InGp? {
      var n := |Words(args[i])|;
      assert PlaceAt(ts, base, i) == InGp(p.r - 1);
      forall w | p.r - 1 <= w < p.r - 1 + n ensures gp[w] == m.gp[w + 1] { }
      assert gp[p.r - 1..p.r - 1 + n] == m.gp[p.r..p.r + n];
    }
  }

  // The thunk shifts as if a result pointer came first when the result is a struct
  // over 16 bytes (ret_is_mem); the call passes one when it takes over two words.
  predicate ThunkSkips(sm: L.Structs, rank: map<string, nat>, ret: L.FTy)
    requires L.Ranked(sm, rank) && L.Known(sm, rank, ret)
  {
    ret.Struct? && L.Size(sm, rank, ret) > 16
  }

  predicate Hidden(sm: L.Structs, rank: map<string, nat>, ret: L.FTy)
    requires L.Ranked(sm, rank) && L.Known(sm, rank, ret)
  {
    L.SlotSize(L.Size(sm, rank, ret)) / 8 > 2
  }

  // They differ for an array, whose three words are not a struct: then the shift
  // starts one register early. The function still gets its result pointer,
  // whatever the registers hold, exactly when the result is no array or there is
  // nothing to shift.
  lemma ThunkHiddenExact(sm: L.Structs, rank: map<string, nat>, ret: L.FTy, k: nat)
    requires L.Ranked(sm, rank) && L.Known(sm, rank, ret) && (if Hidden(sm, rank, ret) then 1 else 0) + 1 + k <= 6
    ensures ThunkSkips(sm, rank, ret) ==> Hidden(sm, rank, ret)
    ensures var base := if ThunkSkips(sm, rank, ret) then 1 else 0;
            (forall gp: seq<Reg> :: |gp| == 6 && Hidden(sm, rank, ret) ==> Shifted(gp, base, k)[0] == gp[0]) <==> !ret.Array? || k == 0
  {
    if ret.Array? && k > 0 {
      assert Hidden(sm, rank, ret);
      var gp: seq<Reg> := [0, 1, 2, 3, 4, 5];
      assert Shifted(gp, 0, k)[0] == 1;
    }
  }
}
