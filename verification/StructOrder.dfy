// order_structs of compiler/backend_c.cardinal: a depth-first walk that emits a
// struct after the structs it embeds by value.
module StructOrder {
  // `deps` are the struct types of the fields; names the module does not define
  // are skipped.
  datatype StructDef = StructDef(name: string, deps: seq<string>)

  type ByName = map<string, StructDef>

  predicate Consistent(defs: ByName) { forall n :: n in defs ==> defs[n].name == n }

  // By-value embedding has no cycle: every dependency has a lower rank.
  predicate Acyclic(defs: ByName, rank: map<string, nat>) {
    && defs.Keys <= rank.Keys
    && forall n :: n in defs ==> forall i :: 0 <= i < |defs[n].deps| ==> Lower(defs, rank, n, defs[n].deps[i])
  }

  predicate Lower(defs: ByName, rank: map<string, nat>, n: string, dep: string)
    requires n in rank
  {
    dep in defs ==> dep in rank && rank[dep] < rank[n]
  }

  function Names(ss: seq<StructDef>): set<string> { set s | s in ss :: s.name }

  ghost predicate DistinctNames(ss: seq<StructDef>) { forall i, j :: 0 <= i < j < |ss| ==> ss[i].name != ss[j].name }

  // Every struct's embedded structs come before it.
  ghost predicate DepsFirst(defs: ByName, ss: seq<StructDef>) {
    forall i :: 0 <= i < |ss| ==> forall k :: 0 <= k < |ss[i].deps| && ss[i].deps[k] in defs ==> ss[i].deps[k] in Names(ss[..i])
  }

  // What has been emitted is what has been seen, less the structs being visited.
  ghost predicate Emitted(defs: ByName, seen: set<string>, ordered: seq<StructDef>, grey: set<string>) {
    && seen <= defs.Keys && grey <= seen && Names(ordered) == seen - grey && DistinctNames(ordered)
    && forall s :: s in ordered ==> s.name in defs && defs[s.name] == s
  }

  lemma NamesPush(ss: seq<StructDef>, s: StructDef)
    ensures Names(ss + [s]) == Names(ss) + {s.name}
  {
    forall n | n in Names(ss) + {s.name} ensures n in Names(ss + [s]) {
      if n == s.name {
        assert s in ss + [s];
      } else {
        var t :| t in ss && t.name == n;
        assert t in ss + [s];
      }
    }
  }

  lemma PushKeeps(defs: ByName, seen: set<string>, ordered: seq<StructDef>, grey: set<string>, s: StructDef)
    requires Emitted(defs, seen, ordered, grey) && s.name in grey && s.name in defs && defs[s.name] == s
    ensures Emitted(defs, seen, ordered + [s], grey - {s.name})
  {
    NamesPush(ordered, s);
    forall i | 0 <= i < |ordered| ensures ordered[i].name != s.name { assert ordered[i] in ordered; }
  }

  lemma PushDeps(defs: ByName, ordered: seq<StructDef>, s: StructDef)
    requires DepsFirst(defs, ordered) && forall k :: 0 <= k < |s.deps| && s.deps[k] in defs ==> s.deps[k] in Names(ordered)
    ensures DepsFirst(defs, ordered + [s])
  {
    var o := ordered + [s];
    forall i | 0 <= i < |o|
      ensures forall k :: 0 <= k < |o[i].deps| && o[i].deps[k] in defs ==> o[i].deps[k] in Names(o[..i])
    {
      assert o[..i] == if i < |ordered| then ordered[..i] else ordered;
    }
  }

  class Orderer {
    const defs: ByName
    var seen: set<string>
    var ordered: seq<StructDef>

    constructor (defs: ByName)
      ensures this.defs == defs && seen == {} && ordered == []
    {
      this.defs := defs;
      seen, ordered := {}, [];
    }

    // visit_struct. `grey` are the structs whose visit is under way.
    method Visit(s: StructDef, ghost grey: set<string>, ghost rank: map<string, nat>)
      requires Consistent(defs) && Emitted(defs, seen, ordered, grey) && s.name in defs && defs[s.name] == s
      requires Acyclic(defs, rank) ==> DepsFirst(defs, ordered) && forall g :: g in grey ==> rank[g] > rank[s.name]
      modifies this
      ensures Emitted(defs, seen, ordered, grey) && s.name in seen && old(seen) <= seen && old(ordered) <= ordered
      ensures Acyclic(defs, rank) ==> DepsFirst(defs, ordered)
      decreases defs.Keys - seen
    {
      if s.name in seen { return; }
      seen := seen + {s.name};
      ghost var grey1 := grey + {s.name};
      var i := 0;
      while i < |s.deps|
        invariant 0 <= i <= |s.deps| && Emitted(defs, seen, ordered, grey1) && old(seen) + {s.name} <= seen && old(ordered) <= ordered
        invariant Acyclic(defs, rank) ==> DepsFirst(defs, ordered)
        invariant Acyclic(defs, rank) ==> forall k :: 0 <= k < i && s.deps[k] in defs ==> s.deps[k] in Names(ordered)
      {
        ghost var before := ordered;
        var dep := s.deps[i];
        if Acyclic(defs, rank) { assert Lower(defs, rank, s.name, dep); }
        if dep in defs {
          Visit(defs[dep], grey1, rank);
          NamesGrow(before, ordered);
        }
        i := i + 1;
      }
      if Acyclic(defs, rank) { PushDeps(defs, ordered, s); }
      PushKeeps(defs, seen, ordered, grey1, s);
      assert grey1 - {s.name} == grey;
      ordered := ordered + [s];
    }
  }

  lemma NamesGrow(a: seq<StructDef>, b: seq<StructDef>)
    requires a <= b
    ensures Names(a) <= Names(b)
  {
    forall n | n in Names(a) ensures n in Names(b) {
      var t :| t in a && t.name == n;
      var i :| 0 <= i < |a| && a[i] == t;
      assert b[i] == t;
    }
  }

  function Table(ss: seq<StructDef>): ByName {
    if ss == [] then map[] else Table(ss[..|ss| - 1])[ss[|ss| - 1].name := ss[|ss| - 1]]
  }

  lemma {:induction false} TableHas(ss: seq<StructDef>)
    requires DistinctNames(ss)
    ensures Table(ss).Keys == Names(ss) && Consistent(Table(ss)) && forall s :: s in ss ==> s.name in Table(ss) && Table(ss)[s.name] == s
    decreases |ss|
  {
    if ss != [] {
      var front, last := ss[..|ss| - 1], ss[|ss| - 1];
      TableHas(front);
      assert ss == front + [last];
      NamesPush(front, last);
      forall s | s in ss ensures s.name in Table(ss) && Table(ss)[s.name] == s {
        if s != last {
          var i :| 0 <= i < |ss| && ss[i] == s;
          assert front[i] == s;
        }
      }
    }
  }

  // order_structs: on any graph each struct comes out exactly once; on an acyclic
  // one every struct comes after those it embeds.
  method OrderStructs(structs: seq<StructDef>, ghost rank: map<string, nat>) returns (ordered: seq<StructDef>)
    requires DistinctNames(structs)
    ensures DistinctNames(ordered) && forall s :: s in ordered <==> s in structs
    ensures Acyclic(Table(structs), rank) ==> DepsFirst(Table(structs), ordered)
  {
    TableHas(structs);
    var defs := Table(structs);
    var o := new Orderer(defs);
    var i := 0;
    assert Names([]) == {};
    while i < |structs|
      invariant 0 <= i <= |structs| && o.defs == defs && fresh(o)
      invariant Emitted(defs, o.seen, o.ordered, {}) && forall k :: 0 <= k < i ==> structs[k].name in o.seen
      invariant Acyclic(defs, rank) ==> DepsFirst(defs, o.ordered)
    {
      assert structs[i] in structs;
      o.Visit(structs[i], {}, rank);
      i := i + 1;
    }
    ordered := o.ordered;
    AllOut(structs, defs, o.seen, ordered);
  }

  lemma AllOut(structs: seq<StructDef>, defs: ByName, seen: set<string>, ordered: seq<StructDef>)
    requires DistinctNames(structs) && defs == Table(structs) && Emitted(defs, seen, ordered, {})
    requires forall k :: 0 <= k < |structs| ==> structs[k].name in seen
    ensures forall s :: s in ordered <==> s in structs
  {
    TableHas(structs);
    forall s | s in structs ensures s in ordered {
      var k :| 0 <= k < |structs| && structs[k] == s;
      assert s.name in Names(ordered);
      var t :| t in ordered && t.name == s.name;
    }
    forall s | s in ordered ensures s in structs {
      assert s.name in Names(structs);
      var t :| t in structs && t.name == s.name;
    }
  }
}
