// Names the compiler mints, and the sorted order closures lay their captures in.
module Names {
  import opened Syntax

  // strutil::str_lt: lexicographic, a proper prefix first.
  predicate StrLt(a: string, b: string) {
    if a == [] then b != []
    else if b == [] then false
    else a[0] < b[0] || (a[0] == b[0] && StrLt(a[1..], b[1..]))
  }

  lemma {:induction false} StrLtTotal(a: string, b: string)
    ensures a == b || StrLt(a, b) || StrLt(b, a)
    decreases a
  {
    if a != [] && b != [] && a[0] == b[0] {
      StrLtTotal(a[1..], b[1..]);
      assert a == [a[0]] + a[1..] && b == [b[0]] + b[1..];
    }
  }

  lemma {:induction false} StrLtAsymmetric(a: string, b: string)
    requires StrLt(a, b)
    ensures !StrLt(b, a)
    decreases a
  {
    if a != [] && b != [] && a[0] == b[0] {
      StrLtAsymmetric(a[1..], b[1..]);
    }
  }

  lemma {:induction false} StrLtTransitive(a: string, b: string, c: string)
    requires StrLt(a, b) && StrLt(b, c)
    ensures StrLt(a, c)
    decreases a
  {
    if a != [] && b != [] && c != [] && a[0] == b[0] && b[0] == c[0] {
      StrLtTransitive(a[1..], b[1..], c[1..]);
    }
  }

  predicate IsLeast(x: string, s: set<string>) {
    x in s && forall y | y in s :: y == x || StrLt(x, y)
  }

  lemma {:induction false} LeastExists(s: set<string>) returns (x: string)
    requires s != {}
    ensures IsLeast(x, s)
    decreases s
  {
    var e :| e in s;
    if s == {e} {
      return e;
    }
    assert s == {e} + (s - {e});
    x := LeastExists(s - {e});
    StrLtTotal(e, x);
    if StrLt(e, x) {
      forall y | y in s ensures y == e || StrLt(e, y) {
        if y != e && y != x { StrLtTransitive(e, x, y); }
      }
      x := e;
    }
  }

  lemma LeastUnique(x: string, y: string, s: set<string>)
    requires IsLeast(x, s) && IsLeast(y, s)
    ensures x == y
  {
    if x != y { StrLtAsymmetric(x, y); }
  }

  // strutil::sorted over the keys of a set.
  function SortedNames(s: set<string>): (r: seq<string>)
    ensures forall x :: x in r <==> x in s
    ensures |r| == |s|
    ensures forall i, j :: 0 <= i < j < |r| ==> StrLt(r[i], r[j])
  {
    if s == {} then []
    else
      assert exists x :: IsLeast(x, s) by { var x := LeastExists(s); }
      var x :| IsLeast(x, s);
      assert forall y :: IsLeast(y, s) ==> y == x by {
        forall y | IsLeast(y, s) ensures y == x { LeastUnique(x, y, s); }
      }
      var rest := SortedNames(s - {x});
      assert forall j | 0 <= j < |rest| :: rest[j] in rest;
      [x] + rest
  }

  // cl_<module>__<name>
  function Mangle(m: string, n: string): string { "cl_" + m + "__" + n }

  function UniqName(base: string, n: nat): string { base + "_" + Dec(n) }

  function LambdaName(m: string, n: nat): string { Mangle(m, "0lambda" + Dec(n)) }

  // ----- counters can be read back from the names -----

  // A string that does not end in a digit, followed by a counter.
  lemma {:induction false} TrailOfDec(s: string, n: nat)
    requires s == [] || !IsDigit(s[|s| - 1])
    ensures TrailNum(s + Dec(n)) == n
    ensures TrailRest(s + Dec(n)) == s
    decreases n
  {
    var t := s + Dec(n);
    if n < 10 {
      assert t[..|t| - 1] == s;
    } else {
      TrailOfDec(s, n / 10);
      assert t[..|t| - 1] == s + Dec(n / 10);
    }
  }

  lemma StampOfUniq(base: string, n: nat)
    ensures Stamp(UniqName(base, n)) == n
  {
    TrailOfDec(base + "_", n);
    assert UniqName(base, n) == (base + "_") + Dec(n);
  }

  // uniq mints pairwise distinct names: both the base and the counter can be read back.
  lemma UniqInjective(b1: string, n1: nat, b2: string, n2: nat)
    ensures UniqName(b1, n1) == UniqName(b2, n2) <==> b1 == b2 && n1 == n2
  {
    TrailOfDec(b1 + "_", n1);
    TrailOfDec(b2 + "_", n2);
    assert UniqName(b1, n1) == (b1 + "_") + Dec(n1);
    assert UniqName(b2, n2) == (b2 + "_") + Dec(n2);
    assert (b1 + "_")[..|b1|] == b1 && (b2 + "_")[..|b2|] == b2;
  }

  // Lifted lambdas of a module have distinct symbols, and none is a user function's.
  lemma LambdaNameInjective(m: string, n1: nat, n2: nat)
    requires LambdaName(m, n1) == LambdaName(m, n2)
    ensures n1 == n2
  {
    var pre := "cl_" + m + "__" + "0lambda";
    assert LambdaName(m, n1) == pre + Dec(n1) && LambdaName(m, n2) == pre + Dec(n2);
    TrailOfDec(pre, n1);
    TrailOfDec(pre, n2);
  }

  lemma LambdaNotUser(m: string, n: nat, f: string)
    requires f == [] || !IsDigit(f[0])
    ensures LambdaName(m, n) != Mangle(m, f)
  {
    var pre := "cl_" + m + "__";
    assert LambdaName(m, n) == pre + ("0lambda" + Dec(n)) && Mangle(m, f) == pre + f;
    assert LambdaName(m, n)[|pre|] == '0' && |LambdaName(m, n)| > |pre| + 7;
    assert f != [] ==> Mangle(m, f)[|pre|] == f[0];
  }

  lemma MangleInjective(m: string, f: string, g: string)
    requires Mangle(m, f) == Mangle(m, g)
    ensures f == g
  {
    var pre := "cl_" + m + "__";
    assert Mangle(m, f) == pre + f && Mangle(m, g) == pre + g;
    assert (pre + f)[|pre|..] == f && (pre + g)[|pre|..] == g;
  }
}
