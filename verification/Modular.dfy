// Remainders of unbounded integers: adding multiples of the modulus, and the
// uniqueness of quotient and remainder.
module Modular {
  lemma WrapRemainder(v: int, m: int)
    requires m > 0
    ensures (v - v % m) % m == 0 && (v - (v % m - m)) % m == 0
  {
    var q := v / m;
    assert v - v % m == q * m;
    ModAddMultiple(0, q, m);
    ModAddMultiple(0, q + 1, m);
    assert v - (v % m - m) == (q + 1) * m;
  }

  // (x + k*m) and x leave the same remainder.
  lemma {:induction false} ModAddMultiple(x: int, k: int, m: int)
    requires m > 0
    ensures (x + k * m) % m == x % m
    decreases if k < 0 then -k else k
  {
    if k > 0 {
      ModAddMultiple(x, k - 1, m);
      ModAddOne(x + (k - 1) * m, m);
      assert x + k * m == x + (k - 1) * m + m;
    } else if k < 0 {
      ModAddMultiple(x, k + 1, m);
      ModAddOne(x + k * m, m);
      assert x + (k + 1) * m == x + k * m + m;
    } else {
      assert x + k * m == x;
    }
  }

  lemma ModAddOne(x: int, m: int)
    requires m > 0
    ensures (x + m) % m == x % m
  {
    var q, r := x / m, x % m;
    assert x + m == (q + 1) * m + r;
    DivModUnique(x + m, q + 1, r, m);
  }

  // A multiple of m strictly between -m and m is zero.
  lemma SmallMultiple(k: int, m: int)
    requires m > 0
    ensures -m < k * m < m ==> k == 0
  {
    if k >= 1 {
      assert k * m >= m;
    } else if k <= -1 {
      assert k * m <= -m;
    }
  }

  lemma DivModUnique(x: int, q: int, r: int, m: int)
    requires m > 0 && 0 <= r < m && x == q * m + r
    ensures x / m == q && x % m == r
  {
    var p, s := x / m, x % m;
    assert (q - p) * m == s - r;
    SmallMultiple(q - p, m);
  }

  lemma MulMono(a: nat, b: nat, w: nat)
    requires a <= b
    ensures 0 <= a * w <= b * w && b * w == a * w + (b - a) * w
  {
    assert b * w == a * w + (b - a) * w;
  }
}
