// Generational handles (bootstrap/runtime/cardinal_gc.c): a tag, a 16-bit
// generation and a 32-bit table index packed into one 64-bit word.
module Handles {
  const TAG: int := 0xCA11
  const GENS: int := 0x1_0000
  const INDEXES: int := 0x1_0000_0000

  const U64: int := 0x1_0000_0000_0000_0000

  type Word = w: int | 0 <= w < U64

  function MkHandle(g: nat, i: nat): Word
    requires g < GENS && i < INDEXES
  {
    (TAG * GENS + g) * INDEXES + i
  }

  function TagOf(w: Word): nat { w / INDEXES / GENS }

  function GenOf(w: Word): nat { w / INDEXES % GENS }

  function IdxOf(w: Word): nat { w % INDEXES }

  // A handle gives back what it was made of; it is never null.
  lemma Unpack(g: nat, i: nat)
    requires g < GENS && i < INDEXES
    ensures var h := MkHandle(g, i); TagOf(h) == TAG && GenOf(h) == g && IdxOf(h) == i && h != 0
  {
    var h := MkHandle(g, i);
    assert h / INDEXES == TAG * GENS + g;
  }

  lemma HandlesDiffer(g: nat, i: nat, g2: nat, i2: nat)
    requires g < GENS && i < INDEXES && g2 < GENS && i2 < INDEXES
    ensures MkHandle(g, i) == MkHandle(g2, i2) <==> g == g2 && i == i2
  {
    Unpack(g, i);
    Unpack(g2, i2);
  }

  // Generations count modulo 65536.
  lemma SmallGen(a: nat)
    requires a < GENS
    ensures a % GENS == a
  {
  }

  lemma BumpGen(a: nat, n: nat, d: nat)
    ensures ((a + n) % GENS + d) % GENS == (a + (n + d)) % GENS
  {
    var q := (a + n) / GENS;
    assert a + n == q * GENS + (a + n) % GENS;
  }

  lemma SameGen(a: nat, n: nat)
    requires a < GENS
    ensures (a + n) % GENS == a <==> n % GENS == 0
  {
    var q, r := n / GENS, n % GENS;
    assert a + n == q * GENS + (a + r);
  }
}
