/** Blocks of a fixed size: QEMU_ALIGN_DOWN and QEMU_ALIGN_UP and when two offsets share a block. */
module Alignment {

  function Min(a: int, b: int): int {
    if a < b then a else b
  }

  function Max(a: int, b: int): int {
    if a < b then b else a
  }

  function AlignDown(x: nat, a: nat): (r: nat)
    requires a > 0
    ensures r <= x < r + a && r % a == 0
  {
    BlockOf(x, a);
    x / a * a
  }

  function AlignUp(x: nat, a: nat): (r: nat)
    requires a > 0
    ensures x <= r < x + a && r % a == 0
  {
    AlignDown(x + a - 1, a)
  }

  /** The start of the block that holds `x`. */
  lemma BlockOf(x: nat, a: nat)
    requires a > 0
    ensures x / a * a <= x < x / a * a + a
    ensures x / a * a % a == 0
  {
    MultipleMod(x / a, a);
  }

  lemma {:induction false} MultipleMod(k: nat, a: nat)
    requires a > 0
    ensures k * a % a == 0
  {
    if k > 0 {
      MultipleMod(k - 1, a);
      assert k * a == (k - 1) * a + a;
      AddBlock((k - 1) * a, a);
    }
  }

  lemma AddBlock(i: nat, a: nat)
    requires a > 0
    ensures (i + a) % a == i % a
    ensures (i + a) / a == i / a + 1
  {
    var q := i / a;
    var r := i % a;
    assert i + a == (q + 1) * a + r;
    DivModUnique(i + a, a, q + 1, r);
  }

  lemma DivModUnique(x: int, a: int, q: int, r: int)
    requires a > 0 && 0 <= r < a && x == q * a + r
    ensures x / a == q && x % a == r
  {
    var d := x / a - q;
    assert d * a == r - x % a;
    assert d >= 1 ==> d * a >= a;
    assert d <= -1 ==> d * a <= 0 - a;
  }

  /** Sums and differences of aligned offsets are aligned. */
  lemma AlignedSum(x: nat, y: nat, a: nat)
    requires a > 0 && x % a == 0 && y % a == 0
    ensures (x + y) % a == 0
  {
    var p := x / a;
    var q := y / a;
    assert x + y == (p + q) * a;
    MultipleMod(p + q, a);
  }

  lemma AlignedDifference(x: nat, y: nat, a: nat)
    requires a > 0 && x % a == 0 && y % a == 0 && y <= x
    ensures (x - y) % a == 0
  {
    var p := x / a;
    var q := y / a;
    assert x - y == (p - q) * a;
    assert p < q ==> (p - q) * a <= 0 - a;
    MultipleMod(p - q, a);
  }

  /** No aligned offset lies strictly inside a block. */
  lemma InsideBlock(i: nat, j: nat, a: nat)
    requires a > 0 && i % a == 0 && i < j < i + a
    ensures j % a != 0 && j / a == i / a
  {
    DivModUnique(j, a, i / a, j - i);
  }

  /** An aligned boundary separates blocks: two offsets of one block are on the same side. */
  lemma SameSide(i: nat, j: nat, boundary: nat, a: nat)
    requires a > 0 && boundary % a == 0 && i / a == j / a
    ensures i < boundary <==> j < boundary
  {
    var q := boundary / a;
    assert boundary == q * a;
    BelowBoundary(i, q, a);
    BelowBoundary(j, q, a);
  }

  lemma BelowBoundary(i: nat, q: nat, a: nat)
    requires a > 0
    ensures i < q * a <==> i / a < q
  {
    BlockOf(i, a);
    if i / a < q { assert (i / a + 1) * a <= q * a; }
    if i / a >= q { assert i / a * a >= q * a; }
  }
}
