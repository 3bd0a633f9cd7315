/** Unsigned bit arithmetic and remainders on unbounded numbers: what masks, shifts and wrapped counters mean. */
module Bits {
  function Exp(k: nat): (n: nat)
    ensures 0 < n
  {
    if k == 0 then 1 else 2 * Exp(k - 1)
  }

  ghost predicate PowerOfTwo(n: nat) { exists k: nat :: Exp(k) == n }

  function And(x: nat, y: nat): nat
    decreases y
  {
    if y == 0 then 0 else x % 2 * (y % 2) + 2 * And(x / 2, y / 2)
  }

  function Or(x: nat, y: nat): nat
    decreases x + y
  {
    if x == 0 && y == 0 then 0 else (if x % 2 + y % 2 == 0 then 0 else 1) + 2 * Or(x / 2, y / 2)
  }

  function BitWidth(n: nat): nat { if n == 0 then 0 else 1 + BitWidth(n / 2) }

  function Wrap(x: nat, capacity: nat): nat { if x < capacity then x else x - capacity }

  lemma {:induction false} MaskBits(x: nat, k: nat)
    requires x < 2 * Exp(k)
    ensures And(x, Exp(k) - 1) == Wrap(x, Exp(k)) < Exp(k)
  {
    if 0 < k {
      MaskBits(x / 2, k - 1);
      assert (Exp(k) - 1) / 2 == Exp(k - 1) - 1 && (Exp(k) - 1) % 2 == 1;
    }
  }

  /** Masking with capacity - 1 is one turn around a ring of that many slots. */
  lemma MaskWraps(x: nat, capacity: nat)
    requires PowerOfTwo(capacity) && x < 2 * capacity
    ensures And(x, capacity - 1) == Wrap(x, capacity) < capacity
  {
    var k :| Exp(k) == capacity;
    MaskBits(x, k);
  }

  /** Setting a bit above everything in y adds it. */
  lemma {:induction false} OrAbove(k: nat, y: nat)
    requires y < Exp(k)
    ensures Or(Exp(k), y) == Exp(k) + y
  {
    if k == 0 {
      assert Or(1, 0) == 1 + 2 * Or(0, 0);
    } else {
      OrAbove(k - 1, y / 2);
    }
  }

  lemma {:induction false} ExpDoubles(j: nat, k: nat)
    requires j < k
    ensures 2 * Exp(j) <= Exp(k)
  {
    if j + 1 < k { ExpDoubles(j, k - 1); }
  }

  lemma {:induction false} ExpSum(j: nat, k: nat)
    ensures Exp(j) * Exp(k) == Exp(j + k)
  {
    if j != 0 { ExpSum(j - 1, k); }
  }

  /** Between two different powers of two there is a factor of two. */
  lemma PowersApart(n: nat, m: nat)
    requires PowerOfTwo(n) && PowerOfTwo(m) && n < m
    ensures 2 * n <= m && PowerOfTwo(2 * n) && PowerOfTwo(m / 2) && m == 2 * (m / 2)
  {
    var j: nat :| Exp(j) == n;
    var k: nat :| Exp(k) == m;
    if k < j { ExpDoubles(k, j); }
    ExpDoubles(j, k);
    assert Exp(j + 1) == 2 * n && Exp(k - 1) == m / 2;
  }

  lemma {:induction false} WidthBounds(n: nat)
    ensures n < Exp(BitWidth(n))
  {
    if n != 0 { WidthBounds(n / 2); }
  }

  lemma {:induction false} WidthFits(n: nat, k: nat)
    requires n < Exp(k)
    ensures BitWidth(n) <= k
  {
    if n != 0 { WidthFits(n / 2, k - 1); }
  }

  lemma Thirty()
    ensures Exp(30) == 0x4000_0000 && Exp(31) == 0x8000_0000
  {
    assert Exp(10) == 1024;
    assert Exp(20) == 0x10_0000;
  }

  // ---------------------------------------------------------------- remainders

  lemma MulMono(a: nat, b: nat, c: nat)
    requires a <= b
    ensures a * c <= b * c
  {
  }

  lemma MulStep(a: nat, b: nat, c: nat)
    requires a < b
    ensures a * c + c <= b * c
  {
    MulMono(a + 1, b, c);
  }

  lemma ModUnique(x: nat, q: nat, d: nat, k: nat)
    requires x == q * d + k && k < d
    ensures x % d == k
  {
    if q < x / d { MulMono(q + 1, x / d, d); }
    if x / d < q { MulMono(x / d + 1, q, d); }
  }

  lemma Split(x: nat, d: nat)
    requires 0 < d
    ensures x == x / d * d + x % d && x % d < d
  {
  }

  /** Some step ahead of from has the wanted remainder. */
  lemma StepTo(from: nat, size: nat, k: nat) returns (n: nat)
    requires k < size
    ensures n < size && (from + n) % size == k
  {
    Split(from, size);
    var r, q := from % size, from / size;
    if r <= k {
      n := k - r;
      ModUnique(from + n, q, size, k);
    } else {
      n := k - r + size;
      assert (q + 1) * size == q * size + size;
      ModUnique(from + n, q + 1, size, k);
    }
  }
}
