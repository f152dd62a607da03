/** Facts about division, powers of two and set sizes, and the limits of machine integers. */
module Arith {
  const TWO_32: nat := 0x1_0000_0000
  const TWO_63: int := 0x8000_0000_0000_0000
  const TWO_64: int := 0x1_0000_0000_0000_0000
  const MAX_INT64: int := 0x7FFF_FFFF_FFFF_FFFF

  type uint32 = n: int | 0 <= n < TWO_32
  type uint64 = n: int | 0 <= n < TWO_64

  lemma Cancel(d: int, p: int, q: int)
    requires d > 0 && d * p < d * q
    ensures p < q
  {
  }

  lemma DivMonotone(a: int, b: int, d: int)
    requires d > 0 && a <= b
    ensures a / d <= b / d
  {
    assert d * (a / d) < d * (b / d + 1) by {
      assert d * (b / d + 1) == d * (b / d) + d;
    }
    Cancel(d, a / d, b / d + 1);
  }

  lemma DivExact(q: int, d: nat)
    requires d > 0
    ensures q * d / d == q
    ensures q * d % d == 0
  {
    var r, m := q * d / d, q * d % d;
    assert d * (q - r) == m;
    NoWholeMultipleBelow(d, q - r);
  }

  lemma NoWholeMultipleBelow(d: nat, z: int)
    requires 0 <= d * z < d
    ensures z == 0
  {
  }

  lemma DivAtMost(a: int, most: int, d: nat)
    requires d > 0 && 0 <= a <= most * d
    ensures 0 <= a / d <= most
  {
    DivExact(most, d);
    DivMonotone(a, most * d, d);
    DivMonotone(0, a, d);
  }

  lemma MultiplePlus(a: int, n: int, d: nat)
    requires d > 0 && a % d == 0
    ensures (a + n * d) % d == 0
  {
    assert a + n * d == (a / d + n) * d;
    DivExact(a / d + n, d);
  }

  lemma MultipleMinus(a: int, b: int, d: nat)
    requires d > 0 && a % d == 0 && b % d == 0
    ensures (a - b) % d == 0
  {
    assert a - b == (a / d - b / d) * d;
    DivExact(a / d - b / d, d);
  }

  lemma {:induction false} SubsetSize<T>(a: set<T>, b: set<T>)
    requires a <= b
    ensures |a| <= |b|
  {
    if a != {} {
      var x :| x in a;
      SubsetSize(a - {x}, b - {x});
    }
  }

  function Pow2(k: nat): nat {
    if k == 0 then 1 else 2 * Pow2(k - 1)
  }

  lemma Pow2Values()
    ensures Pow2(8) == 256
    ensures Pow2(63) == 0x8000_0000_0000_0000
    ensures Pow2(64) == 0x1_0000_0000_0000_0000
  {
    assert Pow2(4) == 16;
    assert Pow2(16) == 0x1_0000 by {
      assert Pow2(12) == 0x1000;
    }
    assert Pow2(32) == 0x1_0000_0000 by {
      assert Pow2(24) == 0x100_0000;
    }
    assert Pow2(48) == 0x1_0000_0000_0000 by {
      assert Pow2(40) == 0x100_0000_0000;
    }
    assert Pow2(56) == 0x100_0000_0000_0000;
  }
}
