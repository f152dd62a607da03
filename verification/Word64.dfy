/** Bits of a Go `uint64`, as arithmetic modulo 2^64.

    The Go specification defines shifts as repetition: shifting by n behaves as if the
    operand were shifted n times by 1, so `Shr` halves n times and `Shl` doubles n times
    modulo 2^64.  The lemmas give the position of every bit after a shift, an or, and a
    single-bit mask. */
module Word64 {
  import opened Arith

  /** Bit k of w, counted from the least significant one. */
  predicate Bit(w: nat, k: nat) {
    if k == 0 then w % 2 == 1 else Bit(w / 2, k - 1)
  }

  function Shr(w: uint64, n: nat): uint64 {
    if n == 0 then w else Shr(w / 2, n - 1)
  }

  function Double(w: uint64): uint64 {
    if w < TWO_63 then 2 * w else 2 * w - TWO_64
  }

  function Shl(w: uint64, n: nat): uint64 {
    if n == 0 then w else Double(Shl(w, n - 1))
  }

  /** Bitwise or of two numbers below 2^n. */
  function OrBelow(n: nat, a: nat, b: nat): (r: nat)
    requires a < Pow2(n) && b < Pow2(n)
    ensures r < Pow2(n)
  {
    if n == 0 then 0
    else 2 * OrBelow(n - 1, a / 2, b / 2) + if a % 2 == 1 || b % 2 == 1 then 1 else 0
  }

  function Or(a: uint64, b: uint64): uint64 {
    Pow2Values();
    OrBelow(64, a, b)
  }

  lemma {:induction false} BitZero(k: nat)
    ensures !Bit(0, k)
  {
    if k > 0 {
      BitZero(k - 1);
    }
  }

  /** No bit lies beyond the width. */
  lemma {:induction false} BitBeyond(w: nat, n: nat, k: nat)
    requires w < Pow2(n) && k >= n
    ensures !Bit(w, k)
  {
    if n == 0 {
      BitZero(k);
    } else {
      BitBeyond(w / 2, n - 1, k - 1);
    }
  }

  lemma {:induction false} BitOrBelow(n: nat, a: nat, b: nat, k: nat)
    requires a < Pow2(n) && b < Pow2(n) && k < n
    ensures Bit(OrBelow(n, a, b), k) <==> Bit(a, k) || Bit(b, k)
  {
    if k > 0 {
      BitOrBelow(n - 1, a / 2, b / 2, k - 1);
    }
  }

  lemma BitOr(a: uint64, b: uint64, k: nat)
    requires k < 64
    ensures Bit(Or(a, b), k) <==> Bit(a, k) || Bit(b, k)
  {
    Pow2Values();
    BitOrBelow(64, a, b, k);
  }

  lemma {:induction false} BitShr(w: uint64, n: nat, k: nat)
    ensures Bit(Shr(w, n), k) <==> Bit(w, n + k)
  {
    if n > 0 {
      BitShr(w / 2, n - 1, k);
    }
  }

  /** Taking away the top bit leaves the lower ones. */
  lemma {:induction false} BitBelowTop(w: nat, n: nat, k: nat)
    requires Pow2(n) <= w && k < n
    ensures Bit(w - Pow2(n), k) <==> Bit(w, k)
  {
    if k > 0 {
      assert (w - Pow2(n)) / 2 == w / 2 - Pow2(n - 1);
      BitBelowTop(w / 2, n - 1, k - 1);
    }
  }

  lemma BitDouble(w: uint64, k: nat)
    requires k < 64
    ensures Bit(Double(w), k) <==> k > 0 && Bit(w, k - 1)
  {
    Pow2Values();
    if k > 0 && w >= TWO_63 {
      BitBelowTop(w, 63, k - 1);
    }
  }

  lemma {:induction false} BitShl(w: uint64, n: nat, k: nat)
    requires k < 64
    ensures Bit(Shl(w, n), k) <==> k >= n && Bit(w, k - n)
  {
    if n > 0 {
      BitDouble(Shl(w, n - 1), k);
      if k > 0 {
        BitShl(w, n - 1, k - 1);
      }
    }
  }

  /** One word of a multiword right shift by 0 < n < 64: its upper n bits come from the word
      above, the others from the word itself. */
  lemma BitShiftPair(low: uint64, high: uint64, n: nat, k: nat)
    requires 0 < n < 64 && k < 64
    ensures Bit(Or(Shr(low, n), Shl(high, 64 - n)), k)
            <==> if n + k < 64 then Bit(low, n + k) else Bit(high, n + k - 64)
  {
    BitOr(Shr(low, n), Shl(high, 64 - n), k);
    BitShiftTop(low, n, k);
    BitShl(high, 64 - n, k);
  }

  /** The same word when there is none above it. */
  lemma BitShiftTop(low: uint64, n: nat, k: nat)
    requires n < 64 && k < 64
    ensures Bit(Shr(low, n), k) <==> n + k < 64 && Bit(low, n + k)
  {
    BitShr(low, n, k);
    if n + k >= 64 {
      Pow2Values();
      BitBeyond(low, 64, n + k);
    }
  }

  /** Setting bit n. */
  lemma BitSet(w: uint64, n: nat, k: nat)
    requires k < 64
    ensures Bit(Or(w, Shl(1, n)), k) <==> k == n || Bit(w, k)
  {
    BitOr(w, Shl(1, n), k);
    BitShl(1, n, k);
    if k > n {
      BitZero(k - n - 1);
    }
  }
}
