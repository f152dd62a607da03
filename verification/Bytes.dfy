/** Byte strings, little-endian numbers and exclusive or. */
module Bytes {
  import opened Arith

  type byte = b: int | 0 <= b < 256
  type bytes = seq<byte>

  /** The k low-order bytes of n, least significant first. */
  function LE(n: nat, k: nat): (r: bytes)
    ensures |r| == k
  {
    if k == 0 then [] else [n % 256] + LE(n / 256, k - 1)
  }

  function FromLE(s: bytes): nat {
    if s == [] then 0 else s[0] + 256 * FromLE(s[1..])
  }

  function Pow256(k: nat): nat {
    if k == 0 then 1 else 256 * Pow256(k - 1)
  }

  lemma {:induction false} LERoundTrip(n: nat, k: nat)
    requires n < Pow256(k)
    ensures FromLE(LE(n, k)) == n
  {
    if k > 0 {
      LERoundTrip(n / 256, k - 1);
      assert LE(n, k)[1..] == LE(n / 256, k - 1);
    }
  }

  /** Bytes are determined by the number they spell. */
  lemma {:induction false} FromLERoundTrip(s: bytes)
    ensures LE(FromLE(s), |s|) == s
  {
    if s != [] {
      var head, rest := s[0], FromLE(s[1..]);
      FromLERoundTrip(s[1..]);
      LowByte(head, rest);
      assert LE(FromLE(s), |s|) == [head] + LE(rest, |s| - 1);
    }
  }

  lemma LowByte(low: byte, high: nat)
    ensures (low + 256 * high) % 256 == low && (low + 256 * high) / 256 == high
  {
  }

  lemma LE4(n: uint32)
    ensures FromLE(LE(n, 4)) == n
  {
    assert Pow256(4) == 0x1_0000_0000 by {
      assert Pow256(2) == 0x1_0000;
    }
    LERoundTrip(n, 4);
  }

  lemma LE8(n: uint64)
    ensures FromLE(LE(n, 8)) == n
  {
    assert Pow256(8) == 0x1_0000_0000_0000_0000 by {
      assert Pow256(2) == 0x1_0000;
      assert Pow256(4) == 0x1_0000_0000;
      assert Pow256(6) == 0x1_0000_0000_0000;
    }
    LERoundTrip(n, 8);
  }

  /** Bitwise exclusive or of two k-bit numbers. */
  function Xor(k: nat, a: nat, b: nat): (r: nat)
    requires a < Pow2(k) && b < Pow2(k)
    ensures r < Pow2(k)
  {
    if k == 0 then 0 else 2 * Xor(k - 1, a / 2, b / 2) + if a % 2 != b % 2 then 1 else 0
  }

  /** Applying the same mask twice gives the number back. */
  lemma {:induction false} XorTwice(k: nat, a: nat, b: nat)
    requires a < Pow2(k) && b < Pow2(k)
    ensures Xor(k, Xor(k, a, b), b) == a
  {
    if k > 0 {
      XorTwice(k - 1, a / 2, b / 2);
    }
  }

  function XorByte(a: byte, b: byte): byte {
    Pow2Values();
    Xor(8, a, b)
  }

  function XorWord(a: uint64, b: uint64): uint64 {
    Pow2Values();
    Xor(64, a, b)
  }

  lemma XorByteTwice(a: byte, b: byte)
    ensures XorByte(XorByte(a, b), b) == a
  {
    Pow2Values();
    XorTwice(8, a, b);
  }
}
