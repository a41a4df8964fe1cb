/** Bytes as small numbers, exclusive or, and big-endian groups. */
module Bytes {
  type byte = b: int | 0 <= b < 256

  type bytes = seq<byte>

  /** Bitwise exclusive or of two numbers, from the lowest bit up. */
  function XorNat(a: nat, b: nat): (r: nat)
    ensures forall bound: nat :: a < bound && b < bound && IsPower(bound) ==> r < bound
  {
    if a == 0 && b == 0 then 0
    else
      var half := XorNat(a / 2, b / 2);
      assert forall bound: nat :: a < bound && b < bound && IsPower(bound) ==>
          bound > 1 && IsPower(bound / 2) && bound % 2 == 0 && a / 2 < bound / 2 && b / 2 < bound / 2;
      (a + b) % 2 + 2 * half
  }

  /** A power of two. */
  predicate IsPower(n: nat) {
    n == 1 || (n > 1 && n % 2 == 0 && IsPower(n / 2))
  }

  function Xor(a: byte, b: byte): byte {
    assert IsPower(2) && IsPower(4) && IsPower(8) && IsPower(16) && IsPower(32) && IsPower(64) && IsPower(128)
           && IsPower(256);
    XorNat(a, b)
  }

  lemma {:induction false} XorUnfold(a: nat, b: nat)
    ensures XorNat(a, b) == (a + b) % 2 + 2 * XorNat(a / 2, b / 2)
  {
    if a == 0 && b == 0 {
      assert XorNat(0, 0) == 0;
    }
  }

  lemma {:induction false} LowBit(a: nat, b: nat, half: nat, r: nat)
    requires r == (a + b) % 2 + 2 * half
    ensures r / 2 == half && (r + b) % 2 == a % 2
  {
  }

  lemma {:induction false} XorNatInvolutive(a: nat, b: nat)
    ensures XorNat(XorNat(a, b), b) == a
    decreases a + b
  {
    if a == 0 && b == 0 {
      assert XorNat(0, 0) == 0;
    } else {
      var half, r := XorNat(a / 2, b / 2), XorNat(a, b);
      XorUnfold(a, b);
      LowBit(a, b, half, r);
      XorUnfold(r, b);
      XorNatInvolutive(a / 2, b / 2);
      Halves(a);
    }
  }

  lemma {:induction false} Halves(a: nat)
    ensures a == a % 2 + 2 * (a / 2)
  {
  }

  /** Masking a byte twice with the same byte restores it. */
  lemma {:induction false} XorInvolutive(a: byte, b: byte)
    ensures Xor(Xor(a, b), b) == a
  {
    XorNatInvolutive(a, b);
  }

  /** The `width` low-order bytes of n, the highest first. */
  function BigEndian(n: nat, width: nat): (b: bytes)
    ensures |b| == width
  {
    if width == 0 then [] else BigEndian(n / 256, width - 1) + [n % 256]
  }

  /** The number that big-endian bytes denote. */
  function Value(b: bytes): nat {
    if b == [] then 0 else Value(b[..|b| - 1]) * 256 + b[|b| - 1]
  }

  function Pow256(width: nat): nat {
    if width == 0 then 1 else 256 * Pow256(width - 1)
  }

  lemma {:induction false} ValueOfBigEndian(n: nat, width: nat)
    requires n < Pow256(width)
    ensures Value(BigEndian(n, width)) == n
  {
    if width > 0 {
      ValueOfBigEndian(n / 256, width - 1);
      var b := BigEndian(n, width);
      assert b[..|b| - 1] == BigEndian(n / 256, width - 1);
    }
  }

  /** Byte groups written one after the other denote the sum of the first, shifted, and the second. */
  lemma {:induction false} ValueOfConcat(a: bytes, b: bytes)
    ensures Value(a + b) == Value(a) * Pow256(|b|) + Value(b)
  {
    if b == [] {
      assert a + b == a;
    } else {
      var n := |b| - 1;
      assert (a + b)[..|a + b| - 1] == a + b[..n];
      ValueOfConcat(a, b[..n]);
      Shift(Value(a), Pow256(n));
    }
  }

  lemma {:induction false} Shift(v: nat, p: nat)
    ensures v * p * 256 == v * (256 * p)
  {
  }
}
