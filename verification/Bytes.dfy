/** Bytes, their exclusive or, and big-endian integers. */
module Bytes {

  type byte = b: int | 0 <= b < 256

  type bytes = seq<byte>

  function Pow2(k: nat): (p: nat)
    ensures p > 0
  {
    if k == 0 then 1 else 2 * Pow2(k - 1)
  }

  /** The exclusive or of the `k` low bits of `a` and `b`. */
  function XorBits(a: nat, b: nat, k: nat): (r: nat)
    ensures r < Pow2(k)
  {
    if k == 0 then 0
    else (if a % 2 == b % 2 then 0 else 1) + 2 * XorBits(a / 2, b / 2, k - 1)
  }

  lemma {:induction false} XorBitsTwice(a: nat, b: nat, k: nat)
    requires a < Pow2(k)
    ensures XorBits(XorBits(a, b, k), b, k) == a
  {
    if k > 0 {
      XorBitsTwice(a / 2, b / 2, k - 1);
      var r := XorBits(a, b, k);
      assert r % 2 == (if a % 2 == b % 2 then 0 else 1) && r / 2 == XorBits(a / 2, b / 2, k - 1);
    }
  }

  lemma Pow2Eight()
    ensures Pow2(8) == 256
  {
    assert Pow2(4) == 16;
  }

  function Xor(a: byte, b: byte): byte {
    Pow2Eight();
    XorBits(a, b, 8)
  }

  lemma XorTwice(a: byte, b: byte)
    ensures Xor(Xor(a, b), b) == a
  {
    Pow2Eight();
    XorBitsTwice(a, b, 8);
  }

  /** Dividing by one number and then by another. */
  lemma DivideTwice(n: nat, a: nat, p: nat)
    requires a > 0 && p > 0
    ensures n / (a * p) == n / a / p
  {
    var m, r := n / a, n % a;
    var q, r' := m / p, m % p;
    Divided(n, a, m, r, p, q, r');
    QuotientIs(n, a * p, q, a * r' + r);
  }

  lemma Divided(n: nat, a: nat, m: nat, r: nat, p: nat, q: nat, r': nat)
    requires n == a * m + r && r < a && m == p * q + r' && r' < p
    ensures n == (a * p) * q + (a * r' + r) && a * r' + r < a * p
  {
    Distribute(a, p, q, r');
    Times(a, r' + 1, p);
  }

  lemma Distribute(a: nat, p: nat, q: nat, r: nat)
    ensures a * (p * q + r) == (a * p) * q + a * r && a * (r + 1) == a * r + a
  {
  }

  lemma Times(a: nat, b: nat, c: nat)
    requires b <= c
    ensures a * b <= a * c
  {
  }

  lemma QuotientIs(n: nat, d: nat, q: nat, r: nat)
    requires d > 0 && n == d * q + r && r < d
    ensures n / d == q
  {
    var q', r' := n / d, n % d;
    assert n == d * q' + r';
    if q' < q {
      Times(d, q' + 1, q);
    } else if q' > q {
      Times(d, q + 1, q');
    }
  }

  function Bit(n: nat, i: nat): nat {
    if i == 0 then n % 2 else Bit(n / 2, i - 1)
  }

  lemma {:induction false} BitIs(n: nat, i: nat)
    ensures Bit(n, i) == n / Pow2(i) % 2
  {
    if i > 0 {
      BitIs(n / 2, i - 1);
      DivideTwice(n, 2, Pow2(i - 1));
    }
  }

  lemma {:induction false} XorBitsAt(a: nat, b: nat, k: nat, i: nat)
    requires i < k
    ensures Bit(XorBits(a, b, k), i) == (Bit(a, i) + Bit(b, i)) % 2
  {
    var r := XorBits(a, b, k);
    assert r % 2 == (if a % 2 == b % 2 then 0 else 1) && r / 2 == XorBits(a / 2, b / 2, k - 1);
    if i > 0 {
      XorBitsAt(a / 2, b / 2, k - 1, i - 1);
    }
  }

  /** A bit of the exclusive or is 1 exactly if one of the two bits is and the other is not. */
  lemma XorAt(a: byte, b: byte, i: nat)
    requires i < 8
    ensures Xor(a, b) / Pow2(i) % 2 == (a / Pow2(i) % 2 + b / Pow2(i) % 2) % 2
  {
    Pow2Eight();
    XorBitsAt(a, b, 8, i);
    BitIs(Xor(a, b), i);
    BitIs(a, i);
    BitIs(b, i);
  }

  lemma {:induction false} XorBitsZero(a: nat, k: nat)
    requires a < Pow2(k)
    ensures XorBits(a, 0, k) == a
  {
    if k > 0 {
      XorBitsZero(a / 2, k - 1);
    }
  }

  lemma XorZero(a: byte)
    ensures Xor(a, 0) == a
  {
    Pow2Eight();
    XorBitsZero(a, 8);
  }

  function Pow256(k: nat): (p: nat)
    ensures p > 0
  {
    if k == 0 then 1 else 256 * Pow256(k - 1)
  }

  /** `n` in `k` bytes, the most significant first. */
  function BigEndian(n: nat, k: nat): (r: bytes)
    ensures |r| == k
  {
    if k == 0 then [] else BigEndian(n / 256, k - 1) + [n % 256]
  }

  function FromBigEndian(s: bytes): nat {
    if s == [] then 0 else 256 * FromBigEndian(s[..|s| - 1]) + s[|s| - 1]
  }

  lemma {:induction false} BigEndianRoundTrip(n: nat, k: nat)
    requires n < Pow256(k)
    ensures FromBigEndian(BigEndian(n, k)) == n
  {
    if k > 0 {
      BigEndianRoundTrip(n / 256, k - 1);
      assert BigEndian(n, k)[..k - 1] == BigEndian(n / 256, k - 1);
    }
  }

  /** The bytes are the digits of `n` to the base 256. */
  predicate IsBigEndian(s: bytes, n: nat) {
    forall i :: 0 <= i < |s| ==> s[i] == n / Pow256(|s| - 1 - i) % 256
  }

  lemma {:induction false} BigEndianAt(n: nat, k: nat, i: nat)
    requires i < k
    ensures BigEndian(n, k)[i] == n / Pow256(k - 1 - i) % 256
  {
    if i < k - 1 {
      BigEndianAt(n / 256, k - 1, i);
      DivideTwice(n, 256, Pow256(k - 2 - i));
      assert BigEndian(n, k)[i] == BigEndian(n / 256, k - 1)[i];
    }
  }

  lemma BigEndianDigits(n: nat, k: nat)
    ensures IsBigEndian(BigEndian(n, k), n)
  {
    forall i | 0 <= i < k
      ensures BigEndian(n, k)[i] == n / Pow256(k - 1 - i) % 256
    {
      BigEndianAt(n, k, i);
    }
  }
}
