/** Bytes as integers, with the exclusive or and the big-endian numbers that the codecs use. */
module Bytes {
  type Byte = b: int | 0 <= b < 256

  /** Exclusive or of the k lowest bits. */
  function XorBits(a: nat, b: nat, k: nat): nat {
    if k == 0 then 0 else 2 * XorBits(a / 2, b / 2, k - 1) + (if a % 2 == b % 2 then 0 else 1)
  }

  function PowerOfTwo(k: nat): nat { if k == 0 then 1 else 2 * PowerOfTwo(k - 1) }

  lemma {:induction false} XorBitsLaws(a: nat, b: nat, k: nat)
    requires a < PowerOfTwo(k) && b < PowerOfTwo(k)
    ensures XorBits(a, b, k) < PowerOfTwo(k)
    ensures XorBits(XorBits(a, b, k), b, k) == a
    ensures XorBits(a, b, k) == XorBits(b, a, k)
    ensures XorBits(a, 0, k) == a
    ensures XorBits(a, b, k) == 0 <==> a == b
  {
    if k > 0 {
      XorBitsLaws(a / 2, b / 2, k - 1);
      var low := if a % 2 == b % 2 then 0 else 1;
      assert XorBits(a, b, k) / 2 == XorBits(a / 2, b / 2, k - 1) && XorBits(a, b, k) % 2 == low;
    }
  }

  lemma EightBits()
    ensures PowerOfTwo(8) == 256
  {
    assert PowerOfTwo(4) == 16;
  }

  function Xor(a: Byte, b: Byte): Byte {
    EightBits();
    XorBitsLaws(a, b, 8);
    XorBits(a, b, 8)
  }

  lemma XorLaws(a: Byte, b: Byte)
    ensures Xor(Xor(a, b), b) == a && Xor(a, b) == Xor(b, a) && Xor(a, 0) == a
    ensures Xor(a, b) == 0 <==> a == b
  {
    EightBits();
    XorBitsLaws(a, b, 8);
  }

  lemma {:induction false} XorBitsAssociate(a: nat, b: nat, c: nat, k: nat)
    ensures XorBits(XorBits(a, b, k), c, k) == XorBits(a, XorBits(b, c, k), k)
  {
    if k > 0 {
      XorBitsAssociate(a / 2, b / 2, c / 2, k - 1);
      XorBitsHalves(a, b, k);
      XorBitsHalves(b, c, k);
    }
  }

  lemma XorBitsHalves(a: nat, b: nat, k: nat)
    requires k > 0
    ensures XorBits(a, b, k) / 2 == XorBits(a / 2, b / 2, k - 1)
    ensures XorBits(a, b, k) % 2 == if a % 2 == b % 2 then 0 else 1
  {
  }

  lemma XorAssociates(a: Byte, b: Byte, c: Byte)
    ensures Xor(Xor(a, b), c) == Xor(a, Xor(b, c))
  {
    XorBitsAssociate(a, b, c, 8);
  }

  function Bit(n: nat, i: nat): nat { if i == 0 then n % 2 else Bit(n / 2, i - 1) }

  lemma {:induction false} BitOfXorBits(a: nat, b: nat, k: nat, i: nat)
    requires i < k
    ensures Bit(XorBits(a, b, k), i) == if Bit(a, i) == Bit(b, i) then 0 else 1
  {
    var low := if a % 2 == b % 2 then 0 else 1;
    assert XorBits(a, b, k) / 2 == XorBits(a / 2, b / 2, k - 1) && XorBits(a, b, k) % 2 == low;
    if i > 0 {
      BitOfXorBits(a / 2, b / 2, k - 1, i - 1);
    }
  }

  /** Each of the eight bits is one exactly when the two bits differ. */
  lemma BitOfXor(a: Byte, b: Byte, i: nat)
    requires i < 8
    ensures Bit(Xor(a, b), i) == if Bit(a, i) == Bit(b, i) then 0 else 1
  {
    BitOfXorBits(a, b, 8, i);
  }

  /** The k lowest bytes of n, highest first. */
  function BigEndian(n: nat, k: nat): (s: seq<Byte>)
    ensures |s| == k
  {
    if k == 0 then [] else BigEndian(n / 256, k - 1) + [n % 256]
  }

  function FromBigEndian(s: seq<Byte>): nat {
    if s == [] then 0 else FromBigEndian(s[..|s| - 1]) * 256 + s[|s| - 1]
  }

  function Power256(k: nat): nat { if k == 0 then 1 else 256 * Power256(k - 1) }

  lemma {:induction false} BigEndianRoundTrip(n: nat, k: nat)
    requires n < Power256(k)
    ensures FromBigEndian(BigEndian(n, k)) == n
  {
    if k > 0 {
      BigEndianRoundTrip(n / 256, k - 1);
      assert BigEndian(n, k)[..k - 1] == BigEndian(n / 256, k - 1);
    }
  }

  lemma {:induction false} FromBigEndianBound(s: seq<Byte>)
    ensures FromBigEndian(s) < Power256(|s|)
  {
    if s != [] {
      FromBigEndianBound(s[..|s| - 1]);
    }
  }

  /** The first byte counts most: two bytes, and eight. */
  lemma NetworkOrder(s: seq<Byte>)
    ensures |s| == 2 ==> FromBigEndian(s) == 256 * (s[0] as int) + s[1]
    ensures |s| == 8 ==> FromBigEndian(s) == 0x1_0000_0000 * FromBigEndian(s[..4]) + FromBigEndian(s[4..])
    ensures |s| == 4 ==>
              FromBigEndian(s) == 16777216 * (s[0] as int) + 65536 * (s[1] as int) + 256 * (s[2] as int) + s[3]
  {
    if |s| == 2 {
      LastTwo(s);
      assert s[..0] == [];
    } else if |s| == 4 {
      LastTwo(s);
      LastTwo(s[..2]);
      assert s[..2][..0] == [];
    } else if |s| == 8 {
      LastTwo(s);
      LastTwo(s[..6]);
      assert s[..6][..4] == s[..4];
      LastTwo(s[4..]);
      LastTwo(s[4..][..2]);
      assert s[4..][..2][..0] == [];
    }
  }

  lemma LastTwo(s: seq<Byte>)
    requires |s| >= 2
    ensures FromBigEndian(s) == FromBigEndian(s[..|s| - 2]) * 65536 + 256 * (s[|s| - 2] as int) + s[|s| - 1]
  {
    var t := s[..|s| - 1];
    assert t[..|t| - 1] == s[..|s| - 2];
  }

  lemma TwoBytes(n: nat)
    requires n < 65536
    ensures BigEndian(n, 2) == [n / 256 % 256, n % 256]
  {
    assert BigEndian(n / 256, 1) == BigEndian(n / 256 / 256, 0) + [n / 256 % 256];
  }

  /** Byte j of a big-endian number of k bytes is the number shifted right by the bytes behind it. */
  lemma {:induction false} ByteAt(n: nat, k: nat, j: nat)
    requires j < k
    ensures Power256(k - 1 - j) > 0 && BigEndian(n, k)[j] == n / Power256(k - 1 - j) % 256
  {
    if j < k - 1 {
      ByteAt(n / 256, k - 1, j);
      ShiftTwice(n, Power256(k - 2 - j));
    }
  }

  lemma ShiftTwice(n: nat, p: nat)
    requires p > 0
    ensures n / (256 * p) == (n / 256) / p
  {
    var q := n / 256 / p;
    assert n == 256 * (n / 256) + n % 256;
    assert n / 256 == p * q + n / 256 % p;
    assert n == (256 * p) * q + (256 * (n / 256 % p) + n % 256);
    QuotientIs(n, 256 * p, q, 256 * (n / 256 % p) + n % 256);
  }

  lemma QuotientIs(n: nat, d: nat, q: nat, r: nat)
    requires d > 0 && n == d * q + r && r < d
    ensures n / d == q
  {
    var e := n / d;
    assert n == d * e + n % d;
    if e < q { Grows(d, e + 1, q); }
    if q < e { Grows(d, q + 1, e); }
  }

  lemma Grows(d: nat, a: nat, b: nat)
    requires a <= b
    ensures d * a <= d * b
  {
  }
}
