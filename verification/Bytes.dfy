/** Big-endian byte strings and the numbers they stand for, as math/big and net use them. */
module Bytes {

  type Byte = b: nat | b < 256

  type Bytes = seq<Byte>

  // Powers and bits.

  function Pow2(n: nat): (p: nat)
    ensures p >= 1
  {
    if n == 0 then 1 else 2 * Pow2(n - 1)
  }

  function Pow256(n: nat): (p: nat)
    ensures p >= 1
  {
    if n == 0 then 1 else 256 * Pow256(n - 1)
  }

  lemma Pow2Of8()
    ensures Pow2(8) == 256
  {
    Pow2Byte(8);
  }

  lemma Pow2Byte(h: nat)
    requires h >= 8
    ensures Pow2(h) == 256 * Pow2(h - 8)
  {
    assert Pow2(h) == 4 * Pow2(h - 2) && Pow2(h - 2) == 4 * Pow2(h - 4);
    assert Pow2(h - 4) == 4 * Pow2(h - 6) && Pow2(h - 6) == 4 * Pow2(h - 8);
  }

  lemma {:induction false} Pow256IsPow2(n: nat)
    ensures Pow256(n) == Pow2(8 * n)
  {
    if n > 0 {
      Pow256IsPow2(n - 1);
      Pow2Byte(8 * n);
    }
  }

  lemma {:induction false} Pow2Monotone(m: nat, n: nat)
    requires m <= n
    ensures Pow2(m) <= Pow2(n)
  {
    if m < n {
      Pow2Monotone(m, n - 1);
    }
  }

  // Bitwise operations, bit by bit from the lowest.

  function And(a: nat, b: nat): (r: nat)
    ensures r <= a && r <= b
  {
    if a == 0 || b == 0 then 0 else 2 * And(a / 2, b / 2) + if a % 2 == 1 && b % 2 == 1 then 1 else 0
  }

  function Or(a: nat, b: nat): nat {
    if a == 0 then b else if b == 0 then a
    else 2 * Or(a / 2, b / 2) + if a % 2 == 1 || b % 2 == 1 then 1 else 0
  }

  function And8(a: Byte, b: Byte): Byte {
    And(a, b)
  }

  function Or8(a: Byte, b: Byte): Byte {
    Pow2Of8();
    OrBound(a, b, 8);
    Or(a, b)
  }

  function Not8(a: Byte): Byte {
    255 - a
  }

  lemma {:induction false} OrBound(a: nat, b: nat, n: nat)
    requires a < Pow2(n) && b < Pow2(n)
    ensures Or(a, b) < Pow2(n)
  {
    if a != 0 && b != 0 {
      OrBound(a / 2, b / 2, n - 1);
    }
  }

  lemma {:induction false} OrAtLeast(a: nat, b: nat)
    ensures Or(a, b) >= a
  {
    if a != 0 && b != 0 {
      OrAtLeast(a / 2, b / 2);
    }
  }

  lemma {:induction false} AndAll(d: nat, n: nat)
    requires d < Pow2(n)
    ensures And(d, Pow2(n) - 1) == d
  {
    if n > 0 {
      AndAll(d / 2, n - 1);
      assert (Pow2(n) - 1) / 2 == Pow2(n - 1) - 1 && (Pow2(n) - 1) % 2 == 1;
    }
  }

  /** All of `n` bits but the low `h`. */
  function HighMask(n: nat, h: nat): nat
    requires h <= n
  {
    if h == 0 then Pow2(n) - 1 else 2 * HighMask(n - 1, h - 1)
  }

  lemma {:induction false} HighMaskValue(n: nat, h: nat)
    requires h <= n
    ensures HighMask(n, h) == Pow2(n) - Pow2(h)
  {
    if h > 0 {
      HighMaskValue(n - 1, h - 1);
    }
  }

  /** The numbers that masking off the low `h` of `n` bits takes to a given one. */
  lemma {:induction false} AndMaskIff(d: nat, b: nat, n: nat, h: nat)
    requires h <= n && d < Pow2(n)
    ensures And(b, HighMask(n, h)) == b ==> (And(d, HighMask(n, h)) == b <==> b <= d < b + Pow2(h))
    decreases n
  {
    if h == 0 {
      AndAll(d, n);
    } else {
      AndMaskIff(d / 2, b / 2, n - 1, h - 1);
      HalfIff(d, b, HighMask(n - 1, h - 1), Pow2(h - 1));
    }
  }

  /** A number clear below `h` bits is clear below fewer. */
  lemma {:induction false} AndFiner(b: nat, n: nat, h: nat, k: nat)
    requires k <= h <= n && b < Pow2(n)
    ensures And(b, HighMask(n, h)) == b ==> And(b, HighMask(n, k)) == b
    decreases n
  {
    if k == 0 {
      AndAll(b, n);
    } else {
      AndFiner(b / 2, n - 1, h - 1, k - 1);
      HalfFiner(b, HighMask(n - 1, h - 1), HighMask(n - 1, k - 1));
    }
  }

  lemma {:induction false} HalfFiner(b: nat, m: nat, finer: nat)
    requires And(b / 2, m) == b / 2 ==> And(b / 2, finer) == b / 2
    ensures And(b, 2 * m) == b ==> And(b, 2 * finer) == b
  {
    AndEven(b, m);
    AndEven(b, finer);
  }

  lemma {:induction false} HalfIff(d: nat, b: nat, m: nat, w: nat)
    requires And(b / 2, m) == b / 2 ==> (And(d / 2, m) == b / 2 <==> b / 2 <= d / 2 < b / 2 + w)
    ensures And(b, 2 * m) == b ==> (And(d, 2 * m) == b <==> b <= d < b + 2 * w)
  {
    AndEven(d, m);
    AndEven(b, m);
  }

  lemma {:induction false} AndEven(d: nat, m: nat)
    ensures And(d, 2 * m) == 2 * And(d / 2, m)
  {
    AndStep(d, 2 * m);
  }

  lemma {:induction false} AndStep(a: nat, b: nat)
    ensures And(a, b) == 2 * And(a / 2, b / 2) + if a % 2 == 1 && b % 2 == 1 then 1 else 0
  {
  }

  lemma {:induction false} OrStep(a: nat, b: nat)
    ensures Or(a, b) == 2 * Or(a / 2, b / 2) + if a % 2 == 1 || b % 2 == 1 then 1 else 0
  {
  }

  /** Setting the bits outside a mask in a number that has none of them set. */
  lemma {:induction false} OrIsSum(b: nat, m: nat, n: nat)
    requires m < Pow2(n) && And(b, m) == b
    ensures Or(b, Pow2(n) - 1 - m) == b + (Pow2(n) - 1 - m)
    decreases n
  {
    if n > 0 {
      var c := Pow2(n) - 1 - m;
      assert c / 2 == Pow2(n - 1) - 1 - m / 2 && c % 2 == 1 - m % 2;
      AndStep(b, m);
      OrIsSum(b / 2, m / 2, n - 1);
      OrStep(b, c);
    }
  }

  lemma Or8IsSum(b: Byte, m: Byte)
    requires And8(b, m) == b
    ensures Or8(b, Not8(m)) == b + Not8(m)
  {
    Pow2Of8();
    OrIsSum(b, m, 8);
  }

  // Byte strings and their values.

  /** big.Int.SetBytes. */
  function FromBytes(bs: Bytes): nat {
    if bs == [] then 0 else 256 * FromBytes(bs[..|bs| - 1]) + bs[|bs| - 1]
  }

  /** big.Int.Bytes: no leading zero byte, the empty string for zero. */
  function ToBytes(v: nat): Bytes {
    if v == 0 then [] else ToBytes(v / 256) + [v % 256]
  }

  function Zeros(n: nat): Bytes {
    seq(n, _ => 0)
  }

  /** Exactly `n` bytes: zeros put back in front, or the low `n` bytes kept. */
  function Fit(bs: Bytes, n: nat): Bytes {
    if |bs| <= n then Zeros(n - |bs|) + bs else bs[|bs| - n..]
  }

  lemma {:induction false} RoundTrip(v: nat)
    ensures FromBytes(ToBytes(v)) == v
  {
    if v != 0 {
      RoundTrip(v / 256);
      assert ToBytes(v)[..|ToBytes(v)| - 1] == ToBytes(v / 256);
    }
  }

  lemma {:induction false} ValueBound(bs: Bytes)
    ensures FromBytes(bs) < Pow256(|bs|)
  {
    if bs != [] {
      ValueBound(bs[..|bs| - 1]);
    }
  }

  /** A byte that is not zero bounds the value from below. */
  lemma {:induction false} NonzeroByte(bs: Bytes, i: nat)
    requires i < |bs| && bs[i] != 0
    ensures FromBytes(bs) >= Pow256(|bs| - 1 - i)
  {
    if i < |bs| - 1 {
      NonzeroByte(bs[..|bs| - 1], i);
    }
  }

  /** The number of bytes a value needs. */
  lemma {:induction false} LengthBound(v: nat, n: nat)
    ensures |ToBytes(v)| <= n <==> v < Pow256(n)
  {
    if v != 0 && n > 0 {
      LengthBound(v / 256, n - 1);
    }
  }

  lemma {:induction false} LeadingZeros(bs: Bytes, n: nat)
    ensures FromBytes(Zeros(n) + bs) == FromBytes(bs)
    decreases |bs|, n
  {
    if bs == [] {
      if n > 0 {
        assert (Zeros(n) + bs)[..n - 1] == Zeros(n - 1) + bs;
        LeadingZeros(bs, n - 1);
      }
    } else {
      var m := |bs| - 1;
      assert (Zeros(n) + bs)[..n + m] == Zeros(n) + bs[..m];
      LeadingZeros(bs[..m], n);
    }
  }

  /** Byte strings of one length are told apart by their values. */
  lemma {:induction false} SameValueSameBytes(a: Bytes, b: Bytes)
    requires |a| == |b| && FromBytes(a) == FromBytes(b)
    ensures a == b
  {
    if a != [] {
      var n := |a| - 1;
      assert FromBytes(a[..n]) == FromBytes(b[..n]) && a[n] == b[n];
      SameValueSameBytes(a[..n], b[..n]);
      assert a == a[..n] + [a[n]] && b == b[..n] + [b[n]];
    }
  }

  lemma FitValue(v: nat, n: nat)
    requires v < Pow256(n)
    ensures |Fit(ToBytes(v), n)| == n && FromBytes(Fit(ToBytes(v), n)) == v
  {
    LengthBound(v, n);
    LeadingZeros(ToBytes(v), n - |ToBytes(v)|);
    RoundTrip(v);
  }

  lemma FitOfValue(bs: Bytes)
    ensures Fit(ToBytes(FromBytes(bs)), |bs|) == bs
  {
    ValueBound(bs);
    FitValue(FromBytes(bs), |bs|);
    SameValueSameBytes(Fit(ToBytes(FromBytes(bs)), |bs|), bs);
  }

  // Network masks.

  /** One mask byte with `h` host bits in it or below it: all of the byte's bits but its low `h`. */
  function MaskByte(h: int): Byte {
    if h <= 0 then 255 else if h >= 8 then 0 else [255, 254, 252, 248, 240, 224, 192, 128][h]
  }

  /** net.CIDRMask for `n` bytes with `h` host bits. */
  function MaskOf(n: nat, h: nat): Bytes
    requires h <= 8 * n
  {
    seq(n, i requires 0 <= i < n => MaskByte(h - 8 * (n - 1 - i)))
  }

  function AndBytes(a: Bytes, m: Bytes): Bytes
    requires |a| == |m|
  {
    seq(|a|, i requires 0 <= i < |a| => And8(a[i], m[i]))
  }

  function NotBytes(m: Bytes): Bytes {
    seq(|m|, i requires 0 <= i < |m| => Not8(m[i]))
  }

  function OrBytes(a: Bytes, b: Bytes): Bytes
    requires |a| == |b|
  {
    seq(|a|, i requires 0 <= i < |a| => Or8(a[i], b[i]))
  }

  lemma MaskByteValue(h: nat)
    requires h <= 8
    ensures MaskByte(h) == 256 - Pow2(h) == HighMask(8, h)
  {
    HighMaskValue(8, h);
    assert Pow2(1) == 2 && Pow2(2) == 4 && Pow2(3) == 8 && Pow2(4) == 16;
    assert Pow2(5) == 32 && Pow2(6) == 64 && Pow2(7) == 128;
    Pow2Of8();
  }

  lemma And8MaskIff(d: Byte, b: Byte, h: nat)
    requires h <= 8 && And8(b, MaskByte(h)) == b
    ensures And8(d, MaskByte(h)) == b <==> b <= d < b + Pow2(h)
    ensures b + Pow2(h) <= 256
  {
    Pow2Of8();
    MaskByteValue(h);
    AndMaskIff(d, b, 8, h);
  }

  /** A mask over one byte more: the longer mask begins with a shorter one. */
  lemma MaskInit(n: nat, h: nat)
    requires 0 < n && h <= 8 * n
    ensures MaskOf(n, h)[n - 1] == MaskByte(h)
    ensures h >= 8 ==> MaskOf(n, h)[..n - 1] == MaskOf(n - 1, h - 8)
    ensures h < 8 ==> MaskOf(n, h)[..n - 1] == MaskOf(n - 1, 0)
  {
    if h < 8 {
      forall i | 0 <= i < n - 1 ensures MaskOf(n, h)[i] == MaskOf(n - 1, 0)[i] {
        assert MaskOf(n, h)[i] == MaskByte(h - 8 * (n - 1 - i));
        assert MaskOf(n - 1, 0)[i] == MaskByte(0 - 8 * (n - 2 - i));
      }
    }
  }

  /** The complement of a mask with `h` host bits is 2^h - 1. */
  lemma {:induction false} NotMaskValue(n: nat, h: nat)
    requires h <= 8 * n
    ensures FromBytes(NotBytes(MaskOf(n, h))) == Pow2(h) - 1
    decreases n
  {
    if n > 0 {
      var m := NotBytes(MaskOf(n, h));
      MaskInit(n, h);
      if h >= 8 {
        assert m[..n - 1] == NotBytes(MaskOf(n - 1, h - 8));
        NotMaskValue(n - 1, h - 8);
        Pow2Byte(h);
      } else {
        assert m[..n - 1] == NotBytes(MaskOf(n - 1, 0));
        NotMaskValue(n - 1, 0);
        MaskByteValue(h);
      }
    }
  }

  lemma AndInit(a: Bytes, m: Bytes, b: Bytes)
    requires a != [] && |a| == |m| == |b|
    ensures var n := |a| - 1;
            AndBytes(a, m) == b <==> AndBytes(a[..n], m[..n]) == b[..n] && And8(a[n], m[n]) == b[n]
  {
    var n := |a| - 1;
    assert AndBytes(a, m)[..n] == AndBytes(a[..n], m[..n]);
    assert b == b[..n] + [b[n]] && AndBytes(a, m) == AndBytes(a, m)[..n] + [And8(a[n], m[n])];
  }

  /** Masking takes to an aligned address exactly the 2^h addresses from it on. */
  lemma {:induction false} MaskInterval(x: Bytes, b: Bytes, h: nat)
    requires |x| == |b| && h <= 8 * |b| && AndBytes(b, MaskOf(|b|, h)) == b
    ensures AndBytes(x, MaskOf(|b|, h)) == b <==> FromBytes(b) <= FromBytes(x) < FromBytes(b) + Pow2(h)
    decreases |b|
  {
    if b != [] {
      var n := |b| - 1;
      var rest := if h >= 8 then h - 8 else 0;
      MaskInit(n + 1, h);
      AndInit(x, MaskOf(n + 1, h), b);
      AndInit(b, MaskOf(n + 1, h), b);
      MaskInterval(x[..n], b[..n], rest);
      And8MaskIff(x[n], b[n], if h >= 8 then 8 else h);
      if h >= 8 {
        Pow2Byte(h);
      }
      Pow2Of8();
    }
  }

  lemma And8Finer(b: Byte, h: int, k: int)
    requires k <= h && And8(b, MaskByte(h)) == b
    ensures And8(b, MaskByte(k)) == b
  {
    Pow2Of8();
    var h8, k8 := if h < 0 then 0 else if h > 8 then 8 else h, if k < 0 then 0 else if k > 8 then 8 else k;
    MaskByteValue(h8);
    MaskByteValue(k8);
    AndFiner(b, 8, h8, k8);
  }

  /** An aligned address is aligned for every smaller network. */
  lemma MaskFiner(ip: Bytes, h: nat, k: nat)
    requires k <= h <= 8 * |ip| && AndBytes(ip, MaskOf(|ip|, h)) == ip
    ensures AndBytes(ip, MaskOf(|ip|, k)) == ip
  {
    forall i | 0 <= i < |ip| ensures AndBytes(ip, MaskOf(|ip|, k))[i] == ip[i] {
      assert AndBytes(ip, MaskOf(|ip|, h))[i] == ip[i];
      And8Finer(ip[i], h - 8 * (|ip| - 1 - i), k - 8 * (|ip| - 1 - i));
    }
  }

  /** Setting the host bits of an aligned address adds the complement of its mask. */
  lemma {:induction false} OrNotMaskValue(a: Bytes, m: Bytes)
    requires |a| == |m| && AndBytes(a, m) == a
    ensures FromBytes(OrBytes(a, NotBytes(m))) == FromBytes(a) + FromBytes(NotBytes(m))
    decreases |a|
  {
    if a != [] {
      var n := |a| - 1;
      var o := OrBytes(a, NotBytes(m));
      assert o[..n] == OrBytes(a[..n], NotBytes(m[..n]));
      assert NotBytes(m)[..n] == NotBytes(m[..n]);
      assert AndBytes(a[..n], m[..n]) == AndBytes(a, m)[..n];
      OrNotMaskValue(a[..n], m[..n]);
      assert And8(a[n], m[n]) == AndBytes(a, m)[n];
      Or8IsSum(a[n], m[n]);
    }
  }
}
