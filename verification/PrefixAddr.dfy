/**
 Addresses of a prefix (pkg/eni/eni_local_ipam.go): the size of a prefix's bitmap, the address at an offset
 and the offset of an address. A CIDR is its text together with what parsing the text gives.
 */
module PrefixAddr {
  import opened Util
  import opened Bytes
  import opened Gateway

  datatype Cidr = Cidr(text: string, net: Option<Net>) {
    /** What net.ParseCIDR can give, IPv4-mapped networks left aside. */
    predicate Parsed() {
      net.Some? ==> net.value.WellFormed() && !Mapped(net.value.ip)
    }
  }

  const MAX_ADDRESSES: nat := 65536

  const UINT64: nat := 0x1_0000_0000_0000_0000

  /** prefixSize. */
  function PrefixSize(c: Cidr): nat {
    if c.net.None? then 0
    else if |c.net.value.ip| == 16 && c.net.value.hostBits > 16 then MAX_ADDRESSES
    else Pow2(c.net.value.hostBits)
  }

  /** calculateIP. */
  function CalculateIp(c: Cidr, offset: nat): Option<Bytes> {
    if c.net.None? then None
    else Some(Fit(ToBytes(c.net.value.Base() + offset), |c.net.value.ip|))
  }

  /** big.Int.Uint64: the remainder modulo 2^64. */
  function Uint64(x: nat): (r: nat)
    ensures r < UINT64
  {
    if x < UINT64 then x else Uint64(x - UINT64)
  }

  /** The offset of an address from a base below it. */
  function RawOffset(ip: Bytes, net: Net): nat {
    if FromBytes(ip) < net.Base() then 0 else Uint64(FromBytes(ip) - net.Base())
  }

  /** One turn of findPrefixContainingIP: the offset of an address in a prefix with a bitmap of `len` bits. */
  function OffsetIn(ip: Bytes, c: Cidr, len: nat): Option<nat>
    requires c.Parsed()
  {
    if c.net.None? || !Contains(c.net.value, ip) then None
    else if RawOffset(ip, c.net.value) >= len then None
    else Some(RawOffset(ip, c.net.value))
  }

  lemma Pow2Of16()
    ensures Pow2(16) == MAX_ADDRESSES
  {
    Pow2Of8();
    Pow2Byte(16);
  }

  lemma SizeBound(c: Cidr)
    requires c.Parsed() && c.net.Some?
    ensures 0 < PrefixSize(c) <= Pow2(c.net.value.hostBits)
    ensures PrefixSize(c) <= Pow256(4)
  {
    var net := c.net.value;
    Pow2Of16();
    assert Pow256(2) == 65536 && Pow256(4) == 65536 * 65536;
    if net.hostBits > 16 {
      Pow2Monotone(16, net.hostBits);
    } else {
      Pow2Monotone(net.hostBits, 16);
    }
    NetworkEnds(net);
  }

  /** The networks of at most 16 host bits in which a prefix's addresses lie. */
  function Narrow(net: Net): Net {
    Net(net.ip, if net.hostBits > 16 then 16 else net.hostBits)
  }

  lemma NarrowOk(net: Net)
    requires net.WellFormed()
    ensures Narrow(net).WellFormed()
  {
    MaskFiner(net.ip, net.hostBits, Narrow(net).hostBits);
  }

  /** An address of a prefix reads as IPv4-mapped only if its network does. */
  lemma MemberNotMapped(ip: Bytes, net: Net)
    requires net.WellFormed() && |net.ip| == |ip| == 16 && !Mapped(net.ip)
    requires net.Base() <= FromBytes(ip) < net.Base() + Pow2(Narrow(net).hostBits)
    ensures !Mapped(ip)
  {
    NarrowOk(net);
    MaskInterval(ip, net.ip, Narrow(net).hostBits);
    forall i | 0 <= i < 12 ensures ip[..12][i] == net.ip[..12][i] {
      MemberByte(ip, Narrow(net), i);
    }
    assert ip[..12] == net.ip[..12];
  }

  lemma AddressAt(net: Net, offset: nat)
    requires net.WellFormed() && offset < Pow2(net.hostBits)
    ensures var ip := Fit(ToBytes(net.Base() + offset), |net.ip|);
            |ip| == |net.ip| && FromBytes(ip) == net.Base() + offset
  {
    NetworkEnds(net);
    FitValue(net.Base() + offset, |net.ip|);
  }

  lemma AddressNotMapped(c: Cidr, offset: nat, ip: Bytes)
    requires c.Parsed() && c.net.Some? && offset < PrefixSize(c)
    requires |ip| == |c.net.value.ip| && FromBytes(ip) == c.net.value.Base() + offset
    ensures !Mapped(ip)
  {
    if |ip| == 16 {
      Pow2Of16();
      MemberNotMapped(ip, c.net.value);
    }
  }

  /** The address at an offset of the bitmap: base plus offset, inside the prefix, in the network's length. */
  lemma CalculatedAddress(c: Cidr, offset: nat)
    requires c.Parsed() && offset < PrefixSize(c)
    ensures c.net.Some? && CalculateIp(c, offset).Some?
    ensures var net, ip := c.net.value, CalculateIp(c, offset).value;
            && |ip| == |net.ip| && FromBytes(ip) == net.Base() + offset
            && !Mapped(ip) && Contains(net, ip)
  {
    var net, ip := c.net.value, CalculateIp(c, offset).value;
    SizeBound(c);
    AddressAt(net, offset);
    AddressNotMapped(c, offset, ip);
    ContainsIff(net, ip);
  }

  lemma RawOffsetIs(ip: Bytes, net: Net, offset: nat)
    requires FromBytes(ip) == net.Base() + offset && offset < UINT64
    ensures RawOffset(ip, net) == offset
  {
  }

  /** An offset of the bitmap comes back from its address. */
  lemma OffsetOfCalculated(c: Cidr, offset: nat)
    requires c.Parsed() && offset < PrefixSize(c)
    ensures CalculateIp(c, offset).Some?
    ensures OffsetIn(CalculateIp(c, offset).value, c, PrefixSize(c)) == Some(offset)
  {
    CalculatedAddress(c, offset);
    SizeBound(c);
    Powers();
    RawOffsetIs(CalculateIp(c, offset).value, c.net.value, offset);
  }

  /** The number of an IPv4 address in its IPv6 form lies above every IPv4 one and below 2^48. */
  lemma MappedValue(ip: Bytes)
    requires Mapped(ip)
    ensures 0xffff * Pow256(4) <= FromBytes(ip) < Pow256(6)
  {
    var top := ip[..12];
    LeadingZeros([255, 255], 10);
    assert top == Zeros(10) + [255, 255];
    assert FromBytes([255, 255]) == 65535 by {
      assert [255, 255][..1] == [255] && [255][..0] == [];
      assert FromBytes([255]) == 255;
    }
    ValueOfFour(ip, 12);
    assert Pow256(2) == 65536 && Pow256(4) == 65536 * 65536 && Pow256(6) == 65536 * Pow256(4);
  }

  lemma ValueOfFour(bs: Bytes, n: nat)
    requires |bs| == n + 4
    ensures Pow256(4) * FromBytes(bs[..n]) <= FromBytes(bs) < Pow256(4) * FromBytes(bs[..n]) + Pow256(4)
  {
    assert bs[..n + 3][..n + 2] == bs[..n + 2] && bs[..n + 2][..n + 1] == bs[..n + 1] && bs[..n + 1][..n] == bs[..n];
    assert FromBytes(bs) == 256 * FromBytes(bs[..n + 3]) + bs[n + 3];
    assert FromBytes(bs[..n + 3]) == 256 * FromBytes(bs[..n + 2]) + bs[n + 2];
    assert FromBytes(bs[..n + 2]) == 256 * FromBytes(bs[..n + 1]) + bs[n + 1];
    assert FromBytes(bs[..n + 1]) == 256 * FromBytes(bs[..n]) + bs[n];
    assert Pow256(2) == 65536 && Pow256(4) == 65536 * 65536;
  }

  lemma Pow2Of64()
    ensures Pow2(64) == UINT64 && Pow256(6) < UINT64 == Pow256(8)
  {
    Pow256IsPow2(8);
    assert Pow256(2) == 65536 && Pow256(4) == 65536 * 65536;
    assert Pow256(6) == 65536 * Pow256(4) && Pow256(8) == 65536 * Pow256(6);
  }

  lemma MappedRejected(ip: Bytes, c: Cidr)
    requires c.Parsed() && c.net.Some? && |c.net.value.ip| == 4 && Mapped(ip)
    ensures OffsetIn(ip, c, PrefixSize(c)) == None
  {
    var net := c.net.value;
    SizeBound(c);
    MappedValue(ip);
    ValueBound(net.ip);
    Pow2Of64();
    RawOffsetIs(ip, net, FromBytes(ip) - net.Base());
  }

  lemma HostBits(h: nat)
    ensures h <= 64 <==> Pow2(h) <= UINT64
  {
    Pow2Of64();
    if h <= 64 {
      Pow2Monotone(h, 64);
    } else {
      assert Pow2(65) == 2 * Pow2(64);
      Pow2Monotone(65, h);
    }
  }

  lemma SameLengthFound(ip: Bytes, c: Cidr)
    requires c.Parsed() && c.net.Some? && Pow2(c.net.value.hostBits) <= UINT64
    requires |ip| == |c.net.value.ip| && !Mapped(ip) && Contains(c.net.value, ip)
    ensures CalculateIp(c, RawOffset(ip, c.net.value)) == Some(ip)
  {
    ContainsIff(c.net.value, ip);
    CalculatedOfValue(ip, c, FromBytes(ip) - c.net.value.Base());
  }

  lemma CalculatedOfValue(ip: Bytes, c: Cidr, offset: nat)
    requires c.net.Some? && |ip| == |c.net.value.ip|
    requires FromBytes(ip) == c.net.value.Base() + offset && offset < UINT64
    ensures RawOffset(ip, c.net.value) == offset && CalculateIp(c, offset) == Some(ip)
  {
    FitOfValue(ip);
    assert FromBytes(ip) - c.net.value.Base() == offset && Uint64(offset) == offset;
    assert CalculateIp(c, offset) == Some(Fit(ToBytes(FromBytes(ip)), |ip|));
  }

  /** In a prefix of at most 64 host bits only the addresses at offsets of the bitmap are found. */
  lemma FoundIsCalculated(ip: Bytes, c: Cidr)
    requires c.Parsed() && c.net.Some? && c.net.value.hostBits <= 64 && |ip| in {4, 16}
    ensures OffsetIn(ip, c, PrefixSize(c)).Some? ==>
              CalculateIp(c, OffsetIn(ip, c, PrefixSize(c)).value) == Some(ip)
  {
    HostBits(c.net.value.hostBits);
    if OffsetIn(ip, c, PrefixSize(c)).Some? {
      if |ip| == 16 && |c.net.value.ip| == 4 {
        MappedRejected(ip, c);
      } else {
        SameLengthFound(ip, c);
      }
    }
  }

  /** Whether every address that a prefix's bitmap accepts is one it hands out. */
  ghost predicate Exact(c: Cidr)
    requires c.Parsed()
  {
    forall ip: Bytes :: |ip| in {4, 16} && OffsetIn(ip, c, PrefixSize(c)).Some? ==>
                          CalculateIp(c, OffsetIn(ip, c, PrefixSize(c)).value) == Some(ip)
  }

  function Above(net: Net): Bytes {
    Fit(ToBytes(net.Base() + UINT64), |net.ip|)
  }

  lemma AboveValue(net: Net)
    requires net.WellFormed() && net.hostBits > 64
    ensures |Above(net)| == |net.ip| && FromBytes(Above(net)) == net.Base() + UINT64 && UINT64 < Pow2(net.hostBits)
  {
    HostBits(net.hostBits);
    AddressAt(net, UINT64);
  }

  lemma AboveIsMember(net: Net)
    requires net.WellFormed() && net.hostBits > 64
    ensures |Above(net)| == |net.ip| && FromBytes(Above(net)) == net.Base() + UINT64
    ensures Contains(net, Above(net))
  {
    AboveValue(net);
    MemberByValue(net, Above(net), UINT64);
  }

  lemma MemberByValue(net: Net, ip: Bytes, offset: nat)
    requires net.WellFormed() && |ip| == |net.ip| && UINT64 <= offset < Pow2(net.hostBits)
    requires FromBytes(ip) == net.Base() + offset
    ensures Contains(net, ip)
  {
    AboveMapped(ip);
    ContainsIff(net, ip);
  }

  lemma AboveMapped(ip: Bytes)
    ensures FromBytes(ip) >= UINT64 ==> !Mapped(ip)
  {
    Pow2Of64();
    if Mapped(ip) {
      MappedValue(ip);
    }
  }

  lemma AboveIsZero(ip: Bytes, net: Net)
    requires FromBytes(ip) == net.Base() + UINT64
    ensures RawOffset(ip, net) == 0
  {
  }

  /** An address 2^64 above the base of a wider prefix is taken for the base itself. */
  lemma WidePrefixAccepts(c: Cidr)
    requires c.Parsed() && c.net.Some? && c.net.value.hostBits > 64
    ensures |Above(c.net.value)| == 16
    ensures OffsetIn(Above(c.net.value), c, PrefixSize(c)) == Some(0)
    ensures CalculateIp(c, 0) != Some(Above(c.net.value))
  {
    var net := c.net.value;
    AboveIsMember(net);
    AboveIsZero(Above(net), net);
    AddressAt(net, 0);
  }

  /** Addresses with bits between the bitmap and the prefix are rejected exactly up to 64 host bits. */
  lemma ExactIff(c: Cidr)
    requires c.Parsed() && c.net.Some?
    ensures Exact(c) <==> c.net.value.hostBits <= 64
  {
    if c.net.value.hostBits <= 64 {
      forall ip: Bytes | |ip| in {4, 16} && OffsetIn(ip, c, PrefixSize(c)).Some?
        ensures CalculateIp(c, OffsetIn(ip, c, PrefixSize(c)).value) == Some(ip)
      {
        FoundIsCalculated(ip, c);
      }
    } else {
      WidePrefixAccepts(c);
    }
  }

  /** Prefixes with no address in common. */
  ghost predicate Apart(c: Cidr, d: Cidr) {
    c.net.None? || d.net.None? || |c.net.value.ip| != |d.net.value.ip|
    || c.net.value.Base() + Pow2(c.net.value.hostBits) <= d.net.value.Base()
    || d.net.value.Base() + Pow2(d.net.value.hostBits) <= c.net.value.Base()
  }

  /** Offsets of disjoint prefixes, and different offsets of one prefix, have different addresses. */
  lemma AddressesDiffer(c: Cidr, o: nat, d: Cidr, p: nat)
    requires c.Parsed() && d.Parsed() && o < PrefixSize(c) && p < PrefixSize(d)
    requires if c == d then o != p else Apart(c, d)
    ensures CalculateIp(c, o) != CalculateIp(d, p)
  {
    CalculatedAddress(c, o);
    CalculatedAddress(d, p);
    SizeBound(c);
    SizeBound(d);
  }

  /** The address at an offset of one prefix is not found in a disjoint one. */
  lemma NotInOther(c: Cidr, o: nat, d: Cidr)
    requires c.Parsed() && d.Parsed() && o < PrefixSize(c) && Apart(c, d)
    ensures CalculateIp(c, o).Some?
    ensures OffsetIn(CalculateIp(c, o).value, d, PrefixSize(d)) == None
  {
    CalculatedAddress(c, o);
    SizeBound(c);
    if d.net.Some? && |d.net.value.ip| == |c.net.value.ip| {
      ContainsIff(d.net.value, CalculateIp(c, o).value);
    }
  }
}
