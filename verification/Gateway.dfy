/**
 Networks and the addresses in them (pkg/ip/ip_cilium.go, pkg/ip/ip.go): the last address of a network, the
 address at an index counted from either end, and the gateway derived from a vSwitch CIDR. A parsed CIDR is
 its masked address and its number of host bits.
 */
module Gateway {
  import opened Util
  import opened Bytes

  datatype Net = Net(ip: Bytes, hostBits: nat) {
    predicate WellFormed() {
      && (|ip| == 4 || |ip| == 16) && hostBits <= 8 * |ip|
      && AndBytes(ip, Mask()) == ip
    }

    function Mask(): Bytes
      requires hostBits <= 8 * |ip|
    {
      MaskOf(|ip|, hostBits)
    }

    function Base(): nat {
      FromBytes(ip)
    }
  }

  const V4_MAPPED: Bytes := [0, 0, 0, 0, 0, 0, 0, 0, 0, 0, 255, 255]

  /** An IPv4 address in its IPv6 form (section 2.5.5.2 of RFC 4291). */
  predicate Mapped(ip: Bytes) {
    |ip| == 16 && ip[..12] == V4_MAPPED
  }

  /** net.IP.To4. */
  function To4(ip: Bytes): Option<Bytes> {
    if |ip| == 4 then Some(ip) else if Mapped(ip) then Some(ip[12..]) else None
  }

  /** The address itself, or the IPv4 one that it is a form of. */
  function Canonical(ip: Bytes): Bytes {
    if To4(ip).Some? then To4(ip).value else ip
  }

  /** net.IPNet.Contains: addresses and networks in IPv4-mapped form are taken as IPv4. */
  predicate Contains(net: Net, ip: Bytes)
    requires net.WellFormed()
  {
    var mask := if Mapped(net.ip) then net.Mask()[12..] else net.Mask();
    var x, base := Canonical(ip), Canonical(net.ip);
    |x| == |base| && AndBytes(x, mask) == AndBytes(base, mask)
  }

  /** A byte above the host bits of a member is the network's. */
  lemma MemberByte(ip: Bytes, net: Net, i: nat)
    requires net.WellFormed() && |ip| == |net.ip| && i < |ip| && net.hostBits <= 8 * (|ip| - 1 - i)
    requires AndBytes(ip, net.Mask()) == net.ip
    ensures ip[i] == net.ip[i]
  {
    Pow2Of8();
    AndAll(ip[i], 8);
    assert net.Mask()[i] == MaskByte(net.hostBits - 8 * (|ip| - 1 - i));
    assert net.ip[i] == And8(ip[i], 255);
  }

  lemma FullMaskByte(h: int)
    ensures And8(255, MaskByte(h)) == 255 ==> h <= 0
  {
  }

  /** A network in IPv4-mapped form has an IPv4 number of host bits. */
  lemma MappedHostBits(net: Net)
    requires net.WellFormed() && Mapped(net.ip)
    ensures net.hostBits <= 32
  {
    assert net.ip[11] == net.ip[..12][11] == 255;
    assert AndBytes(net.ip, net.Mask())[11] == And8(net.ip[11], MaskByte(net.hostBits - 32));
    FullMaskByte(net.hostBits - 32);
  }

  lemma MemberIsMapped(ip: Bytes, net: Net)
    requires net.WellFormed() && Mapped(net.ip) && |ip| == 16 && AndBytes(ip, net.Mask()) == net.ip
    ensures Mapped(ip)
  {
    MappedHostBits(net);
    forall i | 0 <= i < 12 ensures ip[..12][i] == net.ip[..12][i] {
      MemberByte(ip, net, i);
    }
  }

  /** Byte-wise membership is membership in an interval of numbers. */
  lemma ContainsIff(net: Net, ip: Bytes)
    requires net.WellFormed() && |ip| == |net.ip| && !Mapped(ip)
    ensures Contains(net, ip) <==> net.Base() <= FromBytes(ip) < net.Base() + Pow2(net.hostBits)
  {
    MaskInterval(ip, net.ip, net.hostBits);
    if Mapped(net.ip) && AndBytes(ip, net.Mask()) == net.ip {
      MemberIsMapped(ip, net);
    }
  }

  /** The bytes that ipNetToRange works on: an address that is IPv4 in either form gets the mapped prefix in front. */
  function Wide(ip: Bytes): Bytes {
    if To4(ip).Some? then V4_MAPPED + ip else ip
  }

  /** The last |mask| of the first 16 bytes with their host bits set. */
  function HostBitsSet(bs: Bytes, mask: Bytes): (r: Bytes)
    requires |bs| >= 16 && |mask| <= 16
    ensures |r| == |bs|
  {
    bs[..16 - |mask|] + OrBytes(bs[16 - |mask|..16], NotBytes(mask)) + bs[16..]
  }

  /** The loop over the mask, from its last byte on. */
  method SetHostBits(buf: array<Byte>, mask: Bytes)
    requires buf.Length >= 16 && |mask| <= 16
    modifies buf
    ensures buf[..] == HostBitsSet(old(buf[..]), mask)
  {
    ghost var was := buf[..];
    ghost var goal := HostBitsSet(was, mask);
    for i := 0 to |mask|
      invariant forall j :: 0 <= j < buf.Length ==> buf[j] == if 16 - i <= j < 16 then goal[j] else was[j]
    {
      var k := 16 - i - 1;
      assert goal[k] == Or8(was[k], Not8(mask[|mask| - i - 1]));
      buf[k] := Or8(buf[k], Not8(mask[|mask| - i - 1]));
    }
    assert forall j :: 0 <= j < 16 - |mask| ==> goal[j] == was[j];
    assert forall j :: 16 <= j < buf.Length ==> goal[j] == was[j];
  }

  /** The end of a network's range, as ipNetToRange computes it. */
  method LastIp(net: Net) returns (last: Bytes)
    requires net.WellFormed()
    ensures last == HostBitsSet(Wide(net.ip), net.Mask())
  {
    var first := Wide(net.ip);
    var buf := new Byte[|first|](i requires 0 <= i < |first| => first[i]);
    assert buf[..] == first;
    SetHostBits(buf, net.Mask());
    last := buf[..];
  }

  /** Unless the network is in IPv4-mapped form, that is its address with the host bits set, in 16 bytes. */
  lemma LastIpIs(net: Net)
    requires net.WellFormed() && !Mapped(net.ip)
    ensures HostBitsSet(Wide(net.ip), net.Mask()) == WideLast(OrBytes(net.ip, NotBytes(net.Mask())))
  {
    var first := Wide(net.ip);
    assert first[16 - |net.ip|..16] == net.ip && first[16..] == [];
  }

  /** An address in 16 bytes. */
  function WideLast(ip: Bytes): Bytes {
    if |ip| == 4 then V4_MAPPED + ip else ip
  }

  /** The mask loop computes base + 2^h - 1. */
  lemma LastIpValue(net: Net)
    requires net.WellFormed()
    ensures FromBytes(OrBytes(net.ip, NotBytes(net.Mask()))) == net.Base() + Pow2(net.hostBits) - 1
  {
    OrNotMaskValue(net.ip, net.Mask());
    NotMaskValue(|net.ip|, net.hostBits);
  }

  function Abs(x: int): nat {
    if x < 0 then -x else x
  }

  /** Where an index points: counted from the first address, or back from the one after the last. */
  function Target(net: Net, index: int): int {
    if index >= 0 then net.Base() + index else net.Base() + Pow2(net.hostBits) + index
  }

  /** Big-endian bytes lose leading zeros, so only a target with a nonzero top byte has the network's length. */
  predicate Reaches(net: Net, target: nat)
    requires |net.ip| > 0
  {
    net.Base() <= target < net.Base() + Pow2(net.hostBits) && target >= Pow256(|net.ip| - 1)
  }

  lemma ShortBytesOutside(net: Net, v: nat)
    requires net.WellFormed() && !Mapped(net.ip) && v < Pow256(|net.ip| - 1)
    ensures !Contains(net, ToBytes(v))
  {
    LengthBound(v, |net.ip| - 1);
  }

  lemma MappedTop(ip: Bytes)
    ensures Mapped(ip) ==> ip[0] == 0
  {
    if Mapped(ip) {
      assert ip[0] == ip[..12][0];
    }
  }

  lemma TopByteNotZero(v: nat)
    requires v > 0
    ensures ToBytes(v) != [] && ToBytes(v)[0] != 0
  {
    if v >= 256 {
      TopByteNotZero(v / 256);
    }
  }

  lemma WholeMember(net: Net, bs: Bytes)
    requires net.WellFormed() && !Mapped(net.ip) && |bs| >= |net.ip| && bs[0] != 0
    requires |bs| > |net.ip| ==> FromBytes(bs) >= Pow256(|net.ip|)
    ensures Contains(net, bs) <==> net.Base() <= FromBytes(bs) < net.Base() + Pow2(net.hostBits)
  {
    if |bs| == |net.ip| {
      ContainsIff(net, bs);
    } else {
      NetworkEnds(net);
      MappedTop(bs);
      LongerNotContained(net, bs);
    }
  }

  lemma LongBytesMember(net: Net, v: nat)
    requires net.WellFormed() && !Mapped(net.ip) && v >= Pow256(|net.ip| - 1)
    ensures Contains(net, ToBytes(v)) <==> net.Base() <= v < net.Base() + Pow2(net.hostBits)
  {
    RoundTrip(v);
    TopByteNotZero(v);
    LengthBound(v, |net.ip| - 1);
    LengthBound(v, |net.ip|);
    WholeMember(net, ToBytes(v));
  }

  lemma LongerNotContained(net: Net, bs: Bytes)
    requires net.WellFormed() && |bs| > |net.ip| && !Mapped(bs)
    ensures !Contains(net, bs)
  {
  }

  /** A network lies within the addresses of its length. */
  lemma NetworkEnds(net: Net)
    requires net.WellFormed()
    ensures net.Base() + Pow2(net.hostBits) <= Pow256(|net.ip|)
  {
    LastIpValue(net);
    ValueBound(OrBytes(net.ip, NotBytes(net.Mask())));
  }

  /** Contains on the bytes of a number. */
  lemma ContainsNumber(net: Net, v: nat)
    requires net.WellFormed() && !Mapped(net.ip)
    ensures Contains(net, ToBytes(v)) <==> Reaches(net, v)
  {
    if v < Pow256(|net.ip| - 1) {
      ShortBytesOutside(net, v);
    } else {
      LongBytesMember(net, v);
    }
  }

  /** The number GetIPAtIndex starts from: the low half of an address that reads as IPv4. */
  function Start(ip: Bytes): nat {
    if To4(ip).Some? then FromBytes(To4(ip).value) else FromBytes(ip)
  }

  const INT64: int := 0x8000_0000_0000_0000

  lemma StartOfWide(ip: Bytes)
    requires |ip| == 4 || |ip| == 16
    ensures !Mapped(ip) ==> Start(WideLast(ip)) == FromBytes(ip)
  {
    if |ip| == 4 {
      assert (V4_MAPPED + ip)[..12] == V4_MAPPED && (V4_MAPPED + ip)[12..] == ip;
    }
  }

  lemma Powers()
    ensures Pow256(4) < INT64 && INT64 + Pow256(4) < Pow256(15)
  {
    assert Pow256(4) == 0x1_0000_0000;
    assert Pow256(8) == 256 * 256 * 256 * 256 * Pow256(4);
    assert Pow256(12) >= Pow256(8);
    assert Pow256(15) >= Pow256(12);
  }

  /** If the last address reads as IPv4, neither the number used for it nor the real one has 16 bytes. */
  lemma LowStartOutside(last: Bytes, offset: int)
    requires -INT64 <= offset <= 0 && Mapped(last)
    ensures Abs(Start(last) + offset) < Pow256(15) && Abs(FromBytes(last) + offset) < Pow256(15)
  {
    Powers();
    ValueBound(last[12..]);
    ValueBound(last[1..]);
    MappedTop(last);
    assert last == Zeros(1) + last[1..];
    LeadingZeros(last[1..], 1);
  }

  lemma LowUnreached(net: Net, target: nat)
    requires |net.ip| == 16 && target < Pow256(15)
    ensures !Reaches(net, target)
  {
  }

  lemma MappedUnreached(net: Net, last: Bytes, offset: int)
    requires |net.ip| == 16 && Mapped(last) && -INT64 <= offset <= 0
    ensures WideLast(last) == last
    ensures !Reaches(net, Abs(Start(last) + offset)) && !Reaches(net, Abs(FromBytes(last) + offset))
  {
    LowStartOutside(last, offset);
    LowUnreached(net, Abs(Start(last) + offset));
    LowUnreached(net, Abs(FromBytes(last) + offset));
  }

  /** The number used for an address is its value, or neither reaches the network after an offset. */
  lemma StartChoice(net: Net, last: Bytes, offset: int)
    requires |net.ip| == |last| && (|last| == 4 || |last| == 16) && -INT64 <= offset <= 0
    ensures var val, target := Start(WideLast(last)) + offset, FromBytes(last) + offset;
            val == target || (!Reaches(net, Abs(val)) && !Reaches(net, Abs(target)))
  {
    StartOfWide(last);
    if Mapped(last) {
      MappedUnreached(net, last, offset);
    }
  }

  /** What is looked up for a negative index is its target, or both lie outside the network. */
  lemma FromEnd(net: Net, last: Bytes, index: int)
    requires net.WellFormed() && -INT64 <= index < 0 && last == OrBytes(net.ip, NotBytes(net.Mask()))
    ensures var val := Start(WideLast(last)) + index + 1;
            val == Target(net, index) || (!Reaches(net, Abs(val)) && !Reaches(net, Abs(Target(net, index))))
  {
    LastIpValue(net);
    StartChoice(net, last, index + 1);
  }

  lemma FirstByteStays(bs: Bytes, mask: Bytes, i: nat)
    requires |bs| >= 16 && |mask| == 16 && i < 16 && bs[i] != 0
    ensures HostBitsSet(bs, mask)[i] != 0
  {
    OrAtLeast(bs[i], Not8(mask[i]));
  }

  /** For a network in IPv4-mapped form the range starts and ends with numbers of at least 17 bytes. */
  lemma MappedRange(net: Net, offset: int)
    requires net.WellFormed() && Mapped(net.ip) && -INT64 <= offset
    ensures Start(Wide(net.ip)) + offset >= Pow256(16) && Start(HostBitsSet(Wide(net.ip), net.Mask())) + offset >= Pow256(16)
  {
    var first := Wide(net.ip);
    assert |first| == 28 && first[10] == 255;
    FirstByteStays(first, net.Mask(), 10);
    NonzeroByte(first, 10);
    NonzeroByte(HostBitsSet(first, net.Mask()), 10);
    Powers();
    assert Pow256(17) == 256 * Pow256(16) && Pow256(16) == 256 * Pow256(15);
  }

  lemma LongNotContained(net: Net, v: nat)
    requires net.WellFormed() && v >= Pow256(16)
    ensures !Contains(net, ToBytes(v))
  {
    LengthBound(v, 16);
  }

  /** Such a network reaches no number of 16 bytes. */
  lemma MappedReachesNothing(net: Net, target: nat)
    requires net.WellFormed() && Mapped(net.ip)
    ensures !Reaches(net, target)
  {
    MappedTop(net.ip);
    assert net.ip == Zeros(1) + net.ip[1..];
    LeadingZeros(net.ip[1..], 1);
    MappedHostBits(net);
    var last := OrBytes(net.ip, NotBytes(net.Mask()));
    LastIpValue(net);
    assert net.Mask()[0] == MaskByte(net.hostBits - 120) == 255;
    assert last[0] == Or8(0, 0) == 0;
    assert last == Zeros(1) + last[1..];
    LeadingZeros(last[1..], 1);
    ValueBound(last[1..]);
  }

  /** The number looked up for an index. */
  method Lookup(net: Net, index: int) returns (val: int)
    requires net.WellFormed() && -INT64 <= index < INT64
    ensures !Mapped(net.ip) ==>
              val == Target(net, index) || (!Reaches(net, Abs(val)) && !Reaches(net, Abs(Target(net, index))))
    ensures Mapped(net.ip) ==> val >= Pow256(16)
  {
    if index >= 0 {
      val := Start(Wide(net.ip)) + index;
      StartOfWide(net.ip);
    } else {
      var last := LastIp(net);
      val := Start(last) + index + 1;
      if !Mapped(net.ip) {
        LastIpIs(net);
        FromEnd(net, OrBytes(net.ip, NotBytes(net.Mask())), index);
      }
    }
    if Mapped(net.ip) {
      MappedRange(net, if index >= 0 then index else index + 1);
    }
  }

  /** GetIPAtIndex, for any 64-bit index. */
  method GetIpAtIndex(net: Net, index: int) returns (r: Option<Bytes>)
    requires net.WellFormed() && -INT64 <= index < INT64
    ensures r == if Reaches(net, Abs(Target(net, index))) then Some(ToBytes(Abs(Target(net, index)))) else None
  {
    var val := Lookup(net, index);
    var bytes := ToBytes(Abs(val));
    if Mapped(net.ip) {
      LongNotContained(net, val);
      MappedReachesNothing(net, Abs(Target(net, index)));
    } else {
      ContainsNumber(net, Abs(val));
    }
    r := if Contains(net, bytes) then Some(bytes) else None;
  }

  /** DeriveGatewayIP on a parsed CIDR. */
  method DeriveGateway(net: Net) returns (r: Option<Bytes>)
    requires net.WellFormed()
    ensures r.Some? <==> net.hostBits >= 2 && net.Base() + Pow2(net.hostBits) - 3 >= Pow256(|net.ip| - 1)
    ensures r.Some? ==> |r.value| == |net.ip| && FromBytes(r.value) == net.Base() + Pow2(net.hostBits) - 3
  {
    r := GetIpAtIndex(net, -3);
    GatewayTarget(net);
    if r.Some? {
      BytesOfMember(net, Target(net, -3));
    }
  }

  /** 0.0.0.0/8 has no gateway: its third address from the end, 0.255.255.253, starts with a zero byte. */
  lemma ZeroNetworkHasNoGateway()
    ensures var net := Net([0, 0, 0, 0], 24);
            net.WellFormed() && net.hostBits >= 2 && net.Base() + Pow2(net.hostBits) - 3 < Pow256(|net.ip| - 1)
  {
    var net := Net([0, 0, 0, 0], 24);
    assert AndBytes(net.ip, net.Mask()) == net.ip;
    LeadingZeros([], 4);
    assert net.ip == Zeros(4) + [];
    Pow256IsPow2(3);
  }

  lemma SmallPowers(h: nat)
    ensures h >= 2 ==> Pow2(h) >= 4
    ensures h < 2 ==> Pow2(h) <= 2
  {
    if h >= 2 {
      Pow2Monotone(2, h);
    }
  }

  lemma SmallTarget(net: Net)
    requires net.WellFormed()
    ensures Pow256(|net.ip| - 1) >= 256
  {
    assert Pow256(|net.ip| - 2) >= 1;
  }

  lemma BytesOfMember(net: Net, g: nat)
    requires net.WellFormed() && Reaches(net, g)
    ensures |ToBytes(g)| == |net.ip| && FromBytes(ToBytes(g)) == g
  {
    RoundTrip(g);
    NetworkEnds(net);
    LengthBound(g, |net.ip|);
    LengthBound(g, |net.ip| - 1);
  }

  lemma GatewayTarget(net: Net)
    requires net.WellFormed()
    ensures var g := Target(net, -3);
            && (Reaches(net, Abs(g)) <==> net.hostBits >= 2 && g >= Pow256(|net.ip| - 1))
            && (Reaches(net, Abs(g)) ==> g >= 0)
  {
    SmallPowers(net.hostBits);
    SmallTarget(net);
  }

  /** With a nonzero top byte the gateway is the third address from the end of every network of four or more. */
  lemma TopByteSuffices(net: Net)
    requires net.WellFormed() && net.ip[0] != 0 && net.hostBits >= 2
    ensures net.Base() + Pow2(net.hostBits) - 3 >= Pow256(|net.ip| - 1)
  {
    SmallPowers(net.hostBits);
    NonzeroByte(net.ip, 0);
  }
}
