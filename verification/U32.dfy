/**
 Source-address keys of tc u32 filters (pkg/tc/u32.go) and the garbage collection of filters whose pod is
 gone (daemon/daemon_linux.go). An address is its bytes; an IP string is the address it prints.
 */
module U32 {
  import opened Util
  import opened Bytes
  import opened Gateway

  /** `mask` and `val` are 32-bit words; `off` counts bytes from the start of the IP header. */
  datatype Key = Key(mask: nat, val: nat, off: int)

  datatype IpNet = IpNet(ip: Bytes, mask: Bytes) {
    predicate V4() {
      To4(ip).Some? && |mask| == 4
    }

    predicate V6() {
      To4(ip).None? && |ip| == 16 && |mask| == 16
    }
  }

  /** binary.BigEndian.Uint32 of the `i`th word. */
  function Word(bs: Bytes, i: nat): nat
    requires 4 * i + 4 <= |bs|
  {
    FromBytes(bs[4 * i..4 * i + 4])
  }

  /** binary.BigEndian.PutUint32. */
  function WordBytes(v: nat): (r: Bytes)
    ensures |r| == 4
  {
    Fit(ToBytes(v), 4)
  }

  lemma WordRoundTrip(bs: Bytes)
    requires |bs| == 4
    ensures WordBytes(FromBytes(bs)) == bs
  {
    FitOfValue(bs);
  }

  // Building keys.

  /** The keys for the first `n` words: one for each word whose mask has a bit. */
  function SourceKeys(val: Bytes, mask: Bytes, n: nat): seq<Key>
    requires |val| == |mask| == 16 && n <= 4
  {
    if n == 0 then [] else SourceKeys(val, mask, n - 1) + WordKeys(val, mask, n - 1)
  }

  function WordKeys(val: Bytes, mask: Bytes, i: nat): seq<Key>
    requires |val| == |mask| == 16 && i < 4
  {
    if Word(mask, i) != 0 then [Key(Word(mask, i), Word(val, i), 8 + 4 * i)] else []
  }

  method U32IPv6Src(net: IpNet) returns (r: seq<Key>)
    requires net.V6()
    ensures r == SourceKeys(AndBytes(net.ip, net.mask), net.mask, 4)
  {
    r := WordLoop(AndBytes(net.ip, net.mask), net.mask);
  }

  method WordLoop(val0: Bytes, mask0: Bytes) returns (r: seq<Key>)
    requires |val0| == |mask0| == 16
    ensures r == SourceKeys(val0, mask0, 4)
  {
    var mask, val := mask0, val0;
    r := [];
    for i := 0 to 4
      invariant mask == mask0[4 * i..] && val == val0[4 * i..]
      invariant r == SourceKeys(val0, mask0, i)
    {
      assert mask[..4] == mask0[4 * i..4 * i + 4] && val[..4] == val0[4 * i..4 * i + 4];
      var m := FromBytes(mask[..4]);
      if m != 0 {
        r := r + [Key(m, FromBytes(val[..4]), 8 + 4 * i)];
      }
      mask, val := mask[4..], val[4..];
    }
  }

  function U32IPv4Src(net: IpNet): Key
    requires net.V4()
  {
    Key(FromBytes(net.mask), FromBytes(AndBytes(To4(net.ip).value, net.mask)), 12)
  }

  method U32MatchSrc(net: IpNet) returns (r: seq<Key>)
    requires net.V4() || net.V6()
    ensures r == Keys(net)
  {
    if To4(net.ip).None? {
      r := U32IPv6Src(net);
    } else {
      r := [U32IPv4Src(net)];
    }
  }

  function Keys(net: IpNet): seq<Key>
    requires net.V4() || net.V6()
  {
    if net.V4() then [U32IPv4Src(net)] else SourceKeys(AndBytes(net.ip, net.mask), net.mask, 4)
  }

  // What the keys select.

  /** A u32 key compares the masked word at its offset. */
  predicate Hits(k: Key, header: Bytes) {
    && 0 <= k.off && k.off + 4 <= |header|
    && AndBytes(header[k.off..k.off + 4], WordBytes(k.mask)) == WordBytes(k.val)
  }

  lemma EmptyWord(a: Bytes, m: Bytes)
    requires |a| == |m| == 4 && FromBytes(m) == 0
    ensures AndBytes(a, m) == Zeros(4)
  {
    LeadingZeros([], 4);
    assert Zeros(4) == Zeros(4) + [];
    SameValueSameBytes(m, Zeros(4));
  }

  function Slice(bs: Bytes, i: nat): Bytes
    requires 4 * i + 4 <= |bs|
  {
    bs[4 * i..4 * i + 4]
  }

  lemma AndSlices(a: Bytes, b: Bytes, m: Bytes, n: nat)
    requires |a| == |b| == |m| == 16 && 0 < n <= 4
    ensures AndBytes(a[..4 * n], m[..4 * n]) == AndBytes(b[..4 * n], m[..4 * n]) <==>
            && AndBytes(a[..4 * n - 4], m[..4 * n - 4]) == AndBytes(b[..4 * n - 4], m[..4 * n - 4])
            && AndBytes(Slice(a, n - 1), Slice(m, n - 1)) == AndBytes(Slice(b, n - 1), Slice(m, n - 1))
  {
    AndSplits(a, m, n);
    AndSplits(b, m, n);
    Appended(AndBytes(a[..4 * n - 4], m[..4 * n - 4]), AndBytes(Slice(a, n - 1), Slice(m, n - 1)),
             AndBytes(b[..4 * n - 4], m[..4 * n - 4]), AndBytes(Slice(b, n - 1), Slice(m, n - 1)));
  }

  lemma Appended(x: Bytes, y: Bytes, u: Bytes, v: Bytes)
    requires |x| == |u|
    ensures x + y == u + v <==> x == u && y == v
  {
    assert (x + y)[..|x|] == x && (x + y)[|x|..] == y;
    assert (u + v)[..|u|] == u && (u + v)[|u|..] == v;
  }

  lemma AndSplits(a: Bytes, m: Bytes, n: nat)
    requires |a| == |m| == 16 && 0 < n <= 4
    ensures AndBytes(a[..4 * n], m[..4 * n]) ==
            AndBytes(a[..4 * n - 4], m[..4 * n - 4]) + AndBytes(Slice(a, n - 1), Slice(m, n - 1))
  {
  }

  lemma KeyHits(src: Bytes, ip: Bytes, mask: Bytes, i: nat)
    requires |src| == |ip| == |mask| == 16 && i < 4
    ensures AndBytes(Slice(src, i), WordBytes(Word(mask, i))) == WordBytes(Word(AndBytes(ip, mask), i)) <==>
            AndBytes(Slice(src, i), Slice(mask, i)) == AndBytes(Slice(ip, i), Slice(mask, i))
  {
    assert AndBytes(ip, mask)[4 * i..4 * i + 4] == AndBytes(Slice(ip, i), Slice(mask, i));
    WordRoundTrip(Slice(mask, i));
    WordRoundTrip(AndBytes(Slice(ip, i), Slice(mask, i)));
  }

  predicate AllHit(keys: seq<Key>, header: Bytes) {
    forall k :: k in keys ==> Hits(k, header)
  }

  lemma SourceSlice(header: Bytes, i: nat)
    requires |header| >= 24 && i < 4
    ensures Slice(header[8..24], i) == header[8 + 4 * i..8 + 4 * i + 4]
  {
    var a, b := Slice(header[8..24], i), header[8 + 4 * i..8 + 4 * i + 4];
    assert |a| == |b| == 4;
    forall j | 0 <= j < 4 ensures a[j] == b[j] {
      assert a[j] == header[8..24][4 * i + j] == header[8 + 4 * i + j];
    }
  }

  lemma WordSelects(net: IpNet, header: Bytes, i: nat)
    requires net.V6() && |header| >= 24 && i < 4
    ensures AllHit(WordKeys(AndBytes(net.ip, net.mask), net.mask, i), header) <==>
            AndBytes(Slice(header[8..24], i), Slice(net.mask, i)) == AndBytes(Slice(net.ip, i), Slice(net.mask, i))
  {
    var src, val := header[8..24], AndBytes(net.ip, net.mask);
    if Word(net.mask, i) == 0 {
      EmptyWord(Slice(src, i), Slice(net.mask, i));
      EmptyWord(Slice(net.ip, i), Slice(net.mask, i));
    } else {
      SourceSlice(header, i);
      KeyHits(src, net.ip, net.mask, i);
      assert Key(Word(net.mask, i), Word(val, i), 8 + 4 * i) in WordKeys(val, net.mask, i);
    }
  }

  /** The IPv6 keys hit exactly the headers whose source address agrees with the network under its mask. */
  lemma {:induction false} SelectsSource(net: IpNet, header: Bytes, n: nat)
    requires net.V6() && |header| >= 24 && n <= 4
    ensures AllHit(SourceKeys(AndBytes(net.ip, net.mask), net.mask, n), header) <==>
            AndBytes(header[8..24][..4 * n], net.mask[..4 * n]) == AndBytes(net.ip[..4 * n], net.mask[..4 * n])
  {
    if n > 0 {
      var val := AndBytes(net.ip, net.mask);
      SelectsSource(net, header, n - 1);
      WordSelects(net, header, n - 1);
      AndSlices(header[8..24], net.ip, net.mask, n);
      AllHitAppend(SourceKeys(val, net.mask, n - 1), WordKeys(val, net.mask, n - 1), header);
    }
  }

  lemma AllHitAppend(keys: seq<Key>, more: seq<Key>, header: Bytes)
    ensures AllHit(keys + more, header) <==> AllHit(keys, header) && AllHit(more, header)
  {
    forall k ensures k in keys + more <==> k in keys || k in more {
    }
  }

  /** The keys built for a network hit exactly the packets sent from it. */
  lemma KeysSelectSource(net: IpNet, header: Bytes)
    requires (net.V4() || net.V6()) && |header| >= 24
    ensures net.V4() ==>
              (AllHit(Keys(net), header) <==> AndBytes(header[12..16], net.mask) == AndBytes(To4(net.ip).value, net.mask))
    ensures net.V6() ==>
              (AllHit(Keys(net), header) <==> AndBytes(header[8..24], net.mask) == AndBytes(net.ip, net.mask))
  {
    if net.V4() {
      WordRoundTrip(net.mask);
      WordRoundTrip(AndBytes(To4(net.ip).value, net.mask));
      assert U32IPv4Src(net) in Keys(net);
    } else {
      SelectsSource(net, header, 4);
      assert header[8..24][..16] == header[8..24] && net.mask[..16] == net.mask && net.ip[..16] == net.ip;
    }
  }

  // Reading an address back from keys.

  /** The value of the first key at an offset. */
  function ValueAt(keys: seq<Key>, off: int): Option<nat> {
    if keys == [] then None
    else
      var before := ValueAt(keys[..|keys| - 1], off);
      var k := keys[|keys| - 1];
      if before.Some? then before else if k.off == off then Some(k.val) else None
  }

  /** Four keys, one at each word of the source field. */
  predicate Covers(keys: seq<Key>) {
    |keys| == 4 && Finds(keys, 0) && Finds(keys, 1) && Finds(keys, 2) && Finds(keys, 3)
  }

  predicate Finds(keys: seq<Key>, w: int) {
    ValueAt(keys, 8 + 4 * w).Some?
  }

  function Piece(keys: seq<Key>, w: int): Bytes {
    var v := ValueAt(keys, 8 + 4 * w);
    if v.Some? then WordBytes(v.value) else []
  }

  function Decode(keys: seq<Key>): Option<Bytes> {
    if Covers(keys) then Some(Piece(keys, 0) + Piece(keys, 1) + Piece(keys, 2) + Piece(keys, 3)) else None
  }

  function One(b: bool): nat {
    if b then 1 else 0
  }

  function Found(keys: seq<Key>): nat {
    One(Finds(keys, 0)) + One(Finds(keys, 1)) + One(Finds(keys, 2)) + One(Finds(keys, 3))
  }

  lemma Extend(keys: seq<Key>, i: nat, w: int)
    requires i < |keys|
    ensures ValueAt(keys[..i + 1], 8 + 4 * w) ==
            if Finds(keys[..i], w) then ValueAt(keys[..i], 8 + 4 * w)
            else if keys[i].off == 8 + 4 * w then Some(keys[i].val) else None
  {
    assert keys[..i + 1][..i] == keys[..i];
  }

  lemma {:induction false} FoundBound(keys: seq<Key>, i: nat)
    requires i <= |keys|
    ensures Found(keys) <= Found(keys[..i]) + |keys| - i
    decreases |keys| - i
  {
    if i == |keys| {
      assert keys[..i] == keys;
    } else {
      FoundBound(keys, i + 1);
      Extend(keys, i, 0);
      Extend(keys, i, 1);
      Extend(keys, i, 2);
      Extend(keys, i, 3);
    }
  }

  /** A key outside the field, or at a word already seen, leaves too few keys for the rest. */
  lemma Wasted(keys: seq<Key>, i: nat)
    requires |keys| == 4 && i < 4
    requires Found(keys[..i + 1]) == Found(keys[..i])
    ensures !Covers(keys)
  {
    FoundBound(keys, i + 1);
    FoundAtMost(keys[..i]);
  }

  lemma {:induction false} FoundAtMost(keys: seq<Key>)
    ensures Found(keys) <= |keys|
  {
    if keys != [] {
      var i := |keys| - 1;
      FoundAtMost(keys[..i]);
      assert keys[..i + 1] == keys;
      Extend(keys, i, 0);
      Extend(keys, i, 1);
      Extend(keys, i, 2);
      Extend(keys, i, 3);
    }
  }

  function Offsets(keys: seq<Key>): multiset<int> {
    if keys == [] then multiset{} else Offsets(keys[..|keys| - 1]) + multiset{keys[|keys| - 1].off}
  }

  lemma {:induction false} ValueAtIff(keys: seq<Key>, off: int)
    ensures ValueAt(keys, off).Some? <==> off in Offsets(keys)
    ensures |Offsets(keys)| == |keys|
  {
    if keys != [] {
      ValueAtIff(keys[..|keys| - 1], off);
    }
  }

  /** An address is read back exactly from four keys that take offsets 8, 12, 16 and 20 once each. */
  lemma DecodesIff(keys: seq<Key>)
    ensures Decode(keys).Some? <==> Offsets(keys) == multiset{8, 12, 16, 20}
  {
    ValueAtIff(keys, 8);
    ValueAtIff(keys, 12);
    ValueAtIff(keys, 16);
    ValueAtIff(keys, 20);
    if Covers(keys) {
      var spare := Offsets(keys) - multiset{8, 12, 16, 20};
      assert Offsets(keys) == multiset{8, 12, 16, 20} + spare;
      assert |spare| == 0;
    }
  }

  /** What the key loop has stored so far: the words seen, one bit each, and their bytes. */
  ghost predicate Stored(keys: seq<Key>, seen: bv8, ip: Bytes) {
    && |ip| == 16 && seen <= 15
    && ((seen & 1 != 0) <==> Finds(keys, 0)) && ((seen & 2 != 0) <==> Finds(keys, 1))
    && ((seen & 4 != 0) <==> Finds(keys, 2)) && ((seen & 8 != 0) <==> Finds(keys, 3))
    && (Finds(keys, 0) ==> ip[0..4] == Piece(keys, 0)) && (Finds(keys, 1) ==> ip[4..8] == Piece(keys, 1))
    && (Finds(keys, 2) ==> ip[8..12] == Piece(keys, 2)) && (Finds(keys, 3) ==> ip[12..16] == Piece(keys, 3))
  }

  /** uint8(1) << w. */
  function Bit(w: int): bv8
    requires 0 <= w < 4
  {
    if w == 0 then 1 else if w == 1 then 2 else if w == 2 then 4 else 8
  }

  lemma Rejects(keys: seq<Key>, i: nat, seen: bv8, ip: Bytes)
    requires |keys| == 4 && i < 4 && Stored(keys[..i], seen, ip)
    requires var b := keys[i].off - 8; b < 0 || b % 4 != 0 || b >= 16 || seen & Bit(b / 4) != 0
    ensures Decode(keys) == None
  {
    Extend(keys, i, 0);
    Extend(keys, i, 1);
    Extend(keys, i, 2);
    Extend(keys, i, 3);
    Wasted(keys, i);
  }

  function Put(ip: Bytes, at: nat, word: Bytes): Bytes
    requires |ip| == 16 && |word| == 4 && at <= 12
  {
    ip[..at] + word + ip[at + 4..]
  }

  lemma PutSlice(ip: Bytes, w: nat, word: Bytes, v: nat)
    requires |ip| == 16 && |word| == 4 && w < 4 && v < 4
    ensures Put(ip, 4 * w, word)[4 * v..4 * v + 4] == if v == w then word else ip[4 * v..4 * v + 4]
  {
  }

  lemma Stores(keys: seq<Key>, i: nat, seen: bv8, ip: Bytes, w: int)
    requires i < |keys| && Stored(keys[..i], seen, ip)
    requires 0 <= w < 4 && keys[i].off == 8 + 4 * w && seen & Bit(w) == 0
    ensures Stored(keys[..i + 1], seen | Bit(w), Put(ip, 4 * w, WordBytes(keys[i].val)))
  {
    PutSlice(ip, w, WordBytes(keys[i].val), 0);
    PutSlice(ip, w, WordBytes(keys[i].val), 1);
    PutSlice(ip, w, WordBytes(keys[i].val), 2);
    PutSlice(ip, w, WordBytes(keys[i].val), 3);
    Extend(keys, i, 0);
    Extend(keys, i, 1);
    Extend(keys, i, 2);
    Extend(keys, i, 3);
  }

  lemma Complete(keys: seq<Key>, seen: bv8, ip: Bytes)
    requires |keys| == 4 && Stored(keys, seen, ip)
    ensures Decode(keys) == if seen == 15 then Some(ip) else None
  {
    if seen == 15 {
      assert ip == ip[0..4] + ip[4..8] + ip[8..12] + ip[12..16];
    } else {
      assert seen & 1 == 0 || seen & 2 == 0 || seen & 4 == 0 || seen & 8 == 0;
    }
  }

  method Ipv6FromU32Keys(keys: seq<Key>) returns (r: Option<Bytes>)
    ensures r == Decode(keys)
  {
    if |keys| != 4 {
      return None;
    }
    var ip := new Byte[16](_ => 0);
    var seen: bv8 := 0;
    for i := 0 to |keys|
      invariant Stored(keys[..i], seen, ip[..])
    {
      var byteOff := keys[i].off - 8;
      if byteOff < 0 || byteOff % 4 != 0 || byteOff >= 16 {
        Rejects(keys, i, seen, ip[..]);
        return None;
      }
      var bit := Bit(byteOff / 4);
      if seen & bit != 0 {
        Rejects(keys, i, seen, ip[..]);
        return None;
      }
      Stores(keys, i, seen, ip[..], byteOff / 4);
      seen := seen | bit;
      PutUint32(ip, byteOff, keys[i].val);
    }
    assert keys[..4] == keys;
    Complete(keys, seen, ip[..]);
    r := if seen == 15 then Some(ip[..]) else None;
  }

  method PutUint32(ip: array<Byte>, at: nat, val: nat)
    requires ip.Length == 16 && at <= 12
    modifies ip
    ensures ip[..] == Put(old(ip[..]), at, WordBytes(val))
  {
    var word := WordBytes(val);
    ip[at], ip[at + 1], ip[at + 2], ip[at + 3] := word[0], word[1], word[2], word[3];
    assert ip[..] == Put(old(ip[..]), at, word);
  }

  // Single addresses.

  lemma KeepsAll(ip: Bytes)
    ensures AndBytes(ip, MaskOf(|ip|, 0)) == ip
  {
    var m := MaskOf(|ip|, 0);
    forall i | 0 <= i < |ip| ensures AndBytes(ip, m)[i] == ip[i] {
      var h := 0 - 8 * (|ip| - 1 - i);
      assert h <= 0 && m[i] == MaskByte(h);
      Pow2Of8();
      AndAll(ip[i], 8);
    }
  }

  function HostKey(ip: Bytes, w: nat): Key
    requires |ip| == 16 && w < 4
  {
    Key(Word(MaskOf(16, 0), w), Word(ip, w), 8 + 4 * w)
  }

  lemma FullWord(w: nat)
    requires w < 4
    ensures Word(MaskOf(16, 0), w) != 0
  {
    assert MaskOf(16, 0)[4 * w..4 * w + 4][3] == 255;
  }

  /** The keys of a /128. */
  lemma HostKeys(ip: Bytes)
    requires |ip| == 16 && !Mapped(ip)
    ensures Keys(IpNet(ip, MaskOf(16, 0))) == [HostKey(ip, 0), HostKey(ip, 1), HostKey(ip, 2), HostKey(ip, 3)]
  {
    KeepsAll(ip);
    FullWord(0);
    FullWord(1);
    FullWord(2);
    FullWord(3);
    var m := MaskOf(16, 0);
    assert SourceKeys(ip, m, 1) == [HostKey(ip, 0)];
    assert SourceKeys(ip, m, 2) == [HostKey(ip, 0), HostKey(ip, 1)];
    assert SourceKeys(ip, m, 3) == [HostKey(ip, 0), HostKey(ip, 1), HostKey(ip, 2)];
  }

  lemma {:induction false} ValueAtOnly(keys: seq<Key>, k: Key)
    requires k in keys
    requires forall x :: x in keys && x.off == k.off ==> x.val == k.val
    ensures ValueAt(keys, k.off) == Some(k.val)
  {
    var n := |keys| - 1;
    if k in keys[..n] {
      ValueAtOnly(keys[..n], k);
    } else {
      assert keys == keys[..n] + [keys[n]];
      if exists x :: x in keys[..n] && x.off == k.off {
        var x :| x in keys[..n] && x.off == k.off;
        ValueAtOnly(keys[..n], x);
      } else {
        ValueAtNone(keys[..n], k.off);
      }
    }
  }

  lemma {:induction false} ValueAtNone(keys: seq<Key>, off: int)
    requires forall x :: x in keys ==> x.off != off
    ensures ValueAt(keys, off) == None
  {
    if keys != [] {
      ValueAtNone(keys[..|keys| - 1], off);
    }
  }

  lemma HostPiece(ip: Bytes, keys: seq<Key>, w: nat)
    requires |ip| == 16 && w < 4
    requires multiset(keys) == multiset([HostKey(ip, 0), HostKey(ip, 1), HostKey(ip, 2), HostKey(ip, 3)])
    ensures Finds(keys, w) && Piece(keys, w) == ip[4 * w..4 * w + 4]
  {
    var built := [HostKey(ip, 0), HostKey(ip, 1), HostKey(ip, 2), HostKey(ip, 3)];
    forall x ensures x in keys <==> x in built {
      assert x in keys <==> x in multiset(keys);
    }
    assert built[w] == HostKey(ip, w);
    ValueAtOnly(keys, HostKey(ip, w));
    WordRoundTrip(ip[4 * w..4 * w + 4]);
  }

  lemma HostDecodes(ip: Bytes, keys: seq<Key>)
    requires |ip| == 16
    requires multiset(keys) == multiset([HostKey(ip, 0), HostKey(ip, 1), HostKey(ip, 2), HostKey(ip, 3)])
    ensures Decode(keys) == Some(ip)
  {
    assert |keys| == |multiset(keys)| == 4;
    HostPiece(ip, keys, 0);
    HostPiece(ip, keys, 1);
    HostPiece(ip, keys, 2);
    HostPiece(ip, keys, 3);
    assert ip == ip[0..4] + ip[4..8] + ip[8..12] + ip[12..16];
  }

  /** Keys built for a /128 decode to that address in whatever order they come back. */
  lemma PermutationDecodes(ip: Bytes, keys: seq<Key>)
    requires |ip| == 16 && !Mapped(ip)
    requires multiset(keys) == multiset(Keys(IpNet(ip, MaskOf(16, 0))))
    ensures Decode(keys) == Some(ip)
  {
    HostKeys(ip);
    HostDecodes(ip, keys);
  }

  // Garbage collection of filters.

  datatype Action = Vlan | OtherAction

  datatype Filter =
    | OtherFilter
    | U32(priority: nat, sel: Option<seq<Key>>, actions: seq<Action>)

  /** The source address of a VLAN push filter, if the filter is one the collector knows. */
  function SourceOf(f: Filter): Option<Bytes> {
    if f.OtherFilter? || f.sel.None? || f.actions != [Vlan] then None
    else
      var keys := f.sel.value;
      if f.priority == 50001 && |keys| == 1 && keys[0].off == 12 then Some(WordBytes(keys[0].val))
      else if |keys| == 4 && f.priority in {50001, 50002} && Decode(keys).Some? then Some(Canonical(Decode(keys).value))
      else None
  }

  predicate Stale(f: Filter, live: set<Bytes>) {
    SourceOf(f).Some? && SourceOf(f).value !in live
  }

  predicate Addresses(live: set<Bytes>) {
    forall a :: a in live ==> |a| == 4 || (|a| == 16 && !Mapped(a))
  }

  predicate Words(f: Filter) {
    f.U32? && f.sel.Some? ==> forall k :: k in f.sel.value ==> k.val < Pow256(4)
  }

  lemma WordIn(words: set<nat>, live: set<Bytes>, val: nat)
    requires words == set a | a in live && |a| == 4 :: FromBytes(a)
    requires val < Pow256(4)
    ensures val in words <==> WordBytes(val) in live
  {
    FitValue(val, 4);
    if val in words {
      var a :| a in live && |a| == 4 && FromBytes(a) == val;
      WordRoundTrip(a);
    }
  }

  method LiveWords(live: set<Bytes>) returns (words: set<nat>)
    requires Addresses(live)
    ensures words == set a | a in live && |a| == 4 :: FromBytes(a)
  {
    words := {};
    var rest := live;
    while rest != {}
      invariant rest <= live
      invariant words == set a | a in live - rest && |a| == 4 :: FromBytes(a)
      decreases |rest|
    {
      var a :| a in rest;
      if To4(a).Some? {
        words := words + {FromBytes(To4(a).value)};
      }
      rest := rest - {a};
    }
    assert live - rest == live;
  }

  method Keep(f: Filter, words: set<nat>, live: set<Bytes>) returns (keep: bool)
    requires Addresses(live) && Words(f)
    requires words == set a | a in live && |a| == 4 :: FromBytes(a)
    ensures keep <==> !Stale(f, live)
  {
    if f.OtherFilter? {
      return true;
    }
    if f.sel.None? || |f.actions| != 1 {
      return true;
    }
    if f.actions[0] != Vlan {
      return true;
    }
    assert f.actions == [Vlan];
    var keys := f.sel.value;
    if f.priority == 50001 && |keys| == 1 && keys[0].off == 12 {
      WordIn(words, live, keys[0].val);
      keep := keys[0].val in words;
    } else if |keys| == 4 && (f.priority == 50002 || f.priority == 50001) {
      var ip := Ipv6FromU32Keys(keys);
      keep := ip.None? || Canonical(ip.value) in live;
    } else {
      keep := true;
    }
  }

  /** gcTCFilters on the filters of one link: exactly the stale filters are deleted, in order. */
  function StaleOnes(filters: seq<Filter>, live: set<Bytes>): seq<Filter> {
    if filters == [] then []
    else
      var f := filters[|filters| - 1];
      StaleOnes(filters[..|filters| - 1], live) + if Stale(f, live) then [f] else []
  }

  method GcTcFilters(filters: seq<Filter>, live: set<Bytes>) returns (deleted: seq<Filter>)
    requires Addresses(live) && forall f :: f in filters ==> Words(f)
    ensures deleted == StaleOnes(filters, live)
  {
    var words := LiveWords(live);
    deleted := [];
    for i := 0 to |filters|
      invariant deleted == StaleOnes(filters[..i], live)
    {
      assert filters[..i + 1][..i] == filters[..i];
      var keep := Keep(filters[i], words, live);
      if !keep {
        deleted := deleted + [filters[i]];
      }
    }
    assert filters[..|filters|] == filters;
  }

  /** The filter the datapath installs for one pod address, its keys in any order; IPv6 once had the IPv4 priority. */
  ghost predicate BuiltFor(f: Filter, ip: Bytes) {
    && (|ip| == 4 || (|ip| == 16 && !Mapped(ip)))
    && f.U32? && f.actions == [Vlan] && (f.priority == 50001 || (|ip| == 16 && f.priority == 50002))
    && f.sel.Some? && multiset(f.sel.value) == multiset(Keys(IpNet(ip, MaskOf(|ip|, 0))))
  }

  /** A filter built for a /32 or a /128 is deleted exactly when the address is not live. */
  lemma BuiltFilterStale(f: Filter, ip: Bytes, live: set<Bytes>)
    requires BuiltFor(f, ip)
    ensures SourceOf(f) == Some(ip)
    ensures Stale(f, live) <==> ip !in live
  {
    var keys := f.sel.value;
    if |ip| == 4 {
      var k := U32IPv4Src(IpNet(ip, MaskOf(4, 0)));
      assert |keys| == |multiset(keys)| == 1;
      assert keys[0] in multiset(keys);
      KeepsAll(ip);
      WordRoundTrip(ip);
    } else {
      PermutationDecodes(ip, keys);
    }
  }
}
