/**
 The prefixes of one ENI and one address family (pkg/eni/eni_local_ipam.go) as a value: each prefix's bitmap,
 its pod-to-offset map and its status, and the pod-to-prefix map beside them. The operations are given here
 as functions; the class in Ipam.dfy carries them out.
 */
module PrefixTable {
  import opened Util
  import opened Bytes
  import opened PrefixAddr

  type Pod = string

  datatype Status = Valid | Frozen | Deleting | OtherStatus

  datatype Info = Info(bitmap: seq<bool>, held: map<Pod, nat>, status: Status)

  datatype Table = Table(prefixes: map<Cidr, Info>, podToPrefix: map<Pod, Cidr>)

  /** An entry of the prefix list of the Node CR. */
  datatype Entry = Entry(cidr: Cidr, status: Status)

  // The agreement of the three structures.

  /** Set bits are the range of `held`, which is injective and within the bitmap. */
  ghost predicate InfoOk(c: Cidr, info: Info) {
    && |info.bitmap| == PrefixSize(c)
    && (forall p :: p in info.held ==> info.held[p] < |info.bitmap|)
    && (forall o :: 0 <= o < |info.bitmap| ==> (info.bitmap[o] <==> o in info.held.Values))
    && (forall p, q :: p in info.held && q in info.held && info.held[p] == info.held[q] ==> p == q)
  }

  ghost predicate InfosOk(prefixes: map<Cidr, Info>) {
    forall c :: c in prefixes ==> InfoOk(c, prefixes[c])
  }

  /** `podToPrefix` maps a pod to a prefix exactly when that prefix holds it. */
  ghost predicate Linked(t: Table) {
    && (forall p :: p in t.podToPrefix ==> Holds(t, t.podToPrefix[p], p))
    && (forall p, c :: Holds(t, c, p) ==> p in t.podToPrefix && t.podToPrefix[p] == c)
  }

  predicate Holds(t: Table, c: Cidr, p: Pod) {
    c in t.prefixes && p in t.prefixes[c].held
  }

  ghost predicate Ok(t: Table) {
    InfosOk(t.prefixes) && Linked(t)
  }

  /** The CIDRs a node ever sees: parsed, told apart by their texts, and without common addresses. */
  ghost predicate Universe(all: set<Cidr>) {
    && (forall c :: c in all ==> c.Parsed())
    && (forall c, d :: c in all && d in all && c != d ==> c.text != d.text && Apart(c, d))
  }

  // Bitmaps.

  /** bitset.NextClear(0), or the length when every bit is set. */
  function LowestClear(b: seq<bool>): (r: nat)
    ensures r <= |b|
    ensures forall i :: 0 <= i < r ==> b[i]
    ensures r < |b| ==> !b[r]
  {
    if b == [] || !b[0] then 0
    else
      var r := LowestClear(b[1..]) + 1;
      assert forall i :: 1 <= i < r ==> b[i] == b[1..][i - 1];
      r
  }

  predicate Free(info: Info) {
    LowestClear(info.bitmap) < |info.bitmap|
  }

  function Indices(n: nat): (r: set<nat>)
    ensures |r| == n && forall i: nat :: i in r <==> i < n
  {
    if n == 0 then {} else Indices(n - 1) + {n - 1}
  }

  lemma HeldWithin(c: Cidr, info: Info)
    requires InfoOk(c, info)
    ensures |info.held| <= |info.bitmap|
    ensures Free(info) ==> |info.held| < |info.bitmap|
  {
    InjectiveCard(info.held, Indices(|info.bitmap|));
    var o := LowestClear(info.bitmap);
    if Free(info) {
      assert o !in info.held.Values;
      InjectiveCard(info.held, Indices(|info.bitmap|) - {o});
    }
  }

  ghost function Holder(held: map<Pod, nat>, o: nat): (p: Pod)
    requires o in held.Values
    ensures p in held && held[p] == o
  {
    var p :| p in held && held[p] == o;
    p
  }

  lemma {:induction false} FullHolds(info: Info, n: nat)
    requires n <= |info.bitmap|
    requires forall o: nat :: o < n ==> o in info.held.Values
    ensures n <= |info.held|
  {
    assert forall o :: o in Indices(n) ==> o in info.held.Values;
    var holder := map o: nat | o in Indices(n) :: Holder(info.held, o);
    assert holder.Keys == Indices(n);
    InjectiveCard(holder, info.held.Keys);
  }

  /** The subtraction of uint values in sortedValidPrefixes. */
  function Remaining(info: Info): int {
    |info.bitmap| - |info.held|
  }

  /** The subtraction never underflows, and it is zero exactly for a full prefix. */
  lemma RemainingIs(c: Cidr, info: Info)
    requires InfoOk(c, info)
    ensures Remaining(info) >= 0
    ensures Remaining(info) > 0 <==> Free(info)
  {
    HeldWithin(c, info);
    if !Free(info) {
      FullHolds(info, |info.bitmap|);
    }
  }

  // The order in which prefixes are tried.

  /** The order of strings. */
  predicate Less(a: string, b: string) {
    b != [] && (a == [] || a[0] < b[0] || (a[0] == b[0] && Less(a[1..], b[1..])))
  }

  lemma {:induction false} LessTotal(a: string, b: string)
    ensures !(Less(a, b) && Less(b, a))
    ensures a != b ==> Less(a, b) || Less(b, a)
  {
    if a != [] && b != [] {
      LessTotal(a[1..], b[1..]);
      assert a == [a[0]] + a[1..] && b == [b[0]] + b[1..];
    }
  }

  lemma {:induction false} LessTransitive(a: string, b: string, c: string)
    requires Less(a, b) && Less(b, c)
    ensures Less(a, c)
  {
    if a != [] {
      if a[0] == b[0] == c[0] {
        LessTransitive(a[1..], b[1..], c[1..]);
      }
    }
  }

  /** Fewest remaining addresses first, ties by CIDR text. */
  predicate Before(prefixes: map<Cidr, Info>, c: Cidr, d: Cidr)
    requires c in prefixes && d in prefixes
  {
    || Remaining(prefixes[c]) < Remaining(prefixes[d])
    || (Remaining(prefixes[c]) == Remaining(prefixes[d]) && Less(c.text, d.text))
  }

  lemma BeforeTotal(prefixes: map<Cidr, Info>, c: Cidr, d: Cidr)
    requires c in prefixes && d in prefixes
    ensures !(Before(prefixes, c, d) && Before(prefixes, d, c))
    ensures c.text != d.text ==> Before(prefixes, c, d) || Before(prefixes, d, c)
  {
    LessTotal(c.text, d.text);
  }

  lemma BeforeTransitive(prefixes: map<Cidr, Info>, c: Cidr, d: Cidr, e: Cidr)
    requires c in prefixes && d in prefixes && e in prefixes
    requires Before(prefixes, c, d) && Before(prefixes, d, e)
    ensures Before(prefixes, c, e)
  {
    if Less(c.text, d.text) && Less(d.text, e.text) {
      LessTransitive(c.text, d.text, e.text);
    }
  }

  /** A prefix that can serve a new pod. */
  predicate Candidate(prefixes: map<Cidr, Info>, c: Cidr) {
    c in prefixes && prefixes[c].status == Valid && Free(prefixes[c])
  }

  /** The Valid prefix with the fewest free addresses, but at least one. */
  ghost predicate Best(prefixes: map<Cidr, Info>, c: Cidr) {
    Candidate(prefixes, c) && forall d :: Candidate(prefixes, d) ==> d == c || Before(prefixes, c, d)
  }

  ghost function Choice(prefixes: map<Cidr, Info>): (r: Option<Cidr>)
    ensures r.Some? ==> Best(prefixes, r.value)
    ensures r.None? ==> forall c :: !Best(prefixes, c)
  {
    if c :| Best(prefixes, c) then Some(c) else None
  }

  lemma ChoiceIs(prefixes: map<Cidr, Info>, c: Cidr)
    requires Best(prefixes, c)
    ensures Choice(prefixes) == Some(c)
  {
    var d := Choice(prefixes).value;
    if d != c {
      BeforeTotal(prefixes, c, d);
    }
  }

  lemma {:induction false} BestAmong(prefixes: map<Cidr, Info>, all: set<Cidr>, s: set<Cidr>) returns (c: Cidr)
    requires Universe(all) && prefixes.Keys <= all && s <= prefixes.Keys && s != {}
    ensures c in s && forall d :: d in s ==> d == c || Before(prefixes, c, d)
    decreases |s|
  {
    c :| c in s;
    if s != {c} {
      var rest := s - {c};
      assert s == rest + {c};
      var b := BestAmong(prefixes, all, rest);
      BeforeTotal(prefixes, b, c);
      if Before(prefixes, b, c) {
        c := b;
      } else {
        forall d | d in s ensures d == c || Before(prefixes, c, d) {
          if d != c && d != b {
            BeforeTransitive(prefixes, c, b, d);
          }
        }
      }
    }
  }

  /** A prefix is chosen exactly when some Valid prefix has a free offset. */
  lemma ChoiceIff(prefixes: map<Cidr, Info>, all: set<Cidr>)
    requires Universe(all) && prefixes.Keys <= all
    ensures Choice(prefixes).Some? <==> exists c :: Candidate(prefixes, c)
  {
    var s := set c | c in prefixes && Candidate(prefixes, c);
    if c :| Candidate(prefixes, c) {
      assert c in s;
      var b := BestAmong(prefixes, all, s);
      assert Best(prefixes, b);
    }
  }

  // Operations.

  /** Offset `o` of prefix `c` given to a pod. */
  function Put(t: Table, p: Pod, c: Cidr, o: nat): Table
    requires c in t.prefixes && o < |t.prefixes[c].bitmap|
  {
    var info := t.prefixes[c];
    Table(t.prefixes[c := Info(info.bitmap[o := true], info.held[p := o], info.status)], t.podToPrefix[p := c])
  }

  /** AllocateIPv4 and AllocateIPv6. */
  ghost function Allocate(t: Table, p: Pod): Table {
    if p in t.podToPrefix || Choice(t.prefixes).None? then t
    else
      var c := Choice(t.prefixes).value;
      Put(t, p, c, LowestClear(t.prefixes[c].bitmap))
  }

  predicate Held(t: Table, p: Pod) {
    p in t.podToPrefix && Holds(t, t.podToPrefix[p], p)
  }

  /** The address of a pod that holds one. */
  function AddressOf(t: Table, p: Pod): Option<Bytes>
  {
    if Held(t, p) then CalculateIp(t.podToPrefix[p], t.prefixes[t.podToPrefix[p]].held[p]) else None
  }

  /** ReleaseIPv4 and ReleaseIPv6. */
  function Release(t: Table, p: Pod): Table {
    if !Held(t, p) then t
    else
      var c := t.podToPrefix[p];
      var info := t.prefixes[c];
      var o := info.held[p];
      var bitmap := if o < |info.bitmap| then info.bitmap[o := false] else info.bitmap;
      Table(t.prefixes[c := Info(bitmap, info.held - {p}, info.status)], t.podToPrefix - {p})
  }

  /** Where an address is found: the prefix and offset that RestorePod records. */
  predicate Finds(prefixes: map<Cidr, Info>, ip: Bytes, c: Cidr, o: nat) {
    c in prefixes && c.Parsed() && OffsetIn(ip, c, |prefixes[c].bitmap|) == Some(o)
  }

  ghost function Find(prefixes: map<Cidr, Info>, ip: Bytes): (r: Option<(Cidr, nat)>)
    ensures r.Some? ==> Finds(prefixes, ip, r.value.0, r.value.1)
    ensures r.None? ==> forall c, o :: !Finds(prefixes, ip, c, o)
  {
    if c, o :| Finds(prefixes, ip, c, o) then Some((c, o)) else None
  }

  /** RestorePod for one family. */
  ghost function Restore(t: Table, p: Pod, ip: Bytes): Table {
    var found := Find(t.prefixes, ip);
    if found.None? then t else Put(t, p, found.value.0, found.value.1)
  }

  /** No other pod has the offset, and the pod has no other. */
  ghost predicate ConflictFree(t: Table, p: Pod, ip: Bytes) {
    forall c, o :: Finds(t.prefixes, ip, c, o) ==>
                     && (p in t.podToPrefix ==> Holds(t, c, p) && t.prefixes[c].held[p] == o)
                     && (forall q :: Holds(t, c, q) && t.prefixes[c].held[q] == o ==> q == p)
  }

  /** The list of the Node CR as a map; of two entries for one CIDR the later counts. */
  function Listed(list: seq<Entry>): map<Cidr, Status> {
    if list == [] then map[] else Listed(list[..|list| - 1])[list[|list| - 1].cidr := list[|list| - 1].status]
  }

  function Blank(c: Cidr, status: Status): Info {
    Info(seq(PrefixSize(c), _ => false), map[], status)
  }

  /** What UpdatePrefixes makes of one prefix. */
  function Refreshed(prefixes: map<Cidr, Info>, listed: map<Cidr, Status>, c: Cidr): Option<Info> {
    if c in prefixes then
      var status := if c in listed then listed[c] else Deleting;
      if status == Deleting && prefixes[c].held == map[] then None else Some(prefixes[c].(status := status))
    else if c in listed && listed[c] in {Valid, Frozen} then Some(Blank(c, listed[c]))
    else None
  }

  /** UpdatePrefixes. */
  function Update(t: Table, list: seq<Entry>): Table {
    var listed := Listed(list);
    t.(prefixes := map c | c in t.prefixes.Keys + listed.Keys && Refreshed(t.prefixes, listed, c).Some?
                     :: Refreshed(t.prefixes, listed, c).value)
  }

  /** The Valid and Frozen entries, as NewENILocalIPAMFromPrefix takes them. */
  function Usable(list: seq<Entry>): map<Cidr, Status> {
    if list == [] then map[]
    else
      var e := list[|list| - 1];
      var before := Usable(list[..|list| - 1]);
      if e.status in {Valid, Frozen} then before[e.cidr := e.status] else before
  }

  /** NewENILocalIPAMFromPrefix for one family. */
  function Build(list: seq<Entry>): Table {
    var usable := Usable(list);
    Table(map c | c in usable :: Blank(c, usable[c]), map[])
  }
}
