/** The loops of the prefix allocator, each proved against its function in PrefixTable.dfy. */
module IpamLoops {
  import opened Util
  import opened Bytes
  import opened Gateway
  import opened PrefixAddr
  import opened PrefixTable
  import opened PrefixRuns

  // Choosing a prefix and an offset.

  method NextClear(bitmap: seq<bool>) returns (r: nat)
    ensures r == LowestClear(bitmap)
  {
    r := 0;
    while r < |bitmap| && bitmap[r]
      invariant r <= |bitmap|
      invariant forall i :: 0 <= i < r ==> bitmap[i]
    {
      r := r + 1;
    }
    LowestClearIs(bitmap, r);
  }

  lemma LowestClearIs(b: seq<bool>, r: nat)
    requires r <= |b| && (forall i :: 0 <= i < r ==> b[i]) && (r < |b| ==> !b[r])
    ensures LowestClear(b) == r
  {
  }

  ghost predicate Sorted(prefixes: map<Cidr, Info>, cs: seq<Cidr>) {
    && (forall c :: c in cs ==> c in prefixes)
    && (forall i, j :: 0 <= i < j < |cs| ==> Before(prefixes, cs[i], cs[j]))
  }

  method Insert(prefixes: map<Cidr, Info>, cs: seq<Cidr>, c: Cidr) returns (r: seq<Cidr>)
    requires c in prefixes && Sorted(prefixes, cs)
    requires forall d :: d in cs ==> d.text != c.text
    ensures Sorted(prefixes, r) && forall d :: d in r <==> d in cs || d == c
  {
    var k := 0;
    while k < |cs| && Before(prefixes, cs[k], c)
      invariant k <= |cs|
      invariant forall i :: 0 <= i < k ==> Before(prefixes, cs[i], c)
    {
      k := k + 1;
    }
    r := cs[..k] + [c] + cs[k..];
    InsertSorted(prefixes, cs, c, k);
  }

  lemma InsertSorted(prefixes: map<Cidr, Info>, cs: seq<Cidr>, c: Cidr, k: nat)
    requires c in prefixes && Sorted(prefixes, cs) && k <= |cs|
    requires forall d :: d in cs ==> d.text != c.text
    requires forall i :: 0 <= i < k ==> Before(prefixes, cs[i], c)
    requires k < |cs| ==> !Before(prefixes, cs[k], c)
    ensures Sorted(prefixes, cs[..k] + [c] + cs[k..])
  {
    var r := cs[..k] + [c] + cs[k..];
    forall j | k <= j < |cs| ensures Before(prefixes, c, cs[j]) {
      BeforeTotal(prefixes, c, cs[k]);
      if k < j {
        BeforeTransitive(prefixes, c, cs[k], cs[j]);
      }
    }
    forall i, j | 0 <= i < j < |r| ensures Before(prefixes, r[i], r[j]) {
      assert i < k ==> r[i] == cs[i];
      assert i > k ==> r[i] == cs[i - 1];
      assert j < k ==> r[j] == cs[j];
      assert j > k ==> r[j] == cs[j - 1];
    }
  }

  /** The Valid prefixes, those with the fewest remaining addresses first. */
  method SortedValidPrefixes(prefixes: map<Cidr, Info>, ghost all: set<Cidr>) returns (cs: seq<Cidr>)
    requires Universe(all) && prefixes.Keys <= all
    ensures Sorted(prefixes, cs)
    ensures forall c :: c in cs <==> c in prefixes && prefixes[c].status == Valid
  {
    cs := [];
    var todo := prefixes.Keys;
    while todo != {}
      invariant todo <= prefixes.Keys && Sorted(prefixes, cs)
      invariant forall c :: c in cs <==> c in prefixes && c !in todo && prefixes[c].status == Valid
      decreases |todo|
    {
      var c :| c in todo;
      if prefixes[c].status == Valid {
        cs := Insert(prefixes, cs, c);
      }
      todo := todo - {c};
    }
  }

  /** The first prefix of the sorted list with a free offset is the best one. */
  lemma FirstFreeIsBest(prefixes: map<Cidr, Info>, cs: seq<Cidr>, k: nat)
    requires Sorted(prefixes, cs) && k < |cs|
    requires forall c :: c in cs <==> c in prefixes && prefixes[c].status == Valid
    requires forall i :: 0 <= i < k ==> !Free(prefixes[cs[i]])
    requires Free(prefixes[cs[k]])
    ensures Best(prefixes, cs[k])
  {
    forall d | Candidate(prefixes, d) ensures d == cs[k] || Before(prefixes, cs[k], d) {
      assert d in cs;
      var j :| 0 <= j < |cs| && cs[j] == d;
    }
  }

  /** What a call of AllocateIPv4 or AllocateIPv6 answers. */
  ghost predicate Answers(t: Table, p: Pod, u: Table, r: Option<Bytes>) {
    && u == Allocate(t, p) && r == AddressOf(u, p)
    && (r.None? <==> p !in t.podToPrefix && forall c :: !Candidate(t.prefixes, c))
  }

  /** The loop over the sorted prefixes: the best prefix and its lowest clear bit. */
  method Pick(prefixes: map<Cidr, Info>, ghost all: set<Cidr>) returns (r: Option<(Cidr, nat)>)
    requires Universe(all) && prefixes.Keys <= all
    ensures r.Some? ==> Choice(prefixes) == Some(r.value.0) && r.value.1 == LowestClear(prefixes[r.value.0].bitmap)
    ensures r.None? ==> Choice(prefixes).None? && forall c :: !Candidate(prefixes, c)
  {
    var cs := SortedValidPrefixes(prefixes, all);
    for k := 0 to |cs|
      invariant forall i :: 0 <= i < k ==> !Free(prefixes[cs[i]])
    {
      var c := cs[k];
      var o := NextClear(prefixes[c].bitmap);
      if o < |prefixes[c].bitmap| {
        FirstFreeIsBest(prefixes, cs, k);
        ChoiceIs(prefixes, c);
        return Some((c, o));
      }
    }
    NoneFree(prefixes, cs);
    return None;
  }

  lemma NoneFree(prefixes: map<Cidr, Info>, cs: seq<Cidr>)
    requires forall c :: c in cs <==> c in prefixes && prefixes[c].status == Valid
    requires forall i :: 0 <= i < |cs| ==> !Free(prefixes[cs[i]])
    ensures forall c :: !Candidate(prefixes, c)
  {
  }

  lemma PickedAnswers(t: Table, p: Pod, c: Cidr, all: set<Cidr>)
    requires Universe(all) && t.prefixes.Keys <= all && Ok(t)
    requires p !in t.podToPrefix && Choice(t.prefixes) == Some(c)
    ensures var o := LowestClear(t.prefixes[c].bitmap);
            Answers(t, p, Put(t, p, c, o), CalculateIp(c, o))
  {
    AllocateOk(t, p);
    HeldAddress(Allocate(t, p), p, all);
    assert Candidate(t.prefixes, c);
  }

  method AllocateIn(t: Table, p: Pod, ghost all: set<Cidr>) returns (u: Table, r: Option<Bytes>)
    requires Universe(all) && t.prefixes.Keys <= all && Ok(t)
    ensures Answers(t, p, u, r) && Ok(u) && u.prefixes.Keys <= all
  {
    AllocateOk(t, p);
    if p in t.podToPrefix {
      HeldAddress(t, p, all);
      var c := t.podToPrefix[p];
      if c in t.prefixes && p in t.prefixes[c].held {
        return t, CalculateIp(c, t.prefixes[c].held[p]);
      }
    }
    var pick := Pick(t.prefixes, all);
    if pick.None? {
      return t, None;
    }
    PickedAnswers(t, p, pick.value.0, all);
    return Put(t, p, pick.value.0, pick.value.1), CalculateIp(pick.value.0, pick.value.1);
  }

  lemma HeldAddress(t: Table, p: Pod, all: set<Cidr>)
    requires Universe(all) && t.prefixes.Keys <= all && Ok(t) && p in t.podToPrefix
    ensures Held(t, p) && AddressOf(t, p).Some?
  {
    var c := t.podToPrefix[p];
    CalculatedAddress(c, t.prefixes[c].held[p]);
  }

  // Finding an address.

  lemma ContainsCanonical(net: Net, ip: Bytes)
    requires net.WellFormed() && !Mapped(net.ip) && Contains(net, ip)
    ensures var x := Canonical(ip);
            |x| == |net.ip| && net.Base() <= FromBytes(x) < net.Base() + Pow2(net.hostBits)
  {
    MaskInterval(Canonical(ip), net.ip, net.hostBits);
  }

  /** An address lies in at most one of the prefixes. */
  lemma FoundOnce(prefixes: map<Cidr, Info>, all: set<Cidr>, ip: Bytes, c: Cidr, o: nat)
    requires Universe(all) && prefixes.Keys <= all && Finds(prefixes, ip, c, o)
    ensures Find(prefixes, ip) == Some((c, o))
  {
    var (d, x) := Find(prefixes, ip).value;
    if c != d {
      assert Apart(c, d);
      ContainsCanonical(c.net.value, ip);
      ContainsCanonical(d.net.value, ip);
    }
  }

  method FindPrefixContainingIp(prefixes: map<Cidr, Info>, ip: Bytes, ghost all: set<Cidr>)
    returns (r: Option<(Cidr, nat)>)
    requires Universe(all) && prefixes.Keys <= all
    ensures r == Find(prefixes, ip)
  {
    var todo := prefixes.Keys;
    while todo != {}
      invariant todo <= prefixes.Keys
      invariant forall c, o :: Finds(prefixes, ip, c, o) ==> c in todo
      decreases |todo|
    {
      var c :| c in todo;
      var o := OffsetIn(ip, c, |prefixes[c].bitmap|);
      if o.Some? {
        FoundOnce(prefixes, all, ip, c, o.value);
        return Some((c, o.value));
      }
      todo := todo - {c};
    }
    return None;
  }

  method RestoreIn(t: Table, p: Pod, ip: Bytes, ghost all: set<Cidr>) returns (u: Table)
    requires Universe(all) && t.prefixes.Keys <= all
    ensures u == Restore(t, p, ip)
  {
    var found := FindPrefixContainingIp(t.prefixes, ip, all);
    u := t;
    if found.Some? {
      u := Put(t, p, found.value.0, found.value.1);
    }
  }

  // Prefix lists.

  method ListMap(list: seq<Entry>) returns (m: map<Cidr, Status>)
    ensures m == Listed(list)
  {
    m := map[];
    for i := 0 to |list|
      invariant m == Listed(list[..i])
    {
      assert list[..i + 1][..i] == list[..i];
      m := m[list[i].cidr := list[i].status];
    }
    assert list[..|list|] == list;
  }

  /** The prefixes after the turns of the first loop for `done`: unlisted ones dropped or marked Deleting. */
  function Unlisted(prefixes: map<Cidr, Info>, listed: map<Cidr, Status>, done: set<Cidr>): map<Cidr, Info> {
    map c | c in prefixes && !(c in done && c !in listed && prefixes[c].held == map[])
      :: if c in done && c !in listed then prefixes[c].(status := Deleting) else prefixes[c]
  }

  function Turned(prefixes: map<Cidr, Info>, listed: map<Cidr, Status>, done: set<Cidr>, c: Cidr): Option<Info> {
    if c in done then Refreshed(prefixes, listed, c) else if c in prefixes then Some(prefixes[c]) else None
  }

  /** The prefixes after the turns of the second loop for `done`. */
  ghost predicate Relisted(cur: map<Cidr, Info>, prefixes: map<Cidr, Info>, listed: map<Cidr, Status>, done: set<Cidr>) {
    forall c :: (if c in cur then Some(cur[c]) else None) == Turned(prefixes, listed, done, c)
  }

  lemma UnlistedStep(prefixes: map<Cidr, Info>, listed: map<Cidr, Status>, done: set<Cidr>, c: Cidr)
    requires c in prefixes && c !in done
    ensures var was := Unlisted(prefixes, listed, done);
            && c in was && was[c] == prefixes[c]
            && Unlisted(prefixes, listed, done + {c}) ==
               if c in listed then was
               else if prefixes[c].held == map[] then was - {c}
               else was[c := prefixes[c].(status := Deleting)]
  {
  }

  method MarkUnlisted(prefixes: map<Cidr, Info>, listed: map<Cidr, Status>) returns (cur: map<Cidr, Info>)
    ensures cur == Unlisted(prefixes, listed, prefixes.Keys)
  {
    cur := prefixes;
    var todo := prefixes.Keys;
    ghost var done := {};
    while todo != {}
      invariant todo == prefixes.Keys - done && done <= prefixes.Keys
      invariant cur == Unlisted(prefixes, listed, done)
      decreases |todo|
    {
      var c :| c in todo;
      UnlistedStep(prefixes, listed, done, c);
      if c !in listed {
        if cur[c].held == map[] {
          cur := cur - {c};
        } else {
          cur := cur[c := cur[c].(status := Deleting)];
        }
      }
      todo, done := todo - {c}, done + {c};
    }
    assert done == prefixes.Keys;
  }

  /** One turn of the second loop: update the status of a prefix, remove it, or create it. */
  method Relist(was: map<Cidr, Info>, listed: map<Cidr, Status>, c: Cidr) returns (cur: map<Cidr, Info>)
    requires c in listed
    ensures cur == if Refreshed(was, listed, c).Some? then was[c := Refreshed(was, listed, c).value] else was - {c}
  {
    cur := was;
    if c in cur {
      var info := cur[c].(status := listed[c]);
      if info.status == Deleting && info.held == map[] {
        cur := cur - {c};
      } else {
        cur := cur[c := info];
      }
    } else if listed[c] == Valid || listed[c] == Frozen {
      cur := cur[c := Blank(c, listed[c])];
    }
  }

  lemma RelistedStep(was: map<Cidr, Info>, cur: map<Cidr, Info>, prefixes: map<Cidr, Info>,
                     listed: map<Cidr, Status>, done: set<Cidr>, c: Cidr)
    requires c !in done && Relisted(was, prefixes, listed, done)
    requires cur == if Refreshed(was, listed, c).Some? then was[c := Refreshed(was, listed, c).value] else was - {c}
    ensures Relisted(cur, prefixes, listed, done + {c})
  {
    assert Turned(prefixes, listed, done, c) == if c in prefixes then Some(prefixes[c]) else None;
    forall d ensures (if d in cur then Some(cur[d]) else None) == Turned(prefixes, listed, done + {c}, d) {
      if d != c {
        assert Turned(prefixes, listed, done + {c}, d) == Turned(prefixes, listed, done, d);
      }
    }
  }

  method ApplyListed(prefixes: map<Cidr, Info>, listed: map<Cidr, Status>) returns (cur: map<Cidr, Info>)
    ensures Relisted(cur, prefixes, listed, listed.Keys)
  {
    cur := prefixes;
    var todo := listed.Keys;
    ghost var done := {};
    while todo != {}
      invariant todo + done == listed.Keys && todo !! done
      invariant Relisted(cur, prefixes, listed, done)
      decreases |todo|
    {
      var c :| c in todo;
      ghost var was := cur;
      cur := Relist(cur, listed, c);
      RelistedStep(was, cur, prefixes, listed, done, c);
      todo, done := todo - {c}, done + {c};
    }
  }

  lemma UpdateInParts(t: Table, list: seq<Entry>, cur: map<Cidr, Info>)
    requires var listed := Listed(list);
             Relisted(cur, Unlisted(t.prefixes, listed, t.prefixes.Keys), listed, listed.Keys)
    ensures cur == Update(t, list).prefixes
  {
    var listed := Listed(list);
    var mid, want := Unlisted(t.prefixes, listed, t.prefixes.Keys), Update(t, list).prefixes;
    forall c ensures c in cur <==> c in want
      ensures c in cur ==> cur[c] == want[c]
    {
      assert (if c in cur then Some(cur[c]) else None) == Turned(mid, listed, listed.Keys, c);
    }
  }

  method UpdateIn(t: Table, list: seq<Entry>) returns (u: Table)
    ensures u == Update(t, list)
  {
    var listed := ListMap(list);
    var cur := MarkUnlisted(t.prefixes, listed);
    cur := ApplyListed(cur, listed);
    UpdateInParts(t, list, cur);
    u := t.(prefixes := cur);
  }

  method BuildTable(list: seq<Entry>) returns (t: Table)
    ensures t == Build(list)
  {
    var prefixes: map<Cidr, Info> := map[];
    for i := 0 to |list|
      invariant prefixes == Build(list[..i]).prefixes
    {
      assert list[..i + 1][..i] == list[..i];
      var e := list[i];
      if e.status == Valid || e.status == Frozen {
        prefixes := prefixes[e.cidr := Blank(e.cidr, e.status)];
      }
    }
    assert list[..|list|] == list;
    t := Table(prefixes, map[]);
  }
}
