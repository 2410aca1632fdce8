/** Rebuilding a prefix table after a restart, from the Node CR and the stored pod records. */
module PrefixRestart {
  import opened Util
  import opened Bytes
  import opened PrefixAddr
  import opened PrefixTable
  import opened PrefixRuns

  datatype Record = Record(pod: Pod, ip: Bytes)

  ghost function RestoreAll(t: Table, rs: seq<Record>): Table {
    if rs == [] then t
    else
      var n := |rs| - 1;
      Restore(RestoreAll(t, rs[..n]), rs[n].pod, rs[n].ip)
  }

  /** The stored records: each of a pod of the table with its address, in any order. */
  ghost predicate RecordsOf(t: Table, rs: seq<Record>) {
    rs == [] || (RecordsOf(t, rs[..|rs| - 1]) && RecordOf(t, rs[|rs| - 1]))
  }

  ghost predicate RecordOf(t: Table, r: Record) {
    Held(t, r.pod) && AddressOf(t, r.pod) == Some(r.ip)
  }

  function Pods(rs: seq<Record>): set<Pod> {
    if rs == [] then {} else Pods(rs[..|rs| - 1]) + {rs[|rs| - 1].pod}
  }

  /** Of the offsets of prefix `c`, those of the pods in `seen`. */
  ghost function SeenHeld(t: Table, c: Cidr, seen: set<Pod>): map<Pod, nat> {
    if c in t.prefixes then map p | p in t.prefixes[c].held && p in seen :: t.prefixes[c].held[p] else map[]
  }

  ghost function SeenInfo(t: Table, c: Cidr, seen: set<Pod>, status: Status): Info {
    var held := SeenHeld(t, c, seen);
    Info(seq(PrefixSize(c), o => o in held.Values), held, status)
  }

  /** Of the pods in `seen`, those whose prefix is among these. */
  ghost function SeenPods(t: Table, prefixes: set<Cidr>, seen: set<Pod>): map<Pod, Cidr> {
    map p | p in t.podToPrefix && p in seen && t.podToPrefix[p] in prefixes :: t.podToPrefix[p]
  }

  /** The prefixes of `built` with, of what `t` holds in them, the part of the pods in `seen`. */
  ghost function Seen(t: Table, built: Table, seen: set<Pod>): Table {
    Table(map c | c in built.prefixes :: SeenInfo(t, c, seen, built.prefixes[c].status),
          SeenPods(t, built.prefixes.Keys, seen))
  }

  /** The address of a held pod is found again, at its own prefix and offset. */
  lemma FoundAgain(prefixes: map<Cidr, Info>, all: set<Cidr>, c: Cidr, o: nat, ip: Bytes)
    requires Universe(all) && prefixes.Keys <= all && c in prefixes && o < PrefixSize(c)
    requires forall d :: d in prefixes ==> |prefixes[d].bitmap| == PrefixSize(d)
    requires CalculateIp(c, o) == Some(ip)
    ensures Find(prefixes, ip) == Some((c, o))
  {
    OffsetOfCalculated(c, o);
    assert Finds(prefixes, ip, c, o);
    var (d, x) := Find(prefixes, ip).value;
    if d != c {
      NotInOther(c, o, d);
    }
  }

  lemma OneMore(t: Table, c: Cidr, seen: set<Pod>, status: Status, p: Pod)
    requires c in t.prefixes && p in t.prefixes[c].held && t.prefixes[c].held[p] < PrefixSize(c)
    ensures var was, o := SeenInfo(t, c, seen, status), t.prefixes[c].held[p];
            SeenInfo(t, c, seen + {p}, status) == Info(was.bitmap[o := true], was.held[p := o], status)
  {
    var was, o := SeenHeld(t, c, seen), t.prefixes[c].held[p];
    var now := SeenHeld(t, c, seen + {p});
    assert now == was[p := o];
    forall x: nat ensures x in now.Values <==> x in was.Values || x == o {
      if x in was.Values {
        assert now[Holder(was, x)] == x;
      }
      if x == o {
        assert now[p] == x;
      }
    }
  }

  lemma NoneMore(t: Table, c: Cidr, seen: set<Pod>, status: Status, p: Pod)
    requires !Holds(t, c, p)
    ensures SeenInfo(t, c, seen + {p}, status) == SeenInfo(t, c, seen, status)
  {
    assert SeenHeld(t, c, seen + {p}) == SeenHeld(t, c, seen);
  }

  lemma OthersSeen(t: Table, built: Table, seen: set<Pod>, p: Pod, d: Cidr)
    requires Linked(t) && Held(t, p) && d in built.prefixes && d != t.podToPrefix[p]
    ensures Seen(t, built, seen + {p}).prefixes[d] == Seen(t, built, seen).prefixes[d]
  {
    assert !Holds(t, d, p);
    NoneMore(t, d, seen, built.prefixes[d].status, p);
  }

  lemma SeenPrefix(t: Table, built: Table, seen: set<Pod>, p: Pod, c: Cidr, o: nat)
    requires Ok(t) && c in built.prefixes && Holds(t, c, p) && t.prefixes[c].held[p] == o < PrefixSize(c)
    ensures c in Seen(t, built, seen).prefixes && |Seen(t, built, seen).prefixes[c].bitmap| == PrefixSize(c)
    ensures Put(Seen(t, built, seen), p, c, o).prefixes[c] == Seen(t, built, seen + {p}).prefixes[c]
  {
    OneMore(t, c, seen, built.prefixes[c].status, p);
  }

  lemma UpdateIs<K, V>(m: map<K, V>, k: K, v: V, n: map<K, V>)
    requires n.Keys == m.Keys + {k} && n[k] == v
    requires forall j :: j in m && j != k ==> n[j] == m[j]
    ensures m[k := v] == n
  {
  }

  lemma PutSeenPods(t: Table, built: Table, seen: set<Pod>, p: Pod)
    requires p in t.podToPrefix && t.podToPrefix[p] in built.prefixes
    ensures Seen(t, built, seen).podToPrefix[p := t.podToPrefix[p]] == Seen(t, built, seen + {p}).podToPrefix
  {
    UpdateIs(Seen(t, built, seen).podToPrefix, p, t.podToPrefix[p], Seen(t, built, seen + {p}).podToPrefix);
  }

  lemma PutSeen(t: Table, built: Table, seen: set<Pod>, p: Pod, c: Cidr, o: nat)
    requires Ok(t) && Held(t, p) && c == t.podToPrefix[p] && o == t.prefixes[c].held[p] && c in built.prefixes
    ensures c in Seen(t, built, seen).prefixes && o < |Seen(t, built, seen).prefixes[c].bitmap|
    ensures Put(Seen(t, built, seen), p, c, o) == Seen(t, built, seen + {p})
  {
    SeenPrefix(t, built, seen, p, c, o);
    PutSeenPods(t, built, seen, p);
    var was, now := Seen(t, built, seen).prefixes, Seen(t, built, seen + {p}).prefixes;
    forall d | d in was && d != c ensures now[d] == was[d] {
      OthersSeen(t, built, seen, p, d);
    }
    UpdateIs(was, c, now[c], now);
  }

  lemma RestoreSeen(t: Table, built: Table, seen: set<Pod>, p: Pod, ip: Bytes, all: set<Cidr>)
    requires Universe(all) && Ok(t) && built.prefixes.Keys <= all
    requires Held(t, p) && AddressOf(t, p) == Some(ip) && t.podToPrefix[p] in built.prefixes
    ensures Restore(Seen(t, built, seen), p, ip) == Seen(t, built, seen + {p})
  {
    var c := t.podToPrefix[p];
    FoundAgain(Seen(t, built, seen).prefixes, all, c, t.prefixes[c].held[p], ip);
    PutSeen(t, built, seen, p, c, t.prefixes[c].held[p]);
  }

  /** An address of a prefix that is not in the table is found nowhere in it. */
  lemma NotFoundElsewhere(prefixes: map<Cidr, Info>, all: set<Cidr>, c: Cidr, o: nat, ip: Bytes)
    requires Universe(all) && prefixes.Keys <= all && c in all && c !in prefixes && o < PrefixSize(c)
    requires forall d :: d in prefixes ==> |prefixes[d].bitmap| == PrefixSize(d)
    requires CalculateIp(c, o) == Some(ip)
    ensures Find(prefixes, ip) == None
  {
    if Find(prefixes, ip).Some? {
      NotInOther(c, o, Find(prefixes, ip).value.0);
    }
  }

  /** A pod whose prefix is not rebuilt is not restored. */
  lemma SkipUnseen(t: Table, built: Table, seen: set<Pod>, p: Pod, ip: Bytes, all: set<Cidr>)
    requires Universe(all) && Ok(t) && t.prefixes.Keys <= all && built.prefixes.Keys <= all
    requires Held(t, p) && AddressOf(t, p) == Some(ip) && t.podToPrefix[p] !in built.prefixes
    ensures Restore(Seen(t, built, seen), p, ip) == Seen(t, built, seen + {p})
  {
    var c := t.podToPrefix[p];
    NotFoundElsewhere(Seen(t, built, seen).prefixes, all, c, t.prefixes[c].held[p], ip);
    UnseenChangesNothing(t, built, seen, p);
  }

  lemma UnseenChangesNothing(t: Table, built: Table, seen: set<Pod>, p: Pod)
    requires Linked(t) && Held(t, p) && t.podToPrefix[p] !in built.prefixes
    ensures Seen(t, built, seen + {p}) == Seen(t, built, seen)
  {
    var was, now := Seen(t, built, seen), Seen(t, built, seen + {p});
    forall d | d in built.prefixes ensures now.prefixes[d] == was.prefixes[d] {
      OthersSeen(t, built, seen, p, d);
    }
    assert was.prefixes == now.prefixes && was.podToPrefix == now.podToPrefix;
  }

  lemma SeenInfoOk(t: Table, c: Cidr, seen: set<Pod>, status: Status)
    requires InfosOk(t.prefixes)
    ensures InfoOk(c, SeenInfo(t, c, seen, status))
  {
    if c in t.prefixes {
      assert InfoOk(c, t.prefixes[c]);
    }
  }

  lemma SeenLinked(t: Table, built: Table, seen: set<Pod>)
    requires Linked(t)
    ensures Linked(Seen(t, built, seen))
  {
    var u := Seen(t, built, seen);
    forall p, c ensures Holds(u, c, p) <==> Holds(t, c, p) && p in seen && c in built.prefixes {
    }
  }

  /** Part of an agreeing table agrees. */
  lemma SeenOk(t: Table, built: Table, seen: set<Pod>)
    requires Ok(t)
    ensures Ok(Seen(t, built, seen))
  {
    var u := Seen(t, built, seen);
    forall c | c in u.prefixes ensures InfoOk(c, u.prefixes[c]) {
      SeenInfoOk(t, c, seen, built.prefixes[c].status);
    }
    SeenLinked(t, built, seen);
  }

  lemma {:induction false} RestoreAllSeen(t: Table, built: Table, rs: seq<Record>, all: set<Cidr>)
    requires Universe(all) && Ok(t) && t.prefixes.Keys <= all && built.prefixes.Keys <= all
    requires Seen(t, built, {}) == built && RecordsOf(t, rs)
    ensures RestoreAll(built, rs) == Seen(t, built, Pods(rs))
  {
    if rs != [] {
      var n := |rs| - 1;
      RestoreAllSeen(t, built, rs[..n], all);
      if t.podToPrefix[rs[n].pod] in built.prefixes {
        RestoreSeen(t, built, Pods(rs[..n]), rs[n].pod, rs[n].ip, all);
      } else {
        SkipUnseen(t, built, Pods(rs[..n]), rs[n].pod, rs[n].ip, all);
      }
    }
  }

  lemma NothingSeen(t: Table, list: seq<Entry>)
    ensures Seen(t, Build(list), {}) == Build(list)
  {
    var built := Build(list);
    forall c | c in built.prefixes ensures Seen(t, built, {}).prefixes[c] == built.prefixes[c] {
      assert SeenHeld(t, c, {}) == map[];
    }
  }

  /** One prefix once every pod has been restored. */
  lemma AllSeen(t: Table, c: Cidr, seen: set<Pod>, status: Status)
    requires Ok(t) && t.podToPrefix.Keys <= seen
    ensures SeenInfo(t, c, seen, status) == if c in t.prefixes then t.prefixes[c].(status := status)
                                            else Blank(c, status)
  {
    if c in t.prefixes {
      forall p | p in t.prefixes[c].held ensures p in seen {
        assert Holds(t, c, p);
      }
      assert SeenHeld(t, c, seen) == t.prefixes[c].held;
    }
  }

  /** A rebuilt table: the prefixes of the CR, holding what the old table held in them, and its pods. */
  ghost predicate Rebuilt(r: Table, t: Table, usable: map<Cidr, Status>) {
    && r.podToPrefix == SeenPods(t, usable.Keys, t.podToPrefix.Keys) && r.prefixes.Keys == usable.Keys
    && forall c :: c in usable ==>
                     r.prefixes[c] == if c in t.prefixes then t.prefixes[c].(status := usable[c])
                                      else Blank(c, usable[c])
  }

  lemma SeenIsRebuilt(t: Table, list: seq<Entry>, seen: set<Pod>)
    requires Ok(t) && t.podToPrefix.Keys <= seen
    ensures Rebuilt(Seen(t, Build(list), seen), t, Usable(list))
  {
    forall c | c in Usable(list)
      ensures Seen(t, Build(list), seen).prefixes[c] == SeenInfo(t, c, seen, Usable(list)[c])
      ensures SeenInfo(t, c, seen, Usable(list)[c]) ==
              if c in t.prefixes then t.prefixes[c].(status := Usable(list)[c]) else Blank(c, Usable(list)[c])
    {
      AllSeen(t, c, seen, Usable(list)[c]);
    }
    assert Build(list).prefixes.Keys == Usable(list).Keys;
    assert SeenPods(t, Usable(list).Keys, seen) == SeenPods(t, Usable(list).Keys, t.podToPrefix.Keys);
  }

  /**
   Restart. Rebuilding from the Node CR and restoring each stored pod and address in any order gives, in every
   prefix that the CR lists Valid or Frozen, the same bitmap and offsets as before, and the pods of those prefixes;
   statuses and any further, empty prefixes are those of the CR.
   */
  lemma RestartRebuilds(t: Table, list: seq<Entry>, rs: seq<Record>, all: set<Cidr>)
    requires Universe(all) && Ok(t) && t.prefixes.Keys <= all && ListIn(list, all)
    requires RecordsOf(t, rs) && t.podToPrefix.Keys <= Pods(rs)
    ensures Rebuilt(RestoreAll(Build(list), rs), t, Usable(list))
  {
    ListedIn(list, all);
    NothingSeen(t, list);
    RestoreAllSeen(t, Build(list), rs, all);
    SeenIsRebuilt(t, list, Pods(rs));
  }

  /** Every prefix with a pod is still listed Valid or Frozen. */
  predicate PodsListed(t: Table, usable: map<Cidr, Status>) {
    forall p :: p in t.podToPrefix ==> t.podToPrefix[p] in usable
  }

  /** Every pod is back in its prefix if and only if every prefix that holds one is listed Valid or Frozen. */
  lemma RebuiltIff(r: Table, t: Table, usable: map<Cidr, Status>)
    requires Rebuilt(r, t, usable)
    ensures r.podToPrefix == t.podToPrefix <==> PodsListed(t, usable)
  {
    forall p ensures p in r.podToPrefix <==> p in t.podToPrefix && t.podToPrefix[p] in usable {
    }
  }

  lemma RestartRoundTrip(t: Table, list: seq<Entry>, rs: seq<Record>, all: set<Cidr>)
    requires Universe(all) && Ok(t) && t.prefixes.Keys <= all && ListIn(list, all)
    requires RecordsOf(t, rs) && t.podToPrefix.Keys <= Pods(rs)
    ensures RestoreAll(Build(list), rs).podToPrefix == t.podToPrefix <==> PodsListed(t, Usable(list))
  {
    RestartRebuilds(t, list, rs, all);
    RebuiltIff(RestoreAll(Build(list), rs), t, Usable(list));
  }

  // A pod that is not restored.

  lemma AllClear(c: Cidr, status: Status)
    requires PrefixSize(c) > 0
    ensures LowestClear(Blank(c, status).bitmap) == 0 && Free(Blank(c, status))
  {
  }

  lemma OneEntry(c: Cidr, status: Status)
    ensures Listed([Entry(c, status)]) == map[c := status]
    ensures Usable([Entry(c, status)]) == if status in {Valid, Frozen} then map[c := status] else map[]
  {
    assert [Entry(c, status)][..0] == [];
  }

  lemma ServesFirst(t: Table, c: Cidr, p: Pod)
    requires t == Table(map[c := Blank(c, Valid)], map[]) && PrefixSize(c) > 0
    ensures Allocate(t, p) == Put(t, p, c, 0) && AddressOf(Allocate(t, p), p) == CalculateIp(c, 0)
  {
    AllClear(c, Valid);
    assert Candidate(t.prefixes, c);
    assert Best(t.prefixes, c);
    ChoiceIs(t.prefixes, c);
  }

  lemma ListedAgain(c: Cidr)
    ensures Update(Build([Entry(c, Deleting)]), [Entry(c, Valid)]) == Table(map[c := Blank(c, Valid)], map[])
    ensures Build([Entry(c, Valid)]) == Table(map[c := Blank(c, Valid)], map[])
    ensures Build([Entry(c, Deleting)]) == Table(map[], map[])
  {
    OneEntry(c, Deleting);
    OneEntry(c, Valid);
  }

  /**
   A pod whose prefix is listed Deleting at the restart is forgotten: if the prefix is Valid again in a later sync,
   its address goes to the next pod.
   */
  lemma ForgottenAddressIsReused(c: Cidr, p: Pod, q: Pod)
    requires c.Parsed() && PrefixSize(c) > 0 && p != q
    ensures var t := Allocate(Build([Entry(c, Valid)]), p);
            var r := RestoreAll(Build([Entry(c, Deleting)]), [Record(p, CalculateIp(c, 0).value)]);
            && CalculateIp(c, 0).Some? && AddressOf(t, p) == CalculateIp(c, 0)
            && r.podToPrefix == map[]
            && AddressOf(Allocate(Update(r, [Entry(c, Valid)]), q), q) == AddressOf(t, p)
  {
    CalculatedAddress(c, 0);
    ListedAgain(c);
    var none := Table(map[], map[]);
    var rs := [Record(p, CalculateIp(c, 0).value)];
    assert rs[..0] == [] && Find(none.prefixes, rs[0].ip) == None;
    assert RestoreAll(none, rs) == none;
    ServesFirst(Table(map[c := Blank(c, Valid)], map[]), c, p);
    ServesFirst(Table(map[c := Blank(c, Valid)], map[]), c, q);
  }
}
