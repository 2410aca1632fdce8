/** Starting the pool from what is on the ENI and from the pods' stored records (load, pkg/eni/local.go). */
module LocalLoad {
  import opened Util
  import opened LocalPool
  import opened LocalOwnership
  import opened LocalLoops

  /** What a pod's stored record says it was given on this ENI. */
  datatype Record = Record(pod: PodId, a4: Option<Addr>, a6: Option<Addr>)

  function AddrOf(r: Record, family6: bool): Option<Addr> {
    if family6 then r.a6 else r.a4
  }

  /** In each family the stored records give a pod at most one address, and an address to at most one pod. */
  predicate DistinctRecords(rs: seq<Record>) {
    && (forall i :: 0 <= i < |rs| ==> rs[i].pod != NO_POD)
    && DistinctIn(rs, false) && DistinctIn(rs, true)
  }

  predicate DistinctIn(rs: seq<Record>, family6: bool) {
    forall i, j :: 0 <= i < j < |rs| && AddrOf(rs[i], family6).Some? && AddrOf(rs[j], family6).Some? ==>
      rs[i].pod != rs[j].pod && AddrOf(rs[i], family6) != AddrOf(rs[j], family6)
  }

  /** load skips a record whose IPv4 address is not on the ENI, its IPv6 address included. */
  predicate Skipped(r: Record, remote4: set<Addr>) {
    r.a4.Some? && r.a4.value !in remote4
  }

  /** One of the first `n` records, not skipped, gives the address to the pod. */
  predicate RecordedOwner(rs: seq<Record>, n: nat, remote4: set<Addr>, pod: PodId, a: Addr, family6: bool)
    requires n <= |rs|
  {
    exists j :: 0 <= j < n && rs[j].pod == pod && AddrOf(rs[j], family6) == Some(a) && !Skipped(rs[j], remote4)
  }

  predicate OnlyRecorded(ips: IPSet, rs: seq<Record>, n: nat, remote4: set<Addr>, family6: bool)
    requires n <= |rs|
  {
    forall a :: a in ips && ips[a].InUse() ==> RecordedOwner(rs, n, remote4, ips[a].pod, a, family6)
  }

  /** A set whose owners are pods of the first `n` records, all of its addresses Valid. */
  predicate OwnedAsRecorded(ips: IPSet, rs: seq<Record>, n: nat, remote4: set<Addr>, family6: bool)
    requires n <= |rs|
  {
    (forall a :: a in ips ==> ips[a].status == IpValid) && OnlyRecorded(ips, rs, n, remote4, family6)
  }

  /** A record that is not skipped has the addresses of it that are on the ENI. */
  predicate Given(ips4: IPSet, ips6: IPSet, r: Record) {
    !Skipped(r, ips4.Keys) ==>
      && (r.a4.Some? ==> Owns(ips4, r.pod, r.a4.value))
      && (r.a6.Some? && r.a6.value in ips6 ==> Owns(ips6, r.pod, r.a6.value))
  }

  /** Exactly which of a record's addresses its pod owns; nobody owns the IPv6 address of a skipped one. */
  predicate Restored(ips4: IPSet, ips6: IPSet, r: Record) {
    && (r.a4.Some? ==> (Owns(ips4, r.pod, r.a4.value) <==> r.a4.value in ips4))
    && (r.a6.Some? && r.a6.value in ips6 ==>
          && (Owns(ips6, r.pod, r.a6.value) <==> !Skipped(r, ips4.Keys))
          && (Skipped(r, ips4.Keys) ==> !ips6[r.a6.value].InUse()))
  }

  /** The owners after a load: only what the records say, and of that all but the skipped records. */
  predicate LoadedOwners(ips4: IPSet, ips6: IPSet, rs: seq<Record>) {
    && OnlyRecorded(ips4, rs, |rs|, ips4.Keys, false) && OnlyRecorded(ips6, rs, |rs|, ips4.Keys, true)
    && forall i :: 0 <= i < |rs| ==> Restored(ips4, ips6, rs[i])
  }

  lemma SkippedUnowned(ips6: IPSet, rs: seq<Record>, remote4: set<Addr>, i: nat)
    requires DistinctRecords(rs) && i < |rs| && OnlyRecorded(ips6, rs, |rs|, remote4, true)
    requires Skipped(rs[i], remote4) && rs[i].a6.Some? && rs[i].a6.value in ips6
    ensures !ips6[rs[i].a6.value].InUse()
  {
    assert AddrOf(rs[i], true) == rs[i].a6;
  }

  lemma GivenIsRestored(ips4: IPSet, ips6: IPSet, rs: seq<Record>, i: nat)
    requires DistinctRecords(rs) && i < |rs| && OnlyRecorded(ips6, rs, |rs|, ips4.Keys, true)
    requires Given(ips4, ips6, rs[i])
    ensures Restored(ips4, ips6, rs[i])
  {
    if Skipped(rs[i], ips4.Keys) && rs[i].a6.Some? && rs[i].a6.value in ips6 {
      SkippedUnowned(ips6, rs, ips4.Keys, i);
    }
  }

  lemma RecordedIsSafe(f: Family, rs: seq<Record>, remote4: set<Addr>, family6: bool)
    requires DistinctRecords(rs) && OwnedAsRecorded(f.ips, rs, |rs|, remote4, family6) && f.collected == {}
    ensures FamSafe(f)
  {
    forall a, b | a in f.ips && b in f.ips && f.ips[a].InUse() && f.ips[a].pod == f.ips[b].pod ensures a == b {
      var i :| 0 <= i < |rs| && rs[i].pod == f.ips[a].pod && AddrOf(rs[i], family6) == Some(a);
      var j :| 0 <= j < |rs| && rs[j].pod == f.ips[b].pod && AddrOf(rs[j], family6) == Some(b);
    }
  }

  lemma RetireIdleSafe(f: Family)
    requires FamSafe(f)
    ensures FamSafe(f.(ips := RetireIps(f.ips, IdleSet(f.ips))))
  {
  }

  /** Every idle address of the set, disposed of. */
  method DisposeAllIdle(ips: IPSet) returns (out: IPSet)
    ensures out == RetireIps(ips, IdleSet(ips))
  {
    out := ips;
    var todo := CollectIdles(ips);
    while todo != {}
      invariant todo <= IdleSet(ips) && out == RetireIps(ips, IdleSet(ips) - todo)
      decreases todo
    {
      var a :| a in todo;
      out := out[a := out[a].Dispose()];
      todo := todo - {a};
    }
    assert IdleSet(ips) - {} == IdleSet(ips);
  }

  predicate SamePrimary(before: IPSet, after: IPSet) {
    before.Keys == after.Keys && forall a :: a in before ==> after[a].primary == before[a].primary
  }

  /** One more record, skipped or not, adds no owner by itself. */
  lemma MoreRecords(ips: IPSet, rs: seq<Record>, i: nat, remote4: set<Addr>, family6: bool)
    requires i < |rs| && OwnedAsRecorded(ips, rs, i, remote4, family6)
    ensures OwnedAsRecorded(ips, rs, i + 1, remote4, family6)
  {
    forall a | a in ips && ips[a].InUse() ensures RecordedOwner(rs, i + 1, remote4, ips[a].pod, a, family6) {
      assert RecordedOwner(rs, i, remote4, ips[a].pod, a, family6);
    }
  }

  /** A record that is not skipped allocates its address, and none that an earlier record has. */
  lemma AllocateRecorded(ips: IPSet, rs: seq<Record>, i: nat, remote4: set<Addr>, family6: bool)
    requires i < |rs| && DistinctRecords(rs) && OwnedAsRecorded(ips, rs, i, remote4, family6)
    requires AddrOf(rs[i], family6).Some? && AddrOf(rs[i], family6).value in ips && !Skipped(rs[i], remote4)
    ensures var a := AddrOf(rs[i], family6).value;
            && OwnedAsRecorded(ips[a := ips[a].Allocate(rs[i].pod)], rs, i + 1, remote4, family6)
            && (forall j :: 0 <= j < i ==> AddrOf(rs[j], family6) != Some(a))
  {
    MoreRecords(ips, rs, i, remote4, family6);
    var a := AddrOf(rs[i], family6).value;
    assert RecordedOwner(rs, i + 1, remote4, rs[i].pod, a, family6);
    forall j | 0 <= j < i ensures AddrOf(rs[j], family6) != Some(a) {
      assert AddrOf(rs[i], family6) == Some(a);
    }
  }

  /** One turn of the loop of load over the stored records. */
  method RestoreOne(was4: IPSet, was6: IPSet, ghost rs: seq<Record>, ghost i: nat, r: Record) returns (ips4: IPSet, ips6: IPSet)
    requires i < |rs| && rs[i] == r && DistinctRecords(rs)
    requires OwnedAsRecorded(was4, rs, i, was4.Keys, false) && OwnedAsRecorded(was6, rs, i, was4.Keys, true)
    ensures OwnedAsRecorded(ips4, rs, i + 1, was4.Keys, false) && OwnedAsRecorded(ips6, rs, i + 1, was4.Keys, true)
    ensures SamePrimary(was4, ips4) && SamePrimary(was6, ips6)
    ensures Given(ips4, ips6, r)
    ensures forall a :: a in was4 && r.a4 != Some(a) ==> ips4[a] == was4[a]
    ensures forall a :: a in was6 && r.a6 != Some(a) ==> ips6[a] == was6[a]
  {
    ips4, ips6 := was4, was6;
    MoreRecords(was4, rs, i, was4.Keys, false);
    MoreRecords(was6, rs, i, was4.Keys, true);
    if r.a4.Some? {
      if r.a4.value !in ips4 {
        return;
      }
      AllocateRecorded(was4, rs, i, was4.Keys, false);
      ips4 := ips4[r.a4.value := ips4[r.a4.value].Allocate(r.pod)];
    }
    if r.a6.Some? {
      if r.a6.value !in ips6 {
        return;
      }
      AllocateRecorded(was6, rs, i, was4.Keys, true);
      ips6 := ips6[r.a6.value := ips6[r.a6.value].Allocate(r.pod)];
    }
  }

  /** What an earlier record was given is not touched by a later one. */
  lemma GivenStays(was4: IPSet, was6: IPSet, ips4: IPSet, ips6: IPSet, rs: seq<Record>, i: nat, j: nat)
    requires j < i < |rs| && DistinctRecords(rs) && Given(was4, was6, rs[j])
    requires was4.Keys == ips4.Keys && was6.Keys == ips6.Keys
    requires forall a :: a in was4 && rs[i].a4 != Some(a) ==> ips4[a] == was4[a]
    requires forall a :: a in was6 && rs[i].a6 != Some(a) ==> ips6[a] == was6[a]
    ensures Given(ips4, ips6, rs[j])
  {
    assert AddrOf(rs[j], false) == rs[j].a4 && AddrOf(rs[i], false) == rs[i].a4;
    assert AddrOf(rs[j], true) == rs[j].a6 && AddrOf(rs[i], true) == rs[i].a6;
  }

  /** The loop of load over the stored records. */
  method RestoreOwners(start4: IPSet, start6: IPSet, records: seq<Record>) returns (ips4: IPSet, ips6: IPSet)
    requires DistinctRecords(records)
    requires OwnedAsRecorded(start4, records, 0, start4.Keys, false) && OwnedAsRecorded(start6, records, 0, start4.Keys, true)
    ensures OwnedAsRecorded(ips4, records, |records|, ips4.Keys, false)
    ensures OwnedAsRecorded(ips6, records, |records|, ips4.Keys, true)
    ensures SamePrimary(start4, ips4) && SamePrimary(start6, ips6)
    ensures LoadedOwners(ips4, ips6, records)
  {
    ips4, ips6 := start4, start6;
    for i := 0 to |records|
      invariant SamePrimary(start4, ips4) && SamePrimary(start6, ips6)
      invariant OwnedAsRecorded(ips4, records, i, ips4.Keys, false) && OwnedAsRecorded(ips6, records, i, ips4.Keys, true)
      invariant forall j :: 0 <= j < i ==> Given(ips4, ips6, records[j])
    {
      ghost var was4, was6 := ips4, ips6;
      ips4, ips6 := RestoreOne(ips4, ips6, records, i, records[i]);
      forall j | 0 <= j < i ensures Given(ips4, ips6, records[j]) {
        GivenStays(was4, was6, ips4, ips6, records, i, j);
      }
    }
    forall i | 0 <= i < |records| ensures Restored(ips4, ips6, records[i]) {
      GivenIsRestored(ips4, ips6, records, i);
    }
  }

  function Trimmed(ips: IPSet, cap: nat): IPSet {
    if |ips| > cap then RetireIps(ips, IdleSet(ips)) else ips
  }

  /** The idle addresses of a set over capacity go. */
  method TrimToCap(ips: IPSet, cap: nat) returns (out: IPSet)
    ensures out == Trimmed(ips, cap)
  {
    out := ips;
    if |ips| > cap {
      out := DisposeAllIdle(ips);
    }
  }

  lemma TrimSafe(f: Family, rs: seq<Record>, remote4: set<Addr>, family6: bool, cap: nat)
    requires DistinctRecords(rs) && OwnedAsRecorded(f.ips, rs, |rs|, remote4, family6) && f.collected == {}
    ensures FamSafe(f.(ips := Trimmed(f.ips, cap)))
    ensures Trimmed(f.ips, cap).Keys == f.ips.Keys
  {
    RecordedIsSafe(f, rs, remote4, family6);
    RetireIdleSafe(f);
  }

  /** Trimming takes no owner away. */
  lemma TrimKeepsOwners(ips: IPSet, cap: nat)
    ensures Trimmed(ips, cap).Keys == ips.Keys && forall a :: a in ips ==> Trimmed(ips, cap)[a].pod == ips[a].pod
  {
  }

  lemma TrimRestored(ips4: IPSet, ips6: IPSet, rs: seq<Record>, cap: nat)
    requires LoadedOwners(ips4, ips6, rs)
    ensures LoadedOwners(Trimmed(ips4, cap), Trimmed(ips6, cap), rs)
  {
    TrimKeepsOwners(ips4, cap);
    TrimKeepsOwners(ips6, cap);
    SameOwners(ips4, Trimmed(ips4, cap), ips6, Trimmed(ips6, cap), rs);
  }

  lemma SameOwners(was4: IPSet, now4: IPSet, was6: IPSet, now6: IPSet, rs: seq<Record>)
    requires was4.Keys == now4.Keys && was6.Keys == now6.Keys && LoadedOwners(was4, was6, rs)
    requires (forall a :: a in was4 ==> now4[a].pod == was4[a].pod) && (forall a :: a in was6 ==> now6[a].pod == was6[a].pod)
    ensures LoadedOwners(now4, now6, rs)
  {
    forall i | 0 <= i < |rs| ensures Restored(now4, now6, rs[i]) {
      assert Restored(was4, was6, rs[i]);
    }
  }

  /** A loaded address is Valid, or Deleting if it is idle, may go, and its family is over capacity. */
  predicate LoadedSet(ips: IPSet, remote: set<Addr>, primaryIp: Option<Addr>, cap: nat) {
    && ips.Keys == remote
    && forall a :: a in ips ==>
         && ips[a].primary == (Some(a) == primaryIp)
         && ips[a].status == if |remote| > cap && !ips[a].InUse() && !ips[a].primary then IpDeleting else IpValid
  }

  lemma TrimLoaded(ips: IPSet, remote: set<Addr>, primaryIp: Option<Addr>, cap: nat)
    requires ips.Keys == remote
    requires forall a :: a in ips ==> ips[a].status == IpValid && ips[a].primary == (Some(a) == primaryIp)
    ensures LoadedSet(Trimmed(ips, cap), remote, primaryIp, cap)
  {
    assert |ips| == |remote|;
  }

  lemma PrimaryAsPut(ips: IPSet, remote: set<Addr>, primaryIp: Option<Addr>)
    requires SamePrimary(PutIps(map[], remote, IpValid, primaryIp), ips)
    ensures ips.Keys == remote && forall a :: a in ips ==> ips[a].primary == (Some(a) == primaryIp)
  {
  }

  lemma LoadedFamily(ips: IPSet, remote: set<Addr>, primaryIp: Option<Addr>, cap: nat)
    requires SamePrimary(PutIps(map[], remote, IpValid, primaryIp), ips)
    requires forall a :: a in ips ==> ips[a].status == IpValid
    ensures LoadedSet(Trimmed(ips, cap), remote, primaryIp, cap)
  {
    PrimaryAsPut(ips, remote, primaryIp);
    TrimLoaded(ips, remote, primaryIp, cap);
  }

  lemma NobodyRecorded(remote: set<Addr>, primaryIp: Option<Addr>, rs: seq<Record>, remote4: set<Addr>, family6: bool)
    ensures OwnedAsRecorded(PutIps(map[], remote, IpValid, primaryIp), rs, 0, remote4, family6)
  {
  }

  /** Which of a record's addresses its pod owns after a load from an ENI with these addresses. */
  predicate OwnsWhatIsThere(ips4: IPSet, ips6: IPSet, remote4: set<Addr>, remote6: set<Addr>, r: Record) {
    && (r.a4.Some? ==> (Owns(ips4, r.pod, r.a4.value) <==> r.a4.value in remote4))
    && (r.a6.Some? && r.a6.value in remote6 ==>
          (Owns(ips6, r.pod, r.a6.value) <==> (r.a4.Some? ==> r.a4.value in remote4)))
  }

  lemma OwnersByRemote(ips4: IPSet, ips6: IPSet, remote4: set<Addr>, remote6: set<Addr>, rs: seq<Record>)
    requires LoadedOwners(ips4, ips6, rs) && ips4.Keys == remote4 && ips6.Keys == remote6
    ensures forall i :: 0 <= i < |rs| ==> OwnsWhatIsThere(ips4, ips6, remote4, remote6, rs[i])
  {
    forall i | 0 <= i < |rs| ensures OwnsWhatIsThere(ips4, ips6, remote4, remote6, rs[i]) {
      assert Restored(ips4, ips6, rs[i]);
    }
  }

  method LoadSets(v4: Family, v6: Family, remote4: set<Addr>, remote6: set<Addr>, primaryIp: Addr, records: seq<Record>, cap: nat)
    returns (ips4: IPSet, ips6: IPSet)
    requires DistinctRecords(records) && v4.collected == {} && v6.collected == {}
    ensures FamSafe(v4.(ips := ips4)) && FamSafe(v6.(ips := ips6))
    ensures LoadedSet(ips4, remote4, Some(primaryIp), cap) && LoadedSet(ips6, remote6, None, cap)
    ensures LoadedOwners(ips4, ips6, records)
    ensures forall i :: 0 <= i < |records| ==> OwnsWhatIsThere(ips4, ips6, remote4, remote6, records[i])
  {
    var start4 := Put(map[], remote4, IpValid, Some(primaryIp));
    var start6 := Put(map[], remote6, IpValid, None);
    NobodyRecorded(remote4, Some(primaryIp), records, start4.Keys, false);
    NobodyRecorded(remote6, None, records, start4.Keys, true);
    var own4, own6 := RestoreOwners(start4, start6, records);
    TrimSafe(v4.(ips := own4), records, own4.Keys, false, cap);
    TrimSafe(v6.(ips := own6), records, own4.Keys, true, cap);
    LoadedFamily(own4, remote4, Some(primaryIp), cap);
    LoadedFamily(own6, remote6, None, cap);
    TrimRestored(own4, own6, records, cap);
    ips4 := TrimToCap(own4, cap);
    ips6 := TrimToCap(own6, cap);
    OwnersByRemote(ips4, ips6, remote4, remote6, records);
  }
}
