/** doInit (pkg/eni/local_delegate.go): all allocators of a node rebuilt from the Node CR and the stored resources. */
module DelegateRestart {
  import opened Util
  import opened Bytes
  import opened PrefixAddr
  import opened PrefixTable
  import opened PrefixRuns
  import opened PrefixRestart
  import opened Ipam
  import opened DelegateSpec

  /** A stored resource of a pod; an address that is missing or does not parse is None. */
  datatype Stored = Stored(pod: Pod, eni: string, ip4: Option<Bytes>, ip6: Option<Bytes>)

  function InUse(cr: NodeCr): set<string> {
    set id | id in cr && cr[id].inUse
  }

  /** The first loop of doInit: a fresh allocator for every ENI in use. */
  function InitViews(cr: NodeCr): Views {
    map id | id in InUse(cr) :: Fresh(id, cr[id])
  }

  ghost function RestoreStored(views: Views, r: Stored): Views {
    if r.eni in views then
      var v := views[r.eni];
      views[r.eni := v.(v4 := Recovered(v.v4, r.pod, r.ip4), v6 := Recovered(v.v6, r.pod, r.ip6))]
    else views
  }

  /** The second loop: every stored resource restored on its ENI. */
  ghost function RestoreViews(views: Views, rs: seq<Stored>): Views {
    if rs == [] then views else RestoreStored(RestoreViews(views, rs[..|rs| - 1]), rs[|rs| - 1])
  }

  function AddressIn(r: Stored, f: Family): Option<Bytes> {
    if f == V4 then r.ip4 else r.ip6
  }

  /** The records of one ENI and one family. */
  function Of(rs: seq<Stored>, id: string, f: Family): seq<Record> {
    if rs == [] then []
    else
      var r := rs[|rs| - 1];
      Of(rs[..|rs| - 1], id, f) + if r.eni == id && AddressIn(r, f).Some? then [Record(r.pod, AddressIn(r, f).value)] else []
  }

  lemma RestoreMore(t: Table, rs: seq<Record>, r: Record)
    ensures RestoreAll(t, rs + [r]) == Restore(RestoreAll(t, rs), r.pod, r.ip)
  {
    assert (rs + [r])[..|rs|] == rs;
  }

  /** What the loops do to one table is what its own records do. */
  lemma {:induction false} RestoreProjects(views: Views, rs: seq<Stored>, id: string, f: Family)
    requires id in views
    ensures RestoreViews(views, rs).Keys == views.Keys
    ensures TableOf(RestoreViews(views, rs)[id], f) == RestoreAll(TableOf(views[id], f), Of(rs, id, f))
  {
    if rs != [] {
      var n := |rs| - 1;
      RestoreProjects(views, rs[..n], id, f);
      if rs[n].eni == id && AddressIn(rs[n], f).Some? {
        RestoreMore(TableOf(views[id], f), Of(rs[..n], id, f), Record(rs[n].pod, AddressIn(rs[n], f).value));
      }
      assert Of(rs[..n], id, f) + [] == Of(rs[..n], id, f);
    }
  }

  /** Each stored resource names an ENI of the node and the addresses that its pod holds there. */
  ghost predicate StoredOf(views: Views, rs: seq<Stored>) {
    rs == [] || (StoredOf(views, rs[..|rs| - 1]) && HeldStored(views, rs[|rs| - 1], V4) && HeldStored(views, rs[|rs| - 1], V6))
  }

  ghost predicate HeldStored(views: Views, r: Stored, f: Family) {
    r.eni in views && (AddressIn(r, f).Some? ==> RecordOf(TableOf(views[r.eni], f), Record(r.pod, AddressIn(r, f).value)))
  }

  lemma RecordsMore(t: Table, rs: seq<Record>, r: Record)
    requires RecordsOf(t, rs) && RecordOf(t, r)
    ensures RecordsOf(t, rs + [r])
  {
    assert (rs + [r])[..|rs|] == rs;
  }

  lemma {:induction false} StoredProjects(views: Views, rs: seq<Stored>, id: string, f: Family)
    requires StoredOf(views, rs) && id in views
    ensures RecordsOf(TableOf(views[id], f), Of(rs, id, f))
  {
    if rs != [] {
      var n := |rs| - 1;
      StoredProjects(views, rs[..n], id, f);
      assert HeldStored(views, rs[n], f);
      if rs[n].eni == id && AddressIn(rs[n], f).Some? {
        RecordsMore(TableOf(views[id], f), Of(rs[..n], id, f), Record(rs[n].pod, AddressIn(rs[n], f).value));
      }
      assert Of(rs[..n], id, f) + [] == Of(rs[..n], id, f);
    }
  }

  ghost predicate TablesOk(views: Views, all: set<Cidr>) {
    forall id, f: Family :: id in views ==> Ok(TableOf(views[id], f)) && TableOf(views[id], f).prefixes.Keys <= all
  }

  ghost predicate ListsIn(cr: NodeCr, all: set<Cidr>) {
    forall id, f: Family :: id in cr ==> ListIn(ListOf(cr, id, f), all)
  }

  /** Every pod of every table has a stored resource. */
  ghost predicate AllStored(views: Views, rs: seq<Stored>) {
    forall id, f: Family :: id in views ==> TableOf(views[id], f).podToPrefix.Keys <= Pods(Of(rs, id, f))
  }

  /** A table whose ENI is still in use is rebuilt as the CR lists its prefixes. */
  lemma TableRebuilt(was: Views, cr: NodeCr, rs: seq<Stored>, all: set<Cidr>, id: string, f: Family)
    requires Universe(all) && TablesOk(was, all) && ListsIn(cr, all) && StoredOf(was, rs) && AllStored(was, rs)
    requires id in was && id in InUse(cr)
    ensures id in RestoreViews(InitViews(cr), rs)
    ensures Rebuilt(TableOf(RestoreViews(InitViews(cr), rs)[id], f), TableOf(was[id], f), Usable(ListOf(cr, id, f)))
  {
    RestoreProjects(InitViews(cr), rs, id, f);
    StoredProjects(was, rs, id, f);
    assert Ok(TableOf(was[id], f)) && ListIn(ListOf(cr, id, f), all);
    RestartRebuilds(TableOf(was[id], f), ListOf(cr, id, f), Of(rs, id, f), all);
  }

  lemma {:induction false} NothingStored(was: Views, rs: seq<Stored>, id: string, f: Family)
    requires StoredOf(was, rs) && id !in was
    ensures Of(rs, id, f) == []
  {
    if rs != [] {
      NothingStored(was, rs[..|rs| - 1], id, f);
      assert HeldStored(was, rs[|rs| - 1], f);
    }
  }

  lemma RestoredTableOk(was: Views, cr: NodeCr, rs: seq<Stored>, all: set<Cidr>, id: string, f: Family)
    requires Universe(all) && TablesOk(was, all) && ListsIn(cr, all) && StoredOf(was, rs) && id in InUse(cr)
    ensures id in RestoreViews(InitViews(cr), rs)
    ensures var t := TableOf(RestoreViews(InitViews(cr), rs)[id], f);
            Ok(t) && t.prefixes.Keys <= all
  {
    RestoreProjects(InitViews(cr), rs, id, f);
    var list := ListOf(cr, id, f);
    assert ListIn(list, all);
    ListedIn(list, all);
    if id in was {
      assert Ok(TableOf(was[id], f));
      StoredProjects(was, rs, id, f);
      NothingSeen(TableOf(was[id], f), list);
      RestoreAllSeen(TableOf(was[id], f), Build(list), Of(rs, id, f), all);
      SeenOk(TableOf(was[id], f), Build(list), Pods(Of(rs, id, f)));
    } else {
      NothingStored(was, rs, id, f);
      BuildOk(list);
    }
  }

  /** The records of an earlier state bring the allocators back into agreement, those of new ENIs included. */
  lemma StoredRestoresOk(was: Views, cr: NodeCr, rs: seq<Stored>, all: set<Cidr>)
    requires Universe(all) && TablesOk(was, all) && ListsIn(cr, all) && StoredOf(was, rs)
    ensures TablesOk(RestoreViews(InitViews(cr), rs), all)
  {
    KeysStay(InitViews(cr), rs);
    forall id, f: Family | id in RestoreViews(InitViews(cr), rs)
      ensures Ok(TableOf(RestoreViews(InitViews(cr), rs)[id], f))
      ensures TableOf(RestoreViews(InitViews(cr), rs)[id], f).prefixes.Keys <= all
    {
      RestoredTableOk(was, cr, rs, all, id, f);
    }
  }

  /** No record, when its turn comes, finds its address with another pod or its pod with another address. */
  ghost predicate Clashless(views: Views, rs: seq<Stored>) {
    rs == [] || (
      var r, now := rs[|rs| - 1], RestoreViews(views, rs[..|rs| - 1]);
      && Clashless(views, rs[..|rs| - 1])
      && (r.eni in now ==> NoClash(now[r.eni].v4, r.pod, r.ip4) && NoClash(now[r.eni].v6, r.pod, r.ip6)))
  }

  lemma RecoveredOk(t: Table, p: Pod, ip: Option<Bytes>)
    requires Ok(t) && NoClash(t, p, ip)
    ensures Ok(Recovered(t, p, ip)) && Recovered(t, p, ip).prefixes.Keys == t.prefixes.Keys
  {
    if ip.Some? {
      RestoreOk(t, p, ip.value);
    }
  }

  lemma RestoreStoredOk(views: Views, r: Stored, all: set<Cidr>)
    requires TablesOk(views, all)
    requires r.eni in views ==> NoClash(views[r.eni].v4, r.pod, r.ip4) && NoClash(views[r.eni].v6, r.pod, r.ip6)
    ensures TablesOk(RestoreStored(views, r), all)
  {
    if r.eni in views {
      assert Ok(TableOf(views[r.eni], V4)) && Ok(TableOf(views[r.eni], V6));
      RecoveredOk(views[r.eni].v4, r.pod, r.ip4);
      RecoveredOk(views[r.eni].v6, r.pod, r.ip6);
    }
  }

  /** Records that do not clash keep all allocators in agreement. */
  lemma {:induction false} ClashlessRestoresOk(views: Views, rs: seq<Stored>, all: set<Cidr>)
    requires TablesOk(views, all) && Clashless(views, rs)
    ensures TablesOk(RestoreViews(views, rs), all)
  {
    if rs != [] {
      ClashlessRestoresOk(views, rs[..|rs| - 1], all);
      RestoreStoredOk(RestoreViews(views, rs[..|rs| - 1]), rs[|rs| - 1], all);
    }
  }

  /** The node's allocators after a restart. */
  ghost predicate HeldAgain(now: Views, was: Views, id: string, f: Family, p: Pod)
    requires id in was && Held(TableOf(was[id], f), p)
  {
    var c := TableOf(was[id], f).podToPrefix[p];
    HeldAt(now, id, f, p, c, TableOf(was[id], f).prefixes[c].held[p])
  }

  lemma NothingElse(cr: NodeCr, rs: seq<Stored>)
    ensures RestoreViews(InitViews(cr), rs).Keys == InUse(cr)
  {
    KeysStay(InitViews(cr), rs);
  }

  lemma {:induction false} KeysStay(views: Views, rs: seq<Stored>)
    ensures RestoreViews(views, rs).Keys == views.Keys
  {
    if rs != [] {
      KeysStay(views, rs[..|rs| - 1]);
    }
  }

  lemma RebuiltHoldsIff(now: Table, was: Table, usable: map<Cidr, Status>, p: Pod)
    requires Ok(was) && Rebuilt(now, was, usable) && Held(was, p)
    ensures var c := was.podToPrefix[p];
            HeldIn(now, p, c, was.prefixes[c].held[p]) <==> c in usable
  {
  }

  /**
   After a restart a pod has its address again, on the same ENI, prefix and offset, if and only if the CR has the ENI
   in use and lists the prefix Valid or Frozen.
   */
  lemma PodRestoredIff(was: Views, cr: NodeCr, rs: seq<Stored>, all: set<Cidr>, id: string, f: Family, p: Pod)
    requires Universe(all) && TablesOk(was, all) && ListsIn(cr, all) && StoredOf(was, rs) && AllStored(was, rs)
    requires id in was && Held(TableOf(was[id], f), p)
    ensures HeldAgain(RestoreViews(InitViews(cr), rs), was, id, f, p)
            <==> id in InUse(cr) && TableOf(was[id], f).podToPrefix[p] in Usable(ListOf(cr, id, f))
  {
    NothingElse(cr, rs);
    if id in InUse(cr) {
      TableRebuilt(was, cr, rs, all, id, f);
      assert Ok(TableOf(was[id], f));
      RebuiltHoldsIff(TableOf(RestoreViews(InitViews(cr), rs)[id], f), TableOf(was[id], f), Usable(ListOf(cr, id, f)), p);
    }
  }
}
