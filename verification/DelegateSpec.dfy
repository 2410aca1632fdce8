/** The allocators of all ENIs of a node (pkg/eni/local_delegate.go) as values, and what syncs with the Node CR keep. */
module DelegateSpec {
  import opened Util
  import opened PrefixAddr
  import opened PrefixTable
  import opened PrefixRuns
  import opened Ipam

  /** An ENI of the Node CR. */
  datatype Nic = Nic(inUse: bool, unschedulable: bool, list4: seq<Entry>, list6: seq<Entry>)

  type Views = map<string, View>

  type NodeCr = map<string, Nic>

  /** The families that the node enables. */
  datatype Stack = Stack(v4: bool, v6: bool)

  // Allocation.

  ghost predicate HasFree(t: Table) {
    exists c :: Candidate(t.prefixes, c)
  }

  /** The ENI takes new pods and has a free Valid offset in each enabled family. */
  ghost predicate Serves(v: View, s: Stack) {
    !v.unschedulable && (s.v4 ==> HasFree(v.v4)) && (s.v6 ==> HasFree(v.v6))
  }

  predicate HoldsNothing(v: View, p: Pod) {
    p !in v.v4.podToPrefix && p !in v.v6.podToPrefix
  }

  predicate HoldsNowhere(views: Views, p: Pod) {
    forall id :: id in views ==> HoldsNothing(views[id], p)
  }

  ghost function Granted(v: View, p: Pod, s: Stack): View {
    v.(v4 := if s.v4 then Allocate(v.v4, p) else v.v4, v6 := if s.v6 then Allocate(v.v6, p) else v.v6)
  }

  /** An allocator has an address for the pod: the one it holds, or a free one. */
  ghost predicate Gets(t: Table, p: Pod) {
    p in t.podToPrefix || HasFree(t)
  }

  ghost predicate GetsAll(v: View, p: Pod, s: Stack) {
    !v.unschedulable && (s.v4 ==> Gets(v.v4, p)) && (s.v6 ==> Gets(v.v6, p))
  }

  /**
   One turn of the allocation loop, for a pod that may hold something already: with both families enabled and no
   IPv6 address for the pod, its IPv4 address is released, whether the turn has allocated it or not.
   */
  ghost function AfterTurn(v: View, p: Pod, s: Stack): View {
    if v.unschedulable || (s.v4 && !Gets(v.v4, p)) then v
    else if s.v4 && s.v6 && !Gets(v.v6, p) then v.(v4 := Release(Allocate(v.v4, p), p))
    else Granted(v, p, s)
  }

  /** What a release through the delegate does on the ENI of the resource. */
  function Returned(v: View, p: Pod, s: Stack): View {
    v.(v4 := if s.v4 then Release(v.v4, p) else v.v4, v6 := if s.v6 then Release(v.v6, p) else v.v6)
  }

  // Synchronisation.

  function Get<K, V>(m: map<K, V>, k: K): Option<V> {
    if k in m then Some(m[k]) else None
  }

  function Fresh(id: string, nic: Nic): View {
    View(id, nic.unschedulable, Build(nic.list4), Build(nic.list6))
  }

  function Updated(v: View, list4: seq<Entry>, list6: seq<Entry>): View {
    v.(v4 := Update(v.v4, list4), v6 := Update(v.v6, list6))
  }

  /** The first loop of syncNodeCR on one ENI: create or update what the CR lists as InUse. */
  function Refresh(v: Option<View>, cr: NodeCr, id: string): Option<View> {
    if id in cr && cr[id].inUse then
      Some(if v.None? then Fresh(id, cr[id])
           else Updated(v.value.(unschedulable := cr[id].unschedulable), cr[id].list4, cr[id].list6))
    else v
  }

  predicate Empty(v: View) {
    v.v4.prefixes == map[] && v.v6.prefixes == map[]
  }

  /** The second loop: drain ENIs gone from the CR, drop allocators without prefixes. */
  function Settle(v: Option<View>, cr: NodeCr, id: string): Option<View> {
    if v.None? then None
    else
      var w := if id in cr then v.value else Updated(v.value, [], []);
      if Empty(w) then None else Some(w)
  }

  function SyncedAt(views: Views, cr: NodeCr, id: string): Option<View> {
    Settle(Refresh(Get(views, id), cr, id), cr, id)
  }

  function Synced(views: Views, cr: NodeCr): Views {
    map id | id in views.Keys + cr.Keys && SyncedAt(views, cr, id).Some? :: SyncedAt(views, cr, id).value
  }

  lemma SyncedGet(views: Views, cr: NodeCr, id: string)
    ensures Get(Synced(views, cr), id) == SyncedAt(views, cr, id)
  {
  }

  // Runs.

  datatype Event =
    | Turn(eni: string, pod: Pod, stack: Stack)
    | Return(eni: string, pod: Pod, stack: Stack)
    | Sync(cr: NodeCr)

  ghost function Step(views: Views, e: Event): Views {
    match e
    case Turn(id, p, s) => if id in views then views[id := AfterTurn(views[id], p, s)] else views
    case Return(id, p, s) => if id in views then views[id := Returned(views[id], p, s)] else views
    case Sync(cr) => Synced(views, cr)
  }

  ghost function Exec(views: Views, es: seq<Event>): Views
    decreases |es|
  {
    if es == [] then views else Exec(Step(views, es[0]), es[1..])
  }

  function Turns(ids: seq<string>, p: Pod, s: Stack): seq<Event> {
    seq(|ids|, i requires 0 <= i < |ids| => Turn(ids[i], p, s))
  }

  lemma {:induction false} ExecNext(views: Views, es: seq<Event>, e: Event)
    ensures Exec(views, es + [e]) == Step(Exec(views, es), e)
    decreases |es|
  {
    if es == [] {
      assert es + [e] == [e] && [e][1..] == [];
    } else {
      assert (es + [e])[1..] == es[1..] + [e];
      ExecNext(Step(views, es[0]), es[1..], e);
    }
  }

  /** The views once an allocation has taken its turns on these ENIs. */
  ghost function AfterTurns(views: Views, ids: seq<string>, p: Pod, s: Stack): Views {
    Exec(views, Turns(ids, p, s))
  }

  lemma {:induction false} TurnsKeepKeys(views: Views, es: seq<Event>)
    requires forall i :: 0 <= i < |es| ==> es[i].Turn?
    ensures Exec(views, es).Keys == views.Keys
    decreases |es|
  {
    if es != [] {
      TurnsKeepKeys(Step(views, es[0]), es[1..]);
    }
  }

  lemma TurnsNext(views: Views, order: seq<string>, i: nat, p: Pod, s: Stack)
    requires i < |order| && order[i] in views
    ensures AfterTurns(views, order[..0], p, s) == views && order[i] in AfterTurns(views, order[..i], p, s)
    ensures var now := AfterTurns(views, order[..i], p, s);
            AfterTurns(views, order[..i + 1], p, s) == now[order[i] := AfterTurn(now[order[i]], p, s)]
  {
    assert Turns(order[..i + 1], p, s) == Turns(order[..i], p, s) + [Turn(order[i], p, s)];
    TurnsKeepKeys(views, Turns(order[..i], p, s));
    ExecNext(views, Turns(order[..i], p, s), Turn(order[i], p, s));
  }

  datatype Family = V4 | V6

  function TableOf(v: View, f: Family): Table {
    if f == V4 then v.v4 else v.v6
  }

  /** The pod holds offset `o` of prefix `c`. */
  predicate HeldIn(t: Table, p: Pod, c: Cidr, o: nat) {
    Holds(t, c, p) && t.prefixes[c].held[p] == o && p in t.podToPrefix && t.podToPrefix[p] == c
  }

  predicate HeldAt(views: Views, id: string, f: Family, p: Pod, c: Cidr, o: nat) {
    id in views && HeldIn(TableOf(views[id], f), p, c, o)
  }

  lemma AllocateKeeps(t: Table, q: Pod, p: Pod, c: Cidr, o: nat)
    requires HeldIn(t, p, c, o)
    ensures HeldIn(Allocate(t, q), p, c, o)
  {
  }

  lemma ReleaseKeeps(t: Table, q: Pod, p: Pod, c: Cidr, o: nat)
    requires HeldIn(t, p, c, o) && q != p
    ensures HeldIn(Release(t, q), p, c, o)
  {
  }

  lemma UpdateKeeps(t: Table, list: seq<Entry>, p: Pod, c: Cidr, o: nat)
    requires HeldIn(t, p, c, o)
    ensures HeldIn(Update(t, list), p, c, o)
  {
    UpdateHolds(t, list, c, p);
  }

  lemma UpdatedKeeps(v: View, list4: seq<Entry>, list6: seq<Entry>, f: Family, p: Pod, c: Cidr, o: nat)
    requires HeldIn(TableOf(v, f), p, c, o)
    ensures HeldIn(TableOf(Updated(v, list4, list6), f), p, c, o)
    ensures !Empty(Updated(v, list4, list6))
  {
    UpdateKeeps(TableOf(v, f), if f == V4 then list4 else list6, p, c, o);
  }

  lemma SyncKeeps(views: Views, cr: NodeCr, id: string, f: Family, p: Pod, c: Cidr, o: nat)
    requires HeldAt(views, id, f, p, c, o)
    ensures HeldAt(Synced(views, cr), id, f, p, c, o)
  {
    SyncedGet(views, cr, id);
    var v := views[id];
    var w := Refresh(Some(v), cr, id).value;
    if id in cr && cr[id].inUse {
      UpdatedKeeps(v.(unschedulable := cr[id].unschedulable), cr[id].list4, cr[id].list6, f, p, c, o);
    }
    if id !in cr {
      UpdatedKeeps(w, [], [], f, p, c, o);
    }
  }

  /** The pod's own release, or its own turn on a dual-stack ENI that has no IPv6 address for it. */
  ghost predicate Drops(views: Views, e: Event, id: string, f: Family, p: Pod) {
    || (e.Return? && e.eni == id && e.pod == p && (if f == V4 then e.stack.v4 else e.stack.v6))
    || (e.Turn? && e.eni == id && e.pod == p && e.stack == Stack(true, true) && f == V4
        && id in views && !views[id].unschedulable && !Gets(views[id].v6, p))
  }

  lemma ReleaseDrops(t: Table, p: Pod, c: Cidr, o: nat)
    requires HeldIn(t, p, c, o)
    ensures Allocate(t, p) == t && !HeldIn(Release(t, p), p, c, o)
  {
  }

  lemma TurnKeepsIff(views: Views, e: Event, id: string, f: Family, p: Pod, c: Cidr, o: nat)
    requires e.Turn? && HeldAt(views, id, f, p, c, o)
    ensures HeldAt(Step(views, e), id, f, p, c, o) <==> !Drops(views, e, id, f, p)
  {
    var t := TableOf(views[id], f);
    AllocateKeeps(t, e.pod, p, c, o);
    ReleaseDrops(t, p, c, o);
    if e.pod != p {
      ReleaseKeeps(Allocate(t, e.pod), e.pod, p, c, o);
    }
  }

  lemma ReturnKeepsIff(views: Views, e: Event, id: string, f: Family, p: Pod, c: Cidr, o: nat)
    requires e.Return? && HeldAt(views, id, f, p, c, o)
    ensures HeldAt(Step(views, e), id, f, p, c, o) <==> !Drops(views, e, id, f, p)
  {
    var t := TableOf(views[id], f);
    ReleaseDrops(t, p, c, o);
    if e.pod != p {
      ReleaseKeeps(t, e.pod, p, c, o);
    }
  }

  /** A step leaves a pod its prefix and offset exactly if it is not one of those two. */
  lemma StepKeepsIff(views: Views, e: Event, id: string, f: Family, p: Pod, c: Cidr, o: nat)
    requires HeldAt(views, id, f, p, c, o)
    ensures HeldAt(Step(views, e), id, f, p, c, o) <==> !Drops(views, e, id, f, p)
  {
    match e
    case Turn(_, _, _) => TurnKeepsIff(views, e, id, f, p, c, o);
    case Return(_, _, _) => ReturnKeepsIff(views, e, id, f, p, c, o);
    case Sync(cr) => SyncKeeps(views, cr, id, f, p, c, o);
  }

  ghost predicate NeverDrops(views: Views, es: seq<Event>, id: string, f: Family, p: Pod)
    decreases |es|
  {
    es == [] || (!Drops(views, es[0], id, f, p) && NeverDrops(Step(views, es[0]), es[1..], id, f, p))
  }

  /** No run of syncs, allocation turns and releases drops or changes a pod's address without such a step. */
  lemma {:induction false} LivePodKeepsAddress(views: Views, es: seq<Event>, id: string, f: Family, p: Pod, c: Cidr, o: nat)
    requires HeldAt(views, id, f, p, c, o) && NeverDrops(views, es, id, f, p)
    ensures HeldAt(Exec(views, es), id, f, p, c, o)
    decreases |es|
  {
    if es != [] {
      StepKeepsIff(views, es[0], id, f, p, c, o);
      LivePodKeepsAddress(Step(views, es[0]), es[1..], id, f, p, c, o);
    }
  }

  predicate GivesBack(e: Event, id: string, p: Pod) {
    e.Return? && e.eni == id && e.pod == p
  }

  /** A pod with an address of each family on an ENI loses neither before its own release there. */
  lemma {:induction false} DualPodKeepsBoth(views: Views, es: seq<Event>, id: string, p: Pod, c: Cidr, o: nat, d: Cidr, n: nat)
    requires HeldAt(views, id, V4, p, c, o) && HeldAt(views, id, V6, p, d, n)
    requires forall i :: 0 <= i < |es| ==> !GivesBack(es[i], id, p)
    ensures HeldAt(Exec(views, es), id, V4, p, c, o) && HeldAt(Exec(views, es), id, V6, p, d, n)
    decreases |es|
  {
    if es != [] {
      assert !GivesBack(es[0], id, p);
      StepKeepsIff(views, es[0], id, V4, p, c, o);
      StepKeepsIff(views, es[0], id, V6, p, d, n);
      DualPodKeepsBoth(Step(views, es[0]), es[1..], id, p, c, o, d, n);
    }
  }

  /** The prefix list that the CR gives for an ENI: none for one that is gone. */
  function ListOf(cr: NodeCr, id: string, f: Family): seq<Entry> {
    if id !in cr then [] else if f == V4 then cr[id].list4 else cr[id].list6
  }

  lemma UpdateServesListed(t: Table, list: seq<Entry>, c: Cidr)
    requires Candidate(Update(t, list).prefixes, c)
    ensures c in Listed(list) && Listed(list)[c] == Valid
  {
  }

  lemma {:induction false} ListedEntry(list: seq<Entry>, c: Cidr)
    ensures c in Listed(list) ==> Entry(c, Listed(list)[c]) in list
    ensures c in Usable(list) ==> Entry(c, Usable(list)[c]) in list
  {
    if list != [] {
      ListedEntry(list[..|list| - 1], c);
      assert list[|list| - 1] == Entry(list[|list| - 1].cidr, list[|list| - 1].status);
    }
  }

  /** After a sync, an ENI that is InUse in the CR or gone from it serves only from prefixes listed Valid. */
  lemma OnlyListedServes(views: Views, cr: NodeCr, id: string, f: Family, c: Cidr)
    requires id in Synced(views, cr) && Candidate(TableOf(Synced(views, cr)[id], f).prefixes, c)
    requires id in cr ==> cr[id].inUse
    ensures Entry(c, Valid) in ListOf(cr, id, f)
  {
    SyncedGet(views, cr, id);
    ListedEntry(ListOf(cr, id, f), c);
    if id in views {
      UpdateServesListed(TableOf(views[id], f), ListOf(cr, id, f), c);
    }
  }

  // Prefixes on their way out.

  /** The ENI's list gives the prefix, if there is one, no way back. */
  predicate LeavesOut(e: Event, id: string, f: Family, c: Cidr) {
    e.Sync? ==> (id in e.cr ==> e.cr[id].inUse) && c !in Listed(ListOf(e.cr, id, f))
  }

  predicate Draining(views: Views, id: string, f: Family, c: Cidr) {
    id in views && c in TableOf(views[id], f).prefixes ==> TableOf(views[id], f).prefixes[c].status == Deleting
  }

  lemma AllocateElsewhere(t: Table, q: Pod, c: Cidr)
    requires c in t.prefixes ==> t.prefixes[c].status == Deleting
    ensures c in Allocate(t, q).prefixes <==> c in t.prefixes
    ensures c in t.prefixes ==> Allocate(t, q).prefixes[c] == t.prefixes[c]
  {
  }

  lemma ReleaseShrinks(t: Table, q: Pod, c: Cidr, p: Pod)
    ensures c in Release(t, q).prefixes <==> c in t.prefixes
    ensures c in t.prefixes ==> Release(t, q).prefixes[c].status == t.prefixes[c].status
    ensures Holds(Release(t, q), c, p) ==> Holds(t, c, p)
  {
  }

  lemma {:induction false} UsableIsListed(list: seq<Entry>, c: Cidr)
    requires c in Usable(list)
    ensures c in Listed(list)
  {
    if c in Usable(list[..|list| - 1]) {
      UsableIsListed(list[..|list| - 1], c);
    }
  }

  predicate PodIn(views: Views, id: string, f: Family, c: Cidr, p: Pod) {
    id in views && Holds(TableOf(views[id], f), c, p)
  }

  lemma TurnDrains(views: Views, e: Event, id: string, f: Family, c: Cidr, p: Pod)
    requires (e.Turn? || e.Return?) && Draining(views, id, f, c)
    ensures Draining(Step(views, e), id, f, c) && (PodIn(Step(views, e), id, f, c, p) ==> PodIn(views, id, f, c, p))
  {
    if id in views {
      var t := TableOf(views[id], f);
      AllocateElsewhere(t, e.pod, c);
      ReleaseShrinks(t, e.pod, c, p);
      ReleaseShrinks(Allocate(t, e.pod), e.pod, c, p);
    }
  }

  lemma SyncDrains(views: Views, e: Event, id: string, f: Family, c: Cidr, p: Pod)
    requires e.Sync? && LeavesOut(e, id, f, c) && Draining(views, id, f, c)
    ensures Draining(Step(views, e), id, f, c) && (PodIn(Step(views, e), id, f, c, p) ==> PodIn(views, id, f, c, p))
  {
    SyncedGet(views, e.cr, id);
    if id !in views && c in Usable(ListOf(e.cr, id, f)) {
      UsableIsListed(ListOf(e.cr, id, f), c);
    }
  }

  /** While the CR leaves a prefix out, no run lets a pod into it. */
  lemma {:induction false} DrainingTakesNoPod(views: Views, es: seq<Event>, id: string, f: Family, c: Cidr, p: Pod)
    requires Draining(views, id, f, c) && forall i :: 0 <= i < |es| ==> LeavesOut(es[i], id, f, c)
    ensures Draining(Exec(views, es), id, f, c)
    ensures PodIn(Exec(views, es), id, f, c, p) ==> PodIn(views, id, f, c, p)
    decreases |es|
  {
    if es != [] {
      if es[0].Sync? {
        SyncDrains(views, es[0], id, f, c, p);
      } else {
        TurnDrains(views, es[0], id, f, c, p);
      }
      DrainingTakesNoPod(Step(views, es[0]), es[1..], id, f, c, p);
    }
  }

  lemma EmptyPrefixGoes(views: Views, cr: NodeCr, id: string, f: Family, c: Cidr)
    requires LeavesOut(Event.Sync(cr), id, f, c) && forall p :: !PodIn(views, id, f, c, p)
    ensures id in Synced(views, cr) ==> c !in TableOf(Synced(views, cr)[id], f).prefixes
  {
    SyncedGet(views, cr, id);
    if id in views && c in TableOf(views[id], f).prefixes {
      var held := TableOf(views[id], f).prefixes[c].held;
      assert held.Keys == {} by {
        assert forall p :: p in held ==> PodIn(views, id, f, c, p);
      }
    }
    if id !in views && c in Usable(ListOf(cr, id, f)) {
      UsableIsListed(ListOf(cr, id, f), c);
    }
  }

  /** A prefix that the CR leaves out is gone with the first sync after the last of the pods it had. */
  lemma DrainedPrefixGoes(views: Views, es: seq<Event>, cr: NodeCr, id: string, f: Family, c: Cidr)
    requires Draining(views, id, f, c) && forall i :: 0 <= i < |es| ==> LeavesOut(es[i], id, f, c)
    requires LeavesOut(Event.Sync(cr), id, f, c)
    requires forall p :: PodIn(views, id, f, c, p) ==> !PodIn(Exec(views, es), id, f, c, p)
    ensures var now := Synced(Exec(views, es), cr);
            id in now ==> c !in TableOf(now[id], f).prefixes
  {
    forall p ensures !PodIn(Exec(views, es), id, f, c, p) {
      DrainingTakesNoPod(views, es, id, f, c, p);
    }
    EmptyPrefixGoes(Exec(views, es), cr, id, f, c);
  }

  /** Only an allocator without allocations is removed. */
  lemma RemovedHadNoPods(views: Views, cr: NodeCr, id: string)
    requires id in views && Ok(views[id].v4) && Ok(views[id].v6) && id !in Synced(views, cr)
    ensures views[id].v4.podToPrefix == map[] && views[id].v6.podToPrefix == map[]
  {
    forall f: Family, p | p in TableOf(views[id], f).podToPrefix ensures false {
      var t := TableOf(views[id], f);
      assert Holds(t, t.podToPrefix[p], p);
      SyncKeeps(views, cr, id, f, p, t.podToPrefix[p], t.prefixes[t.podToPrefix[p]].held[p]);
    }
    assert TableOf(views[id], V4) == views[id].v4 && TableOf(views[id], V6) == views[id].v6;
  }
}
