/** LocalDelegate (pkg/eni/local_delegate.go): allocation and release over the allocators of all ENIs, and syncs. */
module Delegate {
  import opened Util
  import opened Bytes
  import opened PrefixAddr
  import opened PrefixTable
  import opened PrefixRuns
  import opened IpamLoops
  import opened Ipam
  import opened DelegateSpec
  import opened DelegateRestart

  datatype Resource = Resource(eni: string, ip4: Option<Bytes>, ip6: Option<Bytes>)

  ghost predicate CrIn(cr: NodeCr, all: set<Cidr>) {
    forall id :: id in cr ==> ListIn(cr[id].list4, all) && ListIn(cr[id].list6, all)
  }

  lemma CrLists(cr: NodeCr, all: set<Cidr>)
    requires CrIn(cr, all)
    ensures ListsIn(cr, all)
  {
  }

  /** What one turn of an allocation loop did to its ENI. */
  ghost predicate Tried(was: View, now: View, p: Pod, s: Stack, r: Option<Resource>) {
    && (r.Some? <==> Serves(was, s))
    && now == (if r.Some? then Granted(was, p, s) else was)
    && (r.Some? ==> r.value == ResourceOf(now, p, s) && Complete(r.value, s))
  }

  /** One address of each enabled family. */
  predicate Complete(r: Resource, s: Stack) {
    r.ip4.Some? == s.v4 && r.ip6.Some? == s.v6
  }

  function ResourceOf(v: View, p: Pod, s: Stack): Resource {
    Resource(v.eni, if s.v4 then AddressOf(v.v4, p) else None, if s.v6 then AddressOf(v.v6, p) else None)
  }

  /** What one turn does for any pod, and what it returns. */
  ghost predicate TurnTaken(was: View, now: View, p: Pod, s: Stack, r: Option<Resource>) {
    && now == AfterTurn(was, p, s)
    && (r.Some? <==> GetsAll(was, p, s))
    && (r.Some? ==> r.value == ResourceOf(now, p, s) && Complete(r.value, s))
  }

  lemma AnsweredGets(t: Table, p: Pod, u: Table, r: Option<Bytes>)
    requires Answers(t, p, u, r)
    ensures (r.Some? <==> Gets(t, p)) && u == Allocate(t, p) && r == AddressOf(u, p)
    ensures r.None? ==> u == t
  {
  }

  lemma FullIsKept(t: Table, p: Pod)
    requires !Gets(t, p)
    ensures Allocate(t, p) == t
  {
  }

  /** For a pod that holds nothing on the ENI, a turn that fails leaves the ENI as it was. */
  lemma TakenIsTried(was: View, now: View, p: Pod, s: Stack, r: Option<Resource>)
    requires Ok(was.v4) && HoldsNothing(was, p) && (s.v4 || s.v6) && TurnTaken(was, now, p, s, r)
    ensures Tried(was, now, p, s, r)
  {
    if !Gets(was.v6, p) {
      FullIsKept(was.v6, p);
      ReleaseUndoesAllocate(was.v4, p);
    }
  }

  const DUAL: Stack := Stack(true, true)

  /** A turn on the ENI `was`, and what that means for a pod that holds nothing there. */
  ghost predicate TurnOutcome(was: View, now: View, p: Pod, s: Stack, r: Option<Resource>) {
    TurnTaken(was, now, p, s, r) && (HoldsNothing(was, p) ==> Tried(was, now, p, s, r))
  }

  lemma DualWithoutV4(was: View, p: Pod, u4: Table)
    requires Ok(was.v4) && !was.unschedulable && Answers(was.v4, p, u4, None)
    ensures TurnOutcome(was, was.(v4 := u4), p, DUAL, None)
  {
    AnsweredGets(was.v4, p, u4, None);
  }

  lemma DualWithoutV6(was: View, p: Pod, u4: Table, r4: Option<Bytes>, u6: Table)
    requires Ok(was.v4) && !was.unschedulable && r4.Some? && Answers(was.v4, p, u4, r4) && Answers(was.v6, p, u6, None)
    ensures TurnOutcome(was, was.(v4 := Release(u4, p), v6 := u6), p, DUAL, None)
  {
    AnsweredGets(was.v4, p, u4, r4);
    AnsweredGets(was.v6, p, u6, None);
    if HoldsNothing(was, p) {
      TakenIsTried(was, was.(v4 := Release(u4, p), v6 := u6), p, DUAL, None);
    }
  }

  lemma DualWithBoth(was: View, p: Pod, u4: Table, r4: Option<Bytes>, u6: Table, r6: Option<Bytes>)
    requires Ok(was.v4) && !was.unschedulable && r4.Some? && r6.Some?
    requires Answers(was.v4, p, u4, r4) && Answers(was.v6, p, u6, r6)
    ensures TurnOutcome(was, was.(v4 := u4, v6 := u6), p, DUAL, Some(Resource(was.eni, r4, r6)))
  {
    AnsweredGets(was.v4, p, u4, r4);
    AnsweredGets(was.v6, p, u6, r6);
  }

  /**
   An allocation over all ENIs: one ENI that serves the pod gives it an address of each enabled family and no
   other ENI changes, or nothing changes and no ENI serves the pod.
   */
  ghost predicate Allocated(was: Views, now: Views, p: Pod, s: Stack, r: Option<Resource>) {
    match r
    case Some(res) =>
      && res.eni in was && Serves(was[res.eni], s) && (s.v4 || s.v6)
      && now == was[res.eni := Granted(was[res.eni], p, s)]
      && res == ResourceOf(now[res.eni], p, s) && Complete(res, s)
    case None =>
      && now == was
      && (s.v4 || s.v6 ==> forall id :: id in was ==> !Serves(was[id], s))
  }

  /** One turn on one of the ENIs. */
  ghost predicate Turning(was: Views, now: Views, id: string, p: Pod, s: Stack, r: Option<Resource>) {
    && id in was && was[id].eni == id && Ok(was[id].v4)
    && id in now && now == was[id := now[id]] && TurnTaken(was[id], now[id], p, s, r)
  }

  ghost predicate NoneServes(views: Views, ids: seq<string>, s: Stack) {
    forall id :: id in ids ==> id in views && !Serves(views[id], s)
  }

  lemma NextServes(views: Views, order: seq<string>, i: nat, s: Stack)
    requires i < |order| && order[i] in views && NoneServes(views, order[..i], s) && !Serves(views[order[i]], s)
    ensures NoneServes(views, order[..i + 1], s)
  {
    assert order[..i + 1] == order[..i] + [order[i]];
  }

  /** Turns without success; for a pod that holds nothing they have changed nothing. */
  ghost predicate TurnsFailed(views: Views, now: Views, ids: seq<string>, p: Pod, s: Stack) {
    && now == AfterTurns(views, ids, p, s)
    && (HoldsNowhere(views, p) ==> now == views && NoneServes(views, ids, s))
  }

  lemma TurnTried(was: Views, now: Views, id: string, p: Pod, s: Stack, r: Option<Resource>)
    requires Turning(was, now, id, p, s, r) && HoldsNowhere(was, p) && (s.v4 || s.v6)
    ensures r.Some? ==> Allocated(was, now, p, s, r)
    ensures r.None? ==> now == was && !Serves(was[id], s)
  {
    TakenIsTried(was[id], now[id], p, s, r);
  }

  /** Turns up to here, with what the last one returned. */
  ghost predicate TurnsEnd(views: Views, now: Views, ids: seq<string>, p: Pod, s: Stack, r: Option<Resource>) {
    if r.None? then TurnsFailed(views, now, ids, p, s)
    else now == AfterTurns(views, ids, p, s) && (HoldsNowhere(views, p) ==> Allocated(views, now, p, s, r))
  }

  lemma TurnsGoOn(views: Views, before: Views, now: Views, order: seq<string>, i: nat, p: Pod, s: Stack, r: Option<Resource>)
    requires i < |order| && order[i] in views && TurnsFailed(views, before, order[..i], p, s) && (s.v4 || s.v6)
    requires Turning(before, now, order[i], p, s, r)
    ensures TurnsEnd(views, now, order[..i + 1], p, s, r)
  {
    TurnsNext(views, order, i, p, s);
    if HoldsNowhere(views, p) {
      TurnTried(before, now, order[i], p, s, r);
      if r.None? {
        NextServes(views, order, i, s);
      }
    }
  }

  lemma NoTurns(views: Views, order: seq<string>, p: Pod, s: Stack)
    ensures TurnsEnd(views, views, order[..0], p, s, None)
  {
    assert order[..0] == [];
  }

  /** Turns that stopped at a success, or went through all ENIs. */
  lemma TurnsAllocate(views: Views, now: Views, order: seq<string>, i: nat, p: Pod, s: Stack, r: Option<Resource>)
    requires i <= |order| && TurnsEnd(views, now, order[..i], p, s, r) && (r.Some? || i == |order|)
    requires Enumerates(order, views.Keys)
    ensures now == AfterTurns(views, order[..i], p, s) && (HoldsNowhere(views, p) ==> Allocated(views, now, p, s, r))
  {
    assert order[..|order|] == order;
  }

  /** The views after a loop over the ENIs of `done` with `turn` for its body. */
  ghost predicate Halfway(now: Views, was: Views, done: seq<string>, turn: string -> Option<View>) {
    forall id :: Get(now, id) == if id in done then turn(id) else Get(was, id)
  }

  function Without(views: Views, id: string, v: Option<View>): Views {
    if v.Some? then views[id := v.value] else views - {id}
  }

  /** The first loop of syncNodeCR on an ENI of the CR, case by case. */
  lemma RefreshIs(views: Views, cr: NodeCr, id: string)
    requires id in cr
    ensures Without(views, id, Refresh(Get(views, id), cr, id)) ==
            if !cr[id].inUse then views
            else if id !in views then views[id := Fresh(id, cr[id])]
            else views[id := Updated(views[id].(unschedulable := cr[id].unschedulable), cr[id].list4, cr[id].list6)]
  {
  }

  lemma HalfwayStep(now: Views, was: Views, order: seq<string>, i: nat, turn: string -> Option<View>)
    requires i < |order| && Halfway(now, was, order[..i], turn)
    ensures Halfway(Without(now, order[i], turn(order[i])), was, order[..i + 1], turn)
  {
    assert order[..i + 1] == order[..i] + [order[i]];
  }

  lemma NotYet(now: Views, was: Views, order: seq<string>, i: nat, turn: string -> Option<View>)
    requires i < |order| && Halfway(now, was, order[..i], turn)
    requires forall j :: 0 <= j < i ==> order[j] != order[i]
    ensures Get(now, order[i]) == Get(was, order[i])
  {
  }

  lemma SettleIs(views: Views, mid: Views, cr: NodeCr, id: string)
    requires id in views && mid == if id in cr then views else views[id := Updated(views[id], [], [])]
    ensures Without(views, id, Settle(Some(views[id]), cr, id)) == if Empty(mid[id]) then mid - {id} else mid
  {
  }

  ghost function FirstTurn(views: Views, cr: NodeCr): string -> Option<View> {
    id => Refresh(Get(views, id), cr, id)
  }

  ghost function SecondTurn(views: Views, cr: NodeCr): string -> Option<View> {
    id => Settle(Get(views, id), cr, id)
  }

  lemma RefreshedKeys(mid: Views, views: Views, cr: NodeCr, order: seq<string>)
    requires Halfway(mid, views, order, FirstTurn(views, cr)) && Enumerates(order, cr.Keys)
    ensures mid.Keys == views.Keys + set id | id in cr && cr[id].inUse
  {
    forall id ensures id in mid <==> id in views || (id in cr && cr[id].inUse) {
      assert Get(mid, id) == if id in order then FirstTurn(views, cr)(id) else Get(views, id);
    }
  }

  lemma FirstInit(views: Views, now: Views, cr: NodeCr, order: seq<string>)
    requires views == map[] && Enumerates(order, cr.Keys) && Halfway(now, views, order, FirstTurn(views, cr))
    ensures now == InitViews(cr)
  {
    forall id ensures Get(now, id) == Get(InitViews(cr), id) {
      assert Get(now, id) == if id in order then FirstTurn(views, cr)(id) else Get(views, id);
    }
    SameGets(now, InitViews(cr));
  }

  lemma BothTurns(views: Views, mid: Views, now: Views, cr: NodeCr, order: seq<string>, next: seq<string>)
    requires Enumerates(order, cr.Keys) && Enumerates(next, mid.Keys)
    requires Halfway(mid, views, order, FirstTurn(views, cr)) && Halfway(now, mid, next, SecondTurn(mid, cr))
    ensures now == Synced(views, cr)
  {
    forall id ensures Get(now, id) == Get(Synced(views, cr), id) {
      SyncedGet(views, cr, id);
      assert Get(mid, id) == Refresh(Get(views, id), cr, id);
      assert Get(now, id) == Settle(Get(mid, id), cr, id);
    }
    SameGets(now, Synced(views, cr));
  }

  lemma SameGets(a: Views, b: Views)
    requires forall id :: Get(a, id) == Get(b, id)
    ensures a == b
  {
    forall id ensures id in a <==> id in b
      ensures id in a ==> a[id] == b[id]
    {
      assert Get(a, id) == Get(b, id);
    }
  }

  class LocalDelegate {
    const stack: Stack
    var ipams: map<string, ENILocalIPAM>
    ghost const all: set<Cidr>

    ghost predicate Valid()
      reads this, ipams.Values
    {
      && (forall id :: id in ipams ==> ipams[id].Valid() && ipams[id].eni == id && ipams[id].all == all)
      && (forall i, j :: i in ipams && j in ipams && i != j ==> ipams[i] != ipams[j])
    }

    ghost function State(): Views
      reads this, ipams.Values
    {
      map id | id in ipams :: ipams[id].State()
    }

    /** One turn of the dual-stack loop: both families from this ENI, or IPv4 given back. */
    static method TryDual(ipam: ENILocalIPAM, p: Pod) returns (r: Option<Resource>)
      requires ipam.Valid()
      modifies ipam
      ensures ipam.Valid() && TurnTaken(old(ipam.State()), ipam.State(), p, DUAL, r)
      ensures old(HoldsNothing(ipam.State(), p)) ==> Tried(old(ipam.State()), ipam.State(), p, DUAL, r)
    {
      if ipam.unschedulable {
        return None;
      }
      ghost var was := ipam.State();
      var v4 := ipam.AllocateIPv4(p);
      ghost var u4 := ipam.v4;
      if v4.None? {
        DualWithoutV4(was, p, u4);
        return None;
      }
      var v6 := ipam.AllocateIPv6(p);
      if v6.None? {
        DualWithoutV6(was, p, u4, v4, ipam.v6);
        ipam.ReleaseIPv4(p);
        return None;
      }
      DualWithBoth(was, p, u4, v4, ipam.v6, v6);
      r := Some(Resource(ipam.eni, v4, v6));
    }

    static method TrySingle(ipam: ENILocalIPAM, p: Pod, f: Family) returns (r: Option<Resource>)
      requires ipam.Valid()
      modifies ipam
      ensures ipam.Valid() && TurnTaken(old(ipam.State()), ipam.State(), p, Stack(f == V4, f == V6), r)
    {
      ghost var was := ipam.State();
      if ipam.unschedulable {
        return None;
      }
      if f == V4 {
        var ip := ipam.AllocateIPv4(p);
        AnsweredGets(was.v4, p, ipam.v4, ip);
        r := if ip.Some? then Some(Resource(ipam.eni, ip, None)) else None;
      } else {
        var ip := ipam.AllocateIPv6(p);
        AnsweredGets(was.v6, p, ipam.v6, ip);
        r := if ip.Some? then Some(Resource(ipam.eni, None, ip)) else None;
      }
    }

    static method TryOn(ipam: ENILocalIPAM, p: Pod, s: Stack) returns (r: Option<Resource>)
      requires ipam.Valid() && (s.v4 || s.v6)
      modifies ipam
      ensures ipam.Valid() && TurnTaken(old(ipam.State()), ipam.State(), p, s, r)
    {
      if s.v4 && s.v6 {
        r := TryDual(ipam, p);
      } else {
        r := TrySingle(ipam, p, if s.v4 then V4 else V6);
      }
    }

    /** Work on one allocator leaves the others as they were. */
    twostate lemma OneChanged(id: string)
      requires old(Valid()) && id in ipams && ipams == old(ipams) && ipams[id].Valid()
      requires forall j :: j in ipams && j != id ==> unchanged(ipams[j])
      ensures Valid() && State() == old(State())[id := ipams[id].State()]
    {
      forall j | j in ipams && j != id ensures ipams[j].Valid() {
        assert unchanged(ipams[j]);
      }
      OneChangedState(id);
    }

    twostate lemma OneChangedState(id: string)
      requires id in ipams && ipams == old(ipams)
      requires forall j :: j in ipams && j != id ==> unchanged(ipams[j])
      ensures State() == old(State())[id := ipams[id].State()]
    {
      forall j | j in ipams && j != id ensures ipams[j].State() == old(ipams[j].State()) {
        assert unchanged(ipams[j]);
      }
    }

    /** One turn of the loop over the ENIs. */
    method TryAt(id: string, p: Pod) returns (r: Option<Resource>)
      requires Valid() && id in ipams && (stack.v4 || stack.v6)
      modifies ipams[id]
      ensures Valid() && ipams == old(ipams)
      ensures Turning(old(State()), State(), id, p, stack, r)
    {
      r := TryOn(ipams[id], p, stack);
      OneChanged(id);
    }

    /** tryAllocateLocal, with the order in which the map of ENIs is visited; it takes turns up to the ENI that serves. */
    method TryAllocateLocal(p: Pod, order: seq<string>) returns (r: Option<Resource>, ghost turns: nat)
      requires Valid() && Enumerates(order, ipams.Keys)
      modifies ipams.Values
      ensures Valid() && turns <= |order| && State() == AfterTurns(old(State()), order[..turns], p, stack)
      ensures old(HoldsNowhere(State(), p)) ==> Allocated(old(State()), State(), p, stack, r)
    {
      r, turns := None, 0;
      if !stack.v4 && !stack.v6 {
        return;
      }
      ghost var views := State();
      assert views.Keys == ipams.Keys;
      NoTurns(views, order, p, stack);
      var i := 0;
      while i < |order| && r.None?
        invariant Valid() && i <= |order| && turns == i && ipams == old(ipams)
        invariant TurnsEnd(views, State(), order[..i], p, stack, r)
      {
        ghost var before := State();
        r := TryAt(order[i], p);
        TurnsGoOn(views, before, State(), order, i, p, stack, r);
        i, turns := i + 1, i + 1;
      }
      TurnsAllocate(views, State(), order, i, p, stack, r);
    }

    /** Release: the ENI of the resource gives back the families of the resource. */
    method ReleaseLocal(p: Pod, res: Resource, order: seq<string>) returns (ok: bool)
      requires Valid() && Enumerates(order, ipams.Keys)
      modifies ipams.Values
      ensures Valid() && (ok <==> res.eni in old(State()))
      ensures ok ==> State() == old(State())[res.eni := Returned(old(State())[res.eni], p, Stack(res.ip4.Some?, res.ip6.Some?))]
      ensures !ok ==> State() == old(State())
    {
      for i := 0 to |order|
        invariant Valid() && res.eni !in order[..i] && unchanged(ipams.Values)
      {
        if ipams[order[i]].eni == res.eni {
          ReturnAt(order[i], p, Stack(res.ip4.Some?, res.ip6.Some?));
          return true;
        }
      }
      assert order[..|order|] == order;
      return false;
    }

    static method ReturnOn(ipam: ENILocalIPAM, p: Pod, s: Stack)
      requires ipam.Valid()
      modifies ipam
      ensures ipam.Valid() && ipam.State() == Returned(old(ipam.State()), p, s)
    {
      if s.v4 {
        ipam.ReleaseIPv4(p);
      }
      if s.v6 {
        ipam.ReleaseIPv6(p);
      }
    }

    method ReturnAt(id: string, p: Pod, s: Stack)
      requires Valid() && id in ipams
      modifies ipams[id]
      ensures Valid() && State() == old(State())[id := Returned(old(State())[id], p, s)]
    {
      ReturnOn(ipams[id], p, s);
      OneChanged(id);
    }

    static method UpdateOn(ipam: ENILocalIPAM, list4: seq<Entry>, list6: seq<Entry>)
      requires ipam.Valid() && ListIn(list4, ipam.all) && ListIn(list6, ipam.all)
      modifies ipam
      ensures ipam.Valid() && ipam.State() == Updated(old(ipam.State()), list4, list6)
    {
      ipam.UpdatePrefixes(list4, false);
      ipam.UpdatePrefixes(list6, true);
    }

    method UpdateAt(id: string, nic: Nic)
      requires Valid() && id in ipams && ListIn(nic.list4, all) && ListIn(nic.list6, all)
      modifies ipams[id]
      ensures Valid()
      ensures State() == old(State())[id := Updated(old(State())[id].(unschedulable := nic.unschedulable), nic.list4, nic.list6)]
    {
      ipams[id].SetUnschedulable(nic.unschedulable);
      UpdateOn(ipams[id], nic.list4, nic.list6);
      OneChanged(id);
    }

    twostate lemma OneCreated(id: string)
      requires old(Valid()) && id !in old(ipams) && id in ipams && ipams == old(ipams)[id := ipams[id]]
      requires fresh(ipams[id]) && ipams[id].Valid() && ipams[id].eni == id && ipams[id].all == all
      requires forall j :: j in old(ipams) ==> unchanged(old(ipams[j]))
      ensures Valid()
    {
      forall j | j in ipams ensures ipams[j].Valid() && ipams[j].eni == j && ipams[j].all == all {
        if j != id {
          assert unchanged(old(ipams[j]));
        }
      }
    }

    twostate lemma OneCreatedState(id: string)
      requires id !in old(ipams) && id in ipams && ipams == old(ipams)[id := ipams[id]]
      requires forall j :: j in old(ipams) ==> unchanged(old(ipams[j]))
      ensures State() == old(State())[id := ipams[id].State()]
    {
      forall j | j in old(ipams) ensures ipams[j].State() == old(ipams[j].State()) {
        assert unchanged(old(ipams[j]));
      }
    }

    method CreateAt(id: string, nic: Nic)
      requires Valid() && id !in ipams && Universe(all) && ListIn(nic.list4, all) && ListIn(nic.list6, all)
      modifies this`ipams
      ensures Valid() && State() == old(State())[id := Fresh(id, nic)]
      ensures id in ipams && fresh(ipams[id]) && ipams == old(ipams)[id := ipams[id]]
    {
      var ipam := new ENILocalIPAM(id, nic.unschedulable, nic.list4, nic.list6, all);
      ipams := ipams[id := ipam];
      OneCreated(id);
      OneCreatedState(id);
    }

    twostate lemma OneDropped(id: string)
      requires old(Valid()) && ipams == old(ipams) - {id}
      requires forall j :: j in ipams ==> unchanged(ipams[j])
      ensures Valid() && State() == old(State()) - {id}
    {
      forall j | j in ipams ensures ipams[j].Valid() && ipams[j].State() == old(ipams[j].State()) {
        assert unchanged(ipams[j]);
      }
    }

    method DropAt(id: string)
      requires Valid()
      modifies this`ipams
      ensures Valid() && State() == old(State()) - {id} && ipams == old(ipams) - {id}
    {
      ipams := ipams - {id};
      OneDropped(id);
    }

    /** The first loop of syncNodeCR on one ENI of the CR. */
    method RefreshAt(id: string, cr: NodeCr)
      requires Valid() && Universe(all) && CrIn(cr, all) && id in cr
      modifies this`ipams, if id in ipams then {ipams[id]} else {}
      ensures Valid() && State() == Without(old(State()), id, Refresh(Get(old(State()), id), cr, id))
      ensures forall x :: x in ipams.Values ==> x in old(ipams.Values) || fresh(x)
    {
      RefreshIs(State(), cr, id);
      if cr[id].inUse {
        if id !in ipams {
          CreateAt(id, cr[id]);
        } else {
          UpdateAt(id, cr[id]);
        }
      }
    }

    /** An allocator whose ENI is gone from the CR gets empty prefix lists. */
    method DrainAt(id: string, cr: NodeCr)
      requires Valid() && id in ipams
      modifies ipams[id]
      ensures Valid()
      ensures State() == if id in cr then old(State()) else old(State())[id := Updated(old(State())[id], [], [])]
    {
      if id !in cr {
        UpdateOn(ipams[id], [], []);
        OneChanged(id);
      }
    }

    /** The second loop on one allocator. */
    method SettleAt(id: string, cr: NodeCr)
      requires Valid() && id in ipams
      modifies this`ipams, ipams[id]
      ensures Valid() && State() == Without(old(State()), id, Settle(Some(old(State())[id]), cr, id))
      ensures ipams.Values <= old(ipams.Values)
    {
      ghost var views := State();
      DrainAt(id, cr);
      SettleIs(views, State(), cr, id);
      if ipams[id].IsEmpty() {
        DropAt(id);
      }
    }

    method RefreshAll(cr: NodeCr, order: seq<string>)
      requires Valid() && Universe(all) && CrIn(cr, all) && Enumerates(order, cr.Keys)
      modifies this`ipams, ipams.Values
      ensures Valid() && Halfway(State(), old(State()), order, FirstTurn(old(State()), cr))
      ensures forall x :: x in ipams.Values ==> x in old(ipams.Values) || fresh(x)
    {
      ghost var views := State();
      for i := 0 to |order|
        invariant Valid() && Halfway(State(), views, order[..i], FirstTurn(views, cr))
        invariant forall x :: x in ipams.Values ==> x in old(ipams.Values) || fresh(x)
      {
        NotYet(State(), views, order, i, FirstTurn(views, cr));
        HalfwayStep(State(), views, order, i, FirstTurn(views, cr));
        RefreshAt(order[i], cr);
      }
      assert order[..|order|] == order;
    }

    method SettleAll(cr: NodeCr, order: seq<string>)
      requires Valid() && Enumerates(order, ipams.Keys)
      modifies this`ipams, ipams.Values
      ensures Valid() && Halfway(State(), old(State()), order, SecondTurn(old(State()), cr))
    {
      ghost var views := State();
      for i := 0 to |order|
        invariant Valid() && Halfway(State(), views, order[..i], SecondTurn(views, cr))
        invariant ipams.Values <= old(ipams.Values)
      {
        NotYet(State(), views, order, i, SecondTurn(views, cr));
        HalfwayStep(State(), views, order, i, SecondTurn(views, cr));
        SettleAt(order[i], cr);
      }
      assert order[..|order|] == order;
    }

    /** syncNodeCR, with the orders in which the ENIs of the CR and the allocators are visited. */
    method SyncNodeCr(cr: NodeCr, order: seq<string>, next: seq<string>)
      requires Valid() && Universe(all) && CrIn(cr, all) && Enumerates(order, cr.Keys)
      requires Enumerates(next, ipams.Keys + set id | id in cr && cr[id].inUse)
      modifies this`ipams, ipams.Values
      ensures Valid() && State() == Synced(old(State()), cr)
    {
      ghost var views := State();
      RefreshAll(cr, order);
      ghost var mid := State();
      RefreshedKeys(mid, views, cr, order);
      SettleAll(cr, next);
      BothTurns(views, mid, State(), cr, order, next);
    }

    /** As Valid, while records that may clash are being restored. */
    ghost predicate Keyed()
      reads this, ipams.Values
    {
      && (forall id :: id in ipams ==> ipams[id].Keyed() && ipams[id].eni == id && ipams[id].all == all)
      && (forall i, j :: i in ipams && j in ipams && i != j ==> ipams[i] != ipams[j])
    }

    twostate lemma OneRestored(id: string)
      requires old(Keyed()) && id in ipams && ipams == old(ipams) && ipams[id].Keyed()
      requires forall j :: j in ipams && j != id ==> unchanged(ipams[j])
      ensures Keyed() && State() == old(State())[id := ipams[id].State()]
    {
      forall j | j in ipams && j != id ensures ipams[j].Keyed() && ipams[j].State() == old(ipams[j].State()) {
        assert unchanged(ipams[j]);
      }
    }

    /** One stored resource, on its ENI if the node has that. */
    method RestoreAt(r: Stored)
      requires Keyed()
      modifies ipams.Values
      ensures Keyed() && State() == RestoreStored(old(State()), r)
    {
      if r.eni in ipams {
        ipams[r.eni].RestorePod(r.pod, r.ip4, r.ip6, r.eni);
        OneRestored(r.eni);
      }
    }

    method RestorePods(rs: seq<Stored>)
      requires Keyed()
      modifies ipams.Values
      ensures Keyed() && State() == RestoreViews(old(State()), rs)
    {
      for i := 0 to |rs|
        invariant Keyed() && State() == RestoreViews(old(State()), rs[..i])
      {
        assert rs[..i + 1][..i] == rs[..i];
        RestoreAt(rs[i]);
      }
      assert rs[..|rs|] == rs;
    }

    lemma AgreeingIsValid()
      requires Keyed() && TablesOk(State(), all)
      ensures Valid()
    {
      forall id | id in ipams ensures ipams[id].Valid() {
        assert State()[id] == ipams[id].State();
        assert Ok(TableOf(State()[id], V4)) && Ok(TableOf(State()[id], V6));
      }
    }

    /**
     doInit, with the order in which the ENIs of the CR are visited. Records that do not clash, in particular those of
     an earlier state `was`, leave the allocators in the agreement that allocations, releases and syncs start from.
     */
    method DoInit(cr: NodeCr, order: seq<string>, rs: seq<Stored>, ghost was: Views)
      requires Valid() && ipams == map[] && Universe(all) && CrIn(cr, all) && Enumerates(order, cr.Keys)
      modifies this`ipams
      ensures Keyed() && State() == RestoreViews(InitViews(cr), rs)
      ensures Clashless(InitViews(cr), rs) ==> Valid()
      ensures TablesOk(was, all) && StoredOf(was, rs) ==> Valid()
    {
      ghost var views := State();
      RefreshAll(cr, order);
      FirstInit(views, State(), cr, order);
      ValidAgrees();
      RestorePods(rs);
      if Clashless(InitViews(cr), rs) {
        ClashlessRestoresOk(InitViews(cr), rs, all);
        AgreeingIsValid();
      }
      if TablesOk(was, all) && StoredOf(was, rs) {
        CrLists(cr, all);
        StoredRestoresOk(was, cr, rs, all);
        AgreeingIsValid();
      }
    }

    lemma ValidAgrees()
      requires Valid()
      ensures TablesOk(State(), all)
    {
      forall id, f: Family | id in State() ensures Ok(TableOf(State()[id], f)) && TableOf(State()[id], f).prefixes.Keys <= all {
        assert ipams[id].Valid();
      }
    }
  }
}
