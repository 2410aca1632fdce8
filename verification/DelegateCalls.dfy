/**
 Dual-stack allocations that run at the same time. tryAllocateLocal holds the delegate's lock for reading only, so
 calls for different pods interleave between the calls on the single allocators, each of which has its own lock;
 syncs, which hold the delegate's lock for writing, do not come between. Here a call is its remaining ENIs and where
 it stands, and each call on an allocator is one step.
 */
module DelegateCalls {
  import opened Util
  import opened PrefixAddr
  import opened PrefixTable
  import opened PrefixRuns
  import opened IpamLoops
  import opened Ipam
  import opened DelegateSpec
  import opened DelegateRestart

  datatype Phase =
    | Trying
    | Holding(eni: string)
    | Undoing(eni: string)
    | Won(eni: string)
    | Lost

  datatype Call = Call(pod: Pod, order: seq<string>, phase: Phase)

  datatype State = State(views: Views, calls: map<nat, Call>)

  datatype Step =
    | Begin(k: nat, pod: Pod, order: seq<string>)
    | Take4(k: nat)
    | Take6(k: nat)
    | Undo(k: nat)
    | Quit(k: nat)
    | End(k: nat)
    | Give(eni: string, pod: Pod, stack: Stack)

  predicate Calling(s: State, p: Pod) {
    exists k :: k in s.calls && s.calls[k].pod == p
  }

  /** One call per pod; a pod that is released has none. */
  ghost predicate Enabled(s: State, e: Step) {
    match e
    case Begin(k, p, order) =>
      k !in s.calls && !Calling(s, p) && HoldsNowhere(s.views, p) && forall i :: 0 <= i < |order| ==> order[i] in s.views
    case Take4(k) => k in s.calls && s.calls[k].phase == Trying && s.calls[k].order != []
    case Take6(k) => k in s.calls && s.calls[k].phase.Holding?
    case Undo(k) => k in s.calls && s.calls[k].phase.Undoing?
    case Quit(k) => k in s.calls && s.calls[k].phase == Trying && s.calls[k].order == []
    case End(k) => k in s.calls && (s.calls[k].phase.Won? || s.calls[k].phase == Lost)
    case Give(_, p, _) => !Calling(s, p)
  }

  function With4(views: Views, id: string, t: Table): Views
    requires id in views
  {
    views[id := views[id].(v4 := t)]
  }

  function With6(views: Views, id: string, t: Table): Views
    requires id in views
  {
    views[id := views[id].(v6 := t)]
  }

  function Move(s: State, k: nat, order: seq<string>, phase: Phase): State
    requires k in s.calls
  {
    s.(calls := s.calls[k := Call(s.calls[k].pod, order, phase)])
  }

  /** A step on an ENI that the delegate does not have changes nothing; the invariant shows that there is none. */
  ghost function Apply(s: State, e: Step): State
    requires Enabled(s, e)
  {
    match e
    case Begin(k, p, order) => s.(calls := s.calls[k := Call(p, order, Trying)])
    case Take4(k) =>
      var x := s.calls[k];
      var id := x.order[0];
      if id !in s.views || s.views[id].unschedulable || !HasFree(s.views[id].v4) then Move(s, k, x.order[1..], Trying)
      else Move(s, k, x.order[1..], Holding(id)).(views := With4(s.views, id, Allocate(s.views[id].v4, x.pod)))
    case Take6(k) =>
      var x := s.calls[k];
      var id := x.phase.eni;
      if id !in s.views || !HasFree(s.views[id].v6) then Move(s, k, x.order, Undoing(id))
      else Move(s, k, x.order, Won(id)).(views := With6(s.views, id, Allocate(s.views[id].v6, x.pod)))
    case Undo(k) =>
      var x := s.calls[k];
      var id := x.phase.eni;
      if id !in s.views then Move(s, k, x.order, Trying)
      else Move(s, k, x.order, Trying).(views := With4(s.views, id, Release(s.views[id].v4, x.pod)))
    case Quit(k) => Move(s, k, [], Lost)
    case End(k) => s.(calls := s.calls - {k})
    case Give(id, p, stack) =>
      if id in s.views then s.(views := s.views[id := Returned(s.views[id], p, stack)]) else s
  }

  ghost predicate Run(s: State, es: seq<Step>)
    decreases |es|
  {
    es == [] || (Enabled(s, es[0]) && Run(Apply(s, es[0]), es[1..]))
  }

  ghost function Exec(s: State, es: seq<Step>): State
    requires Run(s, es)
    decreases |es|
  {
    if es == [] then s else Exec(Apply(s, es[0]), es[1..])
  }

  // What a step does to the pods of a table.

  /** Pod `q` holds the same offset of the same prefix, or nothing in either. */
  ghost predicate SameFor(t: Table, u: Table, q: Pod) {
    && (q in t.podToPrefix <==> q in u.podToPrefix)
    && (forall c, o :: HeldIn(t, q, c, o) <==> HeldIn(u, q, c, o))
  }

  lemma AllocateOthers(t: Table, p: Pod, q: Pod)
    requires q != p
    ensures SameFor(t, Allocate(t, p), q)
  {
  }

  lemma ReleaseOthers(t: Table, p: Pod, q: Pod)
    requires q != p
    ensures SameFor(t, Release(t, p), q)
  {
  }

  lemma AllocateGives(t: Table, all: set<Cidr>, p: Pod)
    requires Universe(all) && t.prefixes.Keys <= all && Ok(t) && HasFree(t)
    ensures p in Allocate(t, p).podToPrefix && Ok(Allocate(t, p)) && Allocate(t, p).prefixes.Keys <= all
  {
    ChoiceIff(t.prefixes, all);
    AllocateOk(t, p);
  }

  lemma ReleaseTakes(t: Table, all: set<Cidr>, p: Pod)
    requires t.prefixes.Keys <= all && Ok(t)
    ensures p !in Release(t, p).podToPrefix && Ok(Release(t, p)) && Release(t, p).prefixes.Keys <= all
  {
    ReleaseOk(t, p);
  }

  // The invariant.

  predicate Has4(x: Call, id: string) {
    x.phase == Holding(id) || x.phase == Undoing(id) || x.phase == Won(id)
  }

  /** A pod with a call holds exactly what the call's phase says, on exactly that ENI. */
  predicate CallFits(views: Views, x: Call) {
    && (forall i :: 0 <= i < |x.order| ==> x.order[i] in views)
    && (x.phase.Holding? || x.phase.Undoing? || x.phase.Won? ==> x.phase.eni in views)
    && (forall id :: id in views ==> (x.pod in views[id].v4.podToPrefix <==> Has4(x, id))
                                     && (x.pod in views[id].v6.podToPrefix <==> x.phase == Won(id)))
  }

  ghost predicate Fits(s: State, all: set<Cidr>) {
    && TablesOk(s.views, all)
    && (forall k :: k in s.calls ==> CallFits(s.views, s.calls[k]))
    && DistinctPods(s)
  }

  /** A pod's addresses are the same on every ENI. */
  ghost predicate SameOnAll(was: Views, now: Views, q: Pod) {
    && was.Keys == now.Keys
    && forall id :: id in was ==> SameFor(was[id].v4, now[id].v4, q) && SameFor(was[id].v6, now[id].v6, q)
  }

  lemma Changed4(views: Views, id: string, t: Table, q: Pod)
    requires id in views && SameFor(views[id].v4, t, q)
    ensures SameOnAll(views, With4(views, id, t), q)
  {
  }

  lemma Changed6(views: Views, id: string, t: Table, q: Pod)
    requires id in views && SameFor(views[id].v6, t, q)
    ensures SameOnAll(views, With6(views, id, t), q)
  {
  }

  lemma ChangedBoth(views: Views, id: string, v: View, q: Pod)
    requires id in views && SameFor(views[id].v4, v.v4, q) && SameFor(views[id].v6, v.v6, q)
    ensures SameOnAll(views, views[id := v], q)
  {
  }

  /** The pod a step acts for. */
  function Actor(s: State, e: Step): Option<Pod> {
    match e
    case Begin(_, p, _) => Some(p)
    case Give(_, p, _) => Some(p)
    case _ => if e.k in s.calls then Some(s.calls[e.k].pod) else None
  }

  /** A step of one call leaves every other pod its addresses. */
  lemma StepLeavesOthers(s: State, e: Step, q: Pod)
    requires Enabled(s, e) && Actor(s, e) != Some(q)
    ensures SameOnAll(s.views, Apply(s, e).views, q)
  {
    match e
    case Take4(k) =>
      var x := s.calls[k];
      if x.order[0] in s.views {
        AllocateOthers(s.views[x.order[0]].v4, x.pod, q);
        Changed4(s.views, x.order[0], Allocate(s.views[x.order[0]].v4, x.pod), q);
      }
    case Take6(k) =>
      var x := s.calls[k];
      if x.phase.eni in s.views {
        AllocateOthers(s.views[x.phase.eni].v6, x.pod, q);
        Changed6(s.views, x.phase.eni, Allocate(s.views[x.phase.eni].v6, x.pod), q);
      }
    case Undo(k) =>
      var x := s.calls[k];
      if x.phase.eni in s.views {
        ReleaseOthers(s.views[x.phase.eni].v4, x.pod, q);
        Changed4(s.views, x.phase.eni, Release(s.views[x.phase.eni].v4, x.pod), q);
      }
    case Give(id, p, stack) =>
      if id in s.views {
        ReleaseOthers(s.views[id].v4, p, q);
        ReleaseOthers(s.views[id].v6, p, q);
        ChangedBoth(s.views, id, Returned(s.views[id], p, stack), q);
      }
    case _ =>
  }

  lemma TablesStay4(views: Views, all: set<Cidr>, id: string, t: Table)
    requires TablesOk(views, all) && id in views && Ok(t) && t.prefixes.Keys <= all
    ensures TablesOk(With4(views, id, t), all)
  {
    forall j, f: Family | j in views
      ensures Ok(TableOf(With4(views, id, t)[j], f)) && TableOf(With4(views, id, t)[j], f).prefixes.Keys <= all
    {
      assert Ok(TableOf(views[j], f)) && TableOf(views[j], f).prefixes.Keys <= all;
    }
  }

  lemma TablesStay6(views: Views, all: set<Cidr>, id: string, t: Table)
    requires TablesOk(views, all) && id in views && Ok(t) && t.prefixes.Keys <= all
    ensures TablesOk(With6(views, id, t), all)
  {
    forall j, f: Family | j in views
      ensures Ok(TableOf(With6(views, id, t)[j], f)) && TableOf(With6(views, id, t)[j], f).prefixes.Keys <= all
    {
      assert Ok(TableOf(views[j], f)) && TableOf(views[j], f).prefixes.Keys <= all;
    }
  }

  lemma BothTables(views: Views, all: set<Cidr>, id: string)
    requires TablesOk(views, all) && id in views
    ensures Ok(views[id].v4) && views[id].v4.prefixes.Keys <= all && Ok(views[id].v6) && views[id].v6.prefixes.Keys <= all
  {
    assert Ok(TableOf(views[id], V4)) && TableOf(views[id], V4).prefixes.Keys <= all;
    assert Ok(TableOf(views[id], V6)) && TableOf(views[id], V6).prefixes.Keys <= all;
  }

  lemma Allocated4(views: Views, all: set<Cidr>, id: string, p: Pod)
    requires Universe(all) && TablesOk(views, all) && id in views && HasFree(views[id].v4)
    ensures TablesOk(With4(views, id, Allocate(views[id].v4, p)), all) && p in Allocate(views[id].v4, p).podToPrefix
  {
    BothTables(views, all, id);
    AllocateGives(views[id].v4, all, p);
    TablesStay4(views, all, id, Allocate(views[id].v4, p));
  }

  lemma Allocated6(views: Views, all: set<Cidr>, id: string, p: Pod)
    requires Universe(all) && TablesOk(views, all) && id in views && HasFree(views[id].v6)
    ensures TablesOk(With6(views, id, Allocate(views[id].v6, p)), all) && p in Allocate(views[id].v6, p).podToPrefix
  {
    BothTables(views, all, id);
    AllocateGives(views[id].v6, all, p);
    TablesStay6(views, all, id, Allocate(views[id].v6, p));
  }

  lemma Released4(views: Views, all: set<Cidr>, id: string, p: Pod)
    requires TablesOk(views, all) && id in views
    ensures TablesOk(With4(views, id, Release(views[id].v4, p)), all) && p !in Release(views[id].v4, p).podToPrefix
  {
    BothTables(views, all, id);
    ReleaseTakes(views[id].v4, all, p);
    TablesStay4(views, all, id, Release(views[id].v4, p));
  }

  lemma Released6(views: Views, all: set<Cidr>, id: string, p: Pod)
    requires TablesOk(views, all) && id in views
    ensures TablesOk(With6(views, id, Release(views[id].v6, p)), all)
  {
    BothTables(views, all, id);
    ReleaseTakes(views[id].v6, all, p);
    TablesStay6(views, all, id, Release(views[id].v6, p));
  }

  lemma ReturnedTables(views: Views, all: set<Cidr>, id: string, p: Pod, stack: Stack)
    requires TablesOk(views, all) && id in views
    ensures TablesOk(views[id := Returned(views[id], p, stack)], all)
  {
    var mid := if stack.v4 then With4(views, id, Release(views[id].v4, p)) else views;
    if stack.v4 {
      Released4(views, all, id, p);
    }
    if stack.v6 {
      Released6(mid, all, id, p);
    }
    var end := if stack.v6 then With6(mid, id, Release(mid[id].v6, p)) else mid;
    assert end == views[id := Returned(views[id], p, stack)];
  }

  lemma StepTables(s: State, e: Step, all: set<Cidr>)
    requires Universe(all) && TablesOk(s.views, all) && Enabled(s, e)
    ensures TablesOk(Apply(s, e).views, all)
  {
    match e
    case Take4(k) =>
      if s.calls[k].order[0] in s.views && HasFree(s.views[s.calls[k].order[0]].v4) {
        Allocated4(s.views, all, s.calls[k].order[0], s.calls[k].pod);
      }
    case Take6(k) =>
      if s.calls[k].phase.eni in s.views && HasFree(s.views[s.calls[k].phase.eni].v6) {
        Allocated6(s.views, all, s.calls[k].phase.eni, s.calls[k].pod);
      }
    case Undo(k) =>
      if s.calls[k].phase.eni in s.views {
        Released4(s.views, all, s.calls[k].phase.eni, s.calls[k].pod);
      }
    case Give(id, p, stack) =>
      if id in s.views {
        ReturnedTables(s.views, all, id, p, stack);
      }
    case _ =>
  }

  // The acting call fits its new phase.

  lemma PassedFits(views: Views, x: Call)
    requires CallFits(views, x) && x.phase == Trying && x.order != []
    ensures CallFits(views, Call(x.pod, x.order[1..], Trying))
  {
  }

  lemma Took4Fits(views: Views, x: Call, id: string, t: Table)
    requires CallFits(views, x) && x.phase == Trying && x.order != [] && id in views && x.pod in t.podToPrefix
    ensures CallFits(With4(views, id, t), Call(x.pod, x.order[1..], Holding(id)))
  {
  }

  lemma Took6Fits(views: Views, x: Call, id: string, t: Table)
    requires CallFits(views, x) && x.phase == Holding(id) && x.pod in t.podToPrefix
    ensures CallFits(With6(views, id, t), Call(x.pod, x.order, Won(id)))
  {
  }

  lemma Failed6Fits(views: Views, x: Call, id: string)
    requires CallFits(views, x) && x.phase == Holding(id)
    ensures CallFits(views, Call(x.pod, x.order, Undoing(id)))
  {
  }

  lemma UndoneFits(views: Views, x: Call, id: string, t: Table)
    requires CallFits(views, x) && x.phase == Undoing(id) && x.pod !in t.podToPrefix
    ensures CallFits(With4(views, id, t), Call(x.pod, x.order, Trying))
  {
  }

  lemma ActorFits(s: State, e: Step, all: set<Cidr>)
    requires Universe(all) && TablesOk(s.views, all) && Enabled(s, e) && (e.Take4? || e.Take6? || e.Undo?)
    requires CallFits(s.views, s.calls[e.k])
    ensures CallFits(Apply(s, e).views, Apply(s, e).calls[e.k])
  {
    var x := s.calls[e.k];
    if e.Take4? {
      var id := x.order[0];
      if !s.views[id].unschedulable && HasFree(s.views[id].v4) {
        Allocated4(s.views, all, id, x.pod);
        Took4Fits(s.views, x, id, Allocate(s.views[id].v4, x.pod));
      } else {
        PassedFits(s.views, x);
      }
    } else if e.Take6? {
      var id := x.phase.eni;
      if HasFree(s.views[id].v6) {
        Allocated6(s.views, all, id, x.pod);
        Took6Fits(s.views, x, id, Allocate(s.views[id].v6, x.pod));
      } else {
        Failed6Fits(s.views, x, id);
      }
    } else {
      Released4(s.views, all, x.phase.eni, x.pod);
      UndoneFits(s.views, x, x.phase.eni, Release(s.views[x.phase.eni].v4, x.pod));
    }
  }

  lemma StayerFits(was: Views, now: Views, x: Call)
    requires CallFits(was, x) && SameOnAll(was, now, x.pod)
    ensures CallFits(now, x)
  {
    forall id | id in now
      ensures (x.pod in now[id].v4.podToPrefix <==> Has4(x, id)) && (x.pod in now[id].v6.podToPrefix <==> x.phase == Won(id))
    {
      assert SameFor(was[id].v4, now[id].v4, x.pod) && SameFor(was[id].v6, now[id].v6, x.pod);
    }
  }

  lemma BeginFits(views: Views, p: Pod, order: seq<string>)
    requires HoldsNowhere(views, p) && forall i :: 0 <= i < |order| ==> order[i] in views
    ensures CallFits(views, Call(p, order, Trying))
  {
  }

  lemma QuitFits(views: Views, x: Call)
    requires CallFits(views, x) && x.phase == Trying
    ensures CallFits(views, Call(x.pod, [], Lost))
  {
  }

  /** Each call that is there after a step fits. */
  lemma OneFits(s: State, e: Step, all: set<Cidr>, k: nat)
    requires Universe(all) && Fits(s, all) && Enabled(s, e) && k in Apply(s, e).calls
    ensures CallFits(Apply(s, e).views, Apply(s, e).calls[k])
  {
    if e.Begin? && e.k == k {
      BeginFits(s.views, e.pod, e.order);
    } else if e.Quit? && e.k == k {
      QuitFits(s.views, s.calls[k]);
    } else if (e.Take4? || e.Take6? || e.Undo?) && e.k == k {
      ActorFits(s, e, all);
    } else {
      OtherCalls(s, e, k);
      StepLeavesOthers(s, e, s.calls[k].pod);
      StayerFits(s.views, Apply(s, e).views, s.calls[k]);
    }
  }

  predicate DistinctPods(s: State) {
    forall k, l :: k in s.calls && l in s.calls && k != l ==> s.calls[k].pod != s.calls[l].pod
  }

  lemma OtherCalls(s: State, e: Step, k: nat)
    requires Enabled(s, e) && DistinctPods(s) && k in Apply(s, e).calls && !(!e.Give? && e.k == k)
    ensures k in s.calls && Apply(s, e).calls[k] == s.calls[k] && Actor(s, e) != Some(s.calls[k].pod)
  {
  }

  lemma PodsStayDistinct(s: State, e: Step)
    requires Enabled(s, e) && DistinctPods(s)
    ensures DistinctPods(Apply(s, e))
  {
  }

  lemma StepFits(s: State, e: Step, all: set<Cidr>)
    requires Universe(all) && Fits(s, all) && Enabled(s, e)
    ensures Fits(Apply(s, e), all)
  {
    StepTables(s, e, all);
    PodsStayDistinct(s, e);
    forall k | k in Apply(s, e).calls ensures CallFits(Apply(s, e).views, Apply(s, e).calls[k]) {
      OneFits(s, e, all, k);
    }
  }

  lemma {:induction false} RunFits(s: State, es: seq<Step>, all: set<Cidr>)
    requires Universe(all) && Fits(s, all) && Run(s, es)
    ensures Fits(Exec(s, es), all)
    decreases |es|
  {
    if es != [] {
      StepFits(s, es[0], all);
      RunFits(Apply(s, es[0]), es[1..], all);
    }
  }

  lemma WonHolds(views: Views, all: set<Cidr>, x: Call)
    requires Universe(all) && TablesOk(views, all) && CallFits(views, x) && x.phase.Won?
    ensures AddressOf(views[x.phase.eni].v4, x.pod).Some? && AddressOf(views[x.phase.eni].v6, x.pod).Some?
    ensures forall id :: id in views && id != x.phase.eni ==> HoldsNothing(views[id], x.pod)
  {
    BothTables(views, all, x.phase.eni);
    HeldAddress(views[x.phase.eni].v4, x.pod, all);
    HeldAddress(views[x.phase.eni].v6, x.pod, all);
  }

  /**
   However calls for different pods interleave, with each other and with releases: a call that has won holds an address
   of each family on one ENI and none elsewhere, and a call that has lost holds nothing.
   */
  lemma CallsAreAtomic(views: Views, es: seq<Step>, all: set<Cidr>, k: nat)
    requires Universe(all) && TablesOk(views, all) && Run(State(views, map[]), es)
    requires k in Exec(State(views, map[]), es).calls
    ensures var t := Exec(State(views, map[]), es);
            var x := t.calls[k];
            && TablesOk(t.views, all)
            && (x.phase == Lost ==> HoldsNowhere(t.views, x.pod))
            && (x.phase.Won? ==>
                  && x.phase.eni in t.views
                  && AddressOf(t.views[x.phase.eni].v4, x.pod).Some? && AddressOf(t.views[x.phase.eni].v6, x.pod).Some?
                  && forall id :: id in t.views && id != x.phase.eni ==> HoldsNothing(t.views[id], x.pod))
  {
    RunFits(State(views, map[]), es, all);
    var t := Exec(State(views, map[]), es);
    assert CallFits(t.views, t.calls[k]);
    if t.calls[k].phase.Won? {
      WonHolds(t.views, all, t.calls[k]);
    }
  }

  // Why a call fails.

  /** The ENI cannot serve a pod that holds nothing: it is unschedulable or one of its families is full. */
  ghost predicate Blocked(views: Views, id: string) {
    id in views ==> views[id].unschedulable || !HasFree(views[id].v4) || !HasFree(views[id].v6)
  }

  /** Calls give an IPv4 address back to the ENI only once its IPv6 is full. */
  ghost predicate UndosAreDue(s: State, id: string) {
    id in s.views ==> forall j :: j in s.calls && s.calls[j].phase == Undoing(id) ==> !HasFree(s.views[id].v6)
  }

  /** The ENI is still to come for the call, is the one it is at, or is blocked. */
  ghost predicate PassedIsBlocked(s: State, k: nat, id: string) {
    k in s.calls ==>
      || (s.calls[k].phase != Lost && id in s.calls[k].order)
      || s.calls[k].phase in {Holding(id), Undoing(id), Won(id)}
      || Blocked(s.views, id)
  }

  /** Call `k` goes through the ENI, and no address of the ENI is returned. */
  predicate OnlyTakes(e: Step, k: nat, id: string) {
    && (e.Begin? && e.k == k ==> id in e.order)
    && !(e.Give? && e.eni == id)
  }

  lemma UndosStayDue(s: State, e: Step, k: nat, id: string)
    requires Enabled(s, e) && OnlyTakes(e, k, id) && UndosAreDue(s, id)
    ensures UndosAreDue(Apply(s, e), id)
  {
  }

  lemma BlockedStays(s: State, e: Step, k: nat, id: string)
    requires Enabled(s, e) && OnlyTakes(e, k, id) && UndosAreDue(s, id) && Blocked(s.views, id)
    ensures Blocked(Apply(s, e).views, id)
  {
  }

  predicate StepOf(e: Step, k: nat) {
    !e.Give? && e.k == k
  }

  lemma OwnStepPasses(s: State, e: Step, k: nat, id: string)
    requires Enabled(s, e) && StepOf(e, k) && OnlyTakes(e, k, id)
    requires UndosAreDue(s, id) && PassedIsBlocked(s, k, id) && !Blocked(s.views, id)
    ensures PassedIsBlocked(Apply(s, e), k, id)
  {
  }

  lemma OthersLeaveCall(s: State, e: Step, k: nat)
    requires Enabled(s, e) && !StepOf(e, k)
    ensures (k in Apply(s, e).calls <==> k in s.calls) && (k in s.calls ==> Apply(s, e).calls[k] == s.calls[k])
  {
  }

  lemma StepPasses(s: State, e: Step, k: nat, id: string)
    requires Enabled(s, e) && OnlyTakes(e, k, id) && UndosAreDue(s, id) && PassedIsBlocked(s, k, id)
    ensures PassedIsBlocked(Apply(s, e), k, id)
  {
    if Blocked(s.views, id) {
      BlockedStays(s, e, k, id);
    } else if StepOf(e, k) {
      OwnStepPasses(s, e, k, id);
    } else {
      OthersLeaveCall(s, e, k);
    }
  }

  lemma {:induction false} RunPasses(s: State, es: seq<Step>, k: nat, id: string)
    requires Run(s, es) && forall i :: 0 <= i < |es| ==> OnlyTakes(es[i], k, id)
    requires UndosAreDue(s, id) && PassedIsBlocked(s, k, id)
    ensures PassedIsBlocked(Exec(s, es), k, id)
    decreases |es|
  {
    if es != [] {
      UndosStayDue(s, es[0], k, id);
      StepPasses(s, es[0], k, id);
      RunPasses(Apply(s, es[0]), es[1..], k, id);
    }
  }

  /**
   However calls interleave: when a call has lost, an ENI it went through cannot serve a pod that holds nothing, unless
   an address of that ENI has been returned. Other calls that gave IPv4 addresses back there do not matter.
   */
  lemma LostCallMeansFull(views: Views, es: seq<Step>, k: nat, id: string)
    requires Run(State(views, map[]), es) && forall i :: 0 <= i < |es| ==> OnlyTakes(es[i], k, id)
    requires k in Exec(State(views, map[]), es).calls && Exec(State(views, map[]), es).calls[k].phase == Lost
    ensures var t := Exec(State(views, map[]), es).views;
            id in t ==> t[id].unschedulable || !HasFree(t[id].v4) || !HasFree(t[id].v6)
  {
    RunPasses(State(views, map[]), es, k, id);
  }
}
