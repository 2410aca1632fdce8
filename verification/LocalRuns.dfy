/** Whole runs of the pool: from any start, through any legal sequence of events. */
module LocalRuns {
  import opened Util
  import opened LocalPool
  import opened LocalOwnership

  /** Nothing is queued, running or in flight. */
  predicate Blank(s: Pool) {
    && s.v4.allocating == s.v4.danging == s.v6.allocating == s.v6.danging == []
    && s.v4.asked == s.v6.asked == 0
    && s.v4.collected == s.v6.collected == {}
    && s.workers == map[] && s.commits == map[] && s.cancelled == {}
    && s.alloc == AllocIdle && s.dispose == DisposeIdle
  }

  /** A pool nothing runs on yet: fresh without an ENI, or loaded with one and its recorded owners. */
  predicate Start(s: Pool) {
    && (s.v4.enabled || s.v6.enabled)
    && Blank(s) && FamSafe(s.v4) && FamSafe(s.v6)
    && if s.eni.Some? then s.status == InUse else s.status == Init && s.v4.ips == map[] && s.v6.ips == map[]
  }

  lemma {:induction false} RunSafe(c: Config, s: Pool, es: seq<Event>)
    requires Safe(s) && Legal(c, s, es)
    ensures Possible(c, s, es) && Safe(Exec(c, s, es))
    decreases |es|
  {
    if es != [] {
      StepSafe(c, s, es[0]);
      RunSafe(c, Apply(c, s, es[0]), es[1..]);
    }
  }

  /** A run can be cut before its last event. */
  lemma {:induction false} LegalAppend(c: Config, s: Pool, es: seq<Event>, e: Event)
    requires Legal(c, s, es + [e])
    ensures Legal(c, s, es) && Possible(c, s, es) && Possible(c, s, es + [e])
    ensures Enabled(c, Exec(c, s, es), e) && Disciplined(Exec(c, s, es), e)
    ensures Exec(c, s, es + [e]) == Apply(c, Exec(c, s, es), e)
    decreases |es|
  {
    if es == [] {
      assert es + [e] == [e];
    } else {
      assert (es + [e])[1..] == es[1..] + [e];
      LegalAppend(c, Apply(c, s, es[0]), es[1..], e);
    }
  }

  /** An address one pod owns before a step and some pod owns after it has the same owner. */
  predicate NoHandover(before: IPSet, after: IPSet) {
    forall a :: a in before && a in after && before[a].InUse() && after[a].InUse() ==> after[a].pod == before[a].pod
  }

  lemma CommitFindsEni(c: Config, s: Pool, e: Event)
    requires Safe(s) && Enabled(c, s, e) && (e.CommitDirect? || e.WorkerCommit?)
    ensures s.eni.Some?
  {
    if e.CommitDirect? {
      PendingOwnsSome(s, e.req);
    }
  }

  lemma KeptIsNoHandover(before: IPSet, after: IPSet, actor: PodId)
    requires OwnersKept(before, after, actor)
    ensures NoHandover(before, after)
  {
  }

  /** What a step says about owners: the addresses it takes from them, those it gives, and to whom. */
  predicate StepKeepsOwners(s: Pool, t: Pool, e: Event) {
    && NoHandover(s.v4.ips, t.v4.ips) && NoHandover(s.v6.ips, t.v6.ips)
    && OwnersGained(s.v4.ips, t.v4.ips, EventActor(s, e)) && OwnersGained(s.v6.ips, t.v6.ips, EventActor(s, e))
    && (!e.DeleteOk? ==> OwnersKept(s.v4.ips, t.v4.ips, EventActor(s, e))
                         && OwnersKept(s.v6.ips, t.v6.ips, EventActor(s, e)))
  }

  lemma StepOwnership(c: Config, s: Pool, e: Event)
    requires Safe(s) && Enabled(c, s, e) && Disciplined(s, e)
    ensures StepKeepsOwners(s, Apply(c, s, e), e)
  {
    FamiliesStaySafe(c, s, e);
    if e.DeleteOk? {
      EmptySetsStay(c, s, e);
    } else {
      KeptIsNoHandover(s.v4.ips, Apply(c, s, e).v4.ips, EventActor(s, e));
      KeptIsNoHandover(s.v6.ips, Apply(c, s, e).v6.ips, EventActor(s, e));
    }
  }

  lemma StartSafe(s: Pool)
    requires Start(s)
    ensures Safe(s)
  {
  }

  lemma StepResult(c: Config, s: Pool, e: Event, t: Pool)
    requires Safe(s) && Enabled(c, s, e) && Disciplined(s, e) && t == Apply(c, s, e)
    ensures StepKeepsOwners(s, t, e) && Safe(t)
    ensures e.CommitDirect? || e.WorkerCommit? ==> s.eni.Some?
  {
    StepSafe(c, s, e);
    StepOwnership(c, s, e);
    if e.CommitDirect? || e.WorkerCommit? {
      CommitFindsEni(c, s, e);
    }
  }

  /**
   Every step of every run: an owned address never passes straight to another pod; it is given up only by
   its owner's own request or with its whole ENI; an address that gains an owner was Valid and free, and goes to
   the pod that the step acts for; no pod owns two addresses of a family; a Deleting address, in particular one
   an unassign call holds, is owned by nobody; and a commit always finds its ENI.
   */
  lemma OwnershipOverRuns(c: Config, s0: Pool, es: seq<Event>, e: Event)
    requires Start(s0) && Legal(c, s0, es + [e])
    ensures Possible(c, s0, es) && Possible(c, s0, es + [e])
    ensures var s, t := Exec(c, s0, es), Exec(c, s0, es + [e]);
            && StepKeepsOwners(s, t, e)
            && OnePerPod(t.v4.ips) && OnePerPod(t.v6.ips)
            && DeletingUnowned(t.v4) && DeletingUnowned(t.v6)
            && (e.CommitDirect? || e.WorkerCommit? ==> s.eni.Some?)
            && (t.eni.None? ==> t.v4.ips == map[] && t.v6.ips == map[])
  {
    StartSafe(s0);
    LegalAppend(c, s0, es, e);
    RunSafe(c, s0, es);
    StepResult(c, Exec(c, s0, es), e, Exec(c, s0, es + [e]));
  }

  // A release that overtakes the pod's own pending commit.

  predicate SomeOwnedDeleting(ips: IPSet) {
    exists a :: a in ips && ips[a].status == IpDeleting && ips[a].InUse()
  }

  /** A disciplined run that leaves a pod with a Deleting address. */
  predicate GivesDeleting(c: Config, s: Pool, es: seq<Event>) {
    && Legal(c, s, es) && Possible(c, s, es)
    && (SomeOwnedDeleting(Exec(c, s, es).v4.ips) || SomeOwnedDeleting(Exec(c, s, es).v6.ips))
  }

  predicate NotPrimary(ips: IPSet, at: Option<Addr>) {
    at.Some? && at.value in ips ==> !ips[at.value].primary
  }

  lemma LegalTwo(c: Config, s: Pool, e: Event, f: Event)
    requires Enabled(c, s, e) && Disciplined(s, e)
    requires Enabled(c, Apply(c, s, e), f) && Disciplined(Apply(c, s, e), f)
    ensures Legal(c, s, [e, f]) && Possible(c, s, [e, f]) && Exec(c, s, [e, f]) == Apply(c, Apply(c, s, e), f)
  {
    var t := Apply(c, s, e);
    var u := Apply(c, t, f);
    var none: seq<Event> := [];
    assert Legal(c, u, none) && Possible(c, u, none) && Exec(c, u, none) == u;
    assert [f][1..] == none;
    assert Legal(c, t, [f]) && Possible(c, t, [f]) && Exec(c, t, [f]) == u;
    assert [e, f][1..] == [f];
  }

  /** A freed address is disposed of, and then comes the commit. */
  lemma CommitAfterDispose(ips: IPSet, pod: PodId, a: Addr)
    requires pod != NO_POD && Owns(ips, pod, a) && !ips[a].primary
    ensures var freed := FreeIps(ips, Some(a), pod);
            && a in freed && !freed[a].InUse() && !freed[a].primary
            && SomeOwnedDeleting(CommitIps(RetireIps(freed, {a}), Some(a), pod, true))
  {
    var last := CommitIps(RetireIps(FreeIps(ips, Some(a), pod), {a}), Some(a), pod, true);
    assert last[a].status == IpDeleting && last[a].InUse();
  }

  /** The addresses of a commit that a release frees under it. */
  function Freed(at: Option<Addr>, named: Option<Addr>): set<Addr> {
    if at.Some? && at == named then {at.value} else {}
  }

  lemma OverrunFamily(f: Family, pod: PodId, at: Option<Addr>, named: Option<Addr>)
    requires pod != NO_POD && CommitHolds(f, pod, at) && NotPrimary(f.ips, named)
    ensures var freed := FreeIps(f.ips, named, pod);
            && (forall a :: a in Freed(at, named) ==> a in freed && !freed[a].InUse() && !freed[a].primary)
            && (Freed(at, named) != {} ==> SomeOwnedDeleting(CommitIps(RetireIps(freed, Freed(at, named)), at, pod, true)))
  {
    if at.Some? && at == named {
      CommitAfterDispose(f.ips, pod, at.value);
    }
  }

  lemma DisposeApplied(c: Config, s: Pool, gone4: set<Addr>, gone6: set<Addr>)
    requires Enabled(c, s, DisposeIps(gone4, gone6))
    ensures Apply(c, s, DisposeIps(gone4, gone6))
            == s.(v4 := s.v4.(ips := RetireIps(s.v4.ips, gone4)), v6 := s.v6.(ips := RetireIps(s.v6.ips, gone6)))
  {
  }

  lemma CommitApplied(c: Config, s: Pool, r: Req)
    requires r in s.commits
    ensures var k, t := s.commits[r], Apply(c, s, CommitDirect(r, true));
            t.v4.ips == CommitIps(s.v4.ips, k.a4, k.pod, true) && t.v6.ips == CommitIps(s.v6.ips, k.a6, k.pod, true)
  {
  }

  lemma DisposeThenCommit(c: Config, s: Pool, r: Req, gone4: set<Addr>, gone6: set<Addr>)
    requires Enabled(c, s, DisposeIps(gone4, gone6)) && r in s.commits
    requires var k := s.commits[r];
             || SomeOwnedDeleting(CommitIps(RetireIps(s.v4.ips, gone4), k.a4, k.pod, true))
             || SomeOwnedDeleting(CommitIps(RetireIps(s.v6.ips, gone6), k.a6, k.pod, true))
    ensures GivesDeleting(c, s, [DisposeIps(gone4, gone6), CommitDirect(r, true)])
  {
    DisposeApplied(c, s, gone4, gone6);
    CommitApplied(c, Apply(c, s, DisposeIps(gone4, gone6)), r);
    LegalTwo(c, s, DisposeIps(gone4, gone6), CommitDirect(r, true));
  }

  lemma PendingInUse(s: Pool, r: Req)
    requires Safe(s) && r in s.commits && s.eni.Some?
    ensures s.status == InUse && s.commits[r].pod != NO_POD
    ensures CommitHolds(s.v4, s.commits[r].pod, s.commits[r].a4) && CommitHolds(s.v6, s.commits[r].pod, s.commits[r].a6)
  {
  }

  /** Disposing of what a release has freed under a pending commit, and then that commit. */
  lemma OverrunIsLegal(c: Config, s: Pool, e: Event, r: Req)
    requires Safe(s) && e.ReleasePod? && Enabled(c, s, e) && NotPrimary(s.v4.ips, e.a4) && NotPrimary(s.v6.ips, e.a6)
    requires r in s.commits && s.commits[r].pod == e.pod && Reports(s.commits[r], e.a4, e.a6)
    ensures exists later :: GivesDeleting(c, Apply(c, s, e), later)
  {
    var k := s.commits[r];
    var t := Apply(c, s, e);
    ReleaseApplied(c, s, e);
    PendingInUse(s, r);
    OverrunFamily(s.v4, k.pod, k.a4, e.a4);
    OverrunFamily(s.v6, k.pod, k.a6, e.a6);
    DisposeThenCommit(c, t, r, Freed(k.a4, e.a4), Freed(k.a6, e.a6));
  }

  /**
   Disciplined runs after a release of addresses other than the primary one can leave a pod with a Deleting address
   if and only if the release frees an address that a pending commit of its pod is about to report.
   */
  lemma ReleaseHarmsIff(c: Config, s: Pool, e: Event)
    requires Safe(s) && e.ReleasePod? && Enabled(c, s, e) && NotPrimary(s.v4.ips, e.a4) && NotPrimary(s.v6.ips, e.a6)
    ensures (exists later :: GivesDeleting(c, Apply(c, s, e), later))
            <==> FreesPending(s, e.pod, e.a4, e.a6)
  {
    if FreesPending(s, e.pod, e.a4, e.a6) {
      var r :| r in s.commits && s.commits[r].pod == e.pod && Reports(s.commits[r], e.a4, e.a6);
      OverrunIsLegal(c, s, e, r);
    } else {
      StepSafe(c, s, e);
      forall later | Legal(c, Apply(c, s, e), later) ensures !GivesDeleting(c, Apply(c, s, e), later) {
        RunSafe(c, Apply(c, s, e), later);
      }
    }
  }
}
