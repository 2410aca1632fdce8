/**
 Who owns an address of the pool, over every interleaving of its goroutines: an owned address never
 passes straight to another pod, no pod owns two addresses of one family, and an address on its way
 to the unassign call is owned by nobody until it has left the set.
 */
module LocalOwnership {
  import opened Util
  import opened LocalPool

  predicate OnePerPod(ips: IPSet) {
    forall a, b :: a in ips && b in ips && ips[a].InUse() && ips[a].pod == ips[b].pod ==> a == b
  }

  /** No Deleting address is owned, and the unassign call holds Deleting addresses only. */
  predicate DeletingUnowned(f: Family) {
    && (forall a :: a in f.ips && f.ips[a].status == IpDeleting ==> !f.ips[a].InUse())
    && f.collected <= DeletingSet(f.ips)
  }

  predicate FamSafe(f: Family) {
    OnePerPod(f.ips) && DeletingUnowned(f)
  }

  /** What an operation on a family relies on. */
  predicate FamPre(f: Family, op: FamOp) {
    match op
    case Own(pick, pod) => pod != NO_POD && (pick.Some? ==> Peeks(f.ips, pod, pick.value))
    case CommitAt(at, pod, _) => pod != NO_POD && (at.Some? ==> Owns(f.ips, pod, at.value))
    case Take(pick, pod, _, _) => pod != NO_POD && (pick.Some? ==> Peeks(f.ips, pod, pick.value))
    case Retire(gone) => forall a :: a in gone ==> a in f.ips && !f.ips[a].InUse() && !f.ips[a].primary
    case Answer(_, good, _) => good !! f.ips.Keys
    case Refuse(bad) => bad !! f.ips.Keys
    case Collect(batch) => batch <= DeletingSet(f.ips)
    case _ => true
  }

  lemma SwitchKeepsIps(f: Family, cancelled: set<Req>, req: Req)
    ensures Switch(f, cancelled, req).ips == f.ips
    ensures Switch(f, cancelled, req).collected == f.collected
    ensures Switch(f, cancelled, req).asked == f.asked
    ensures Switch(f, cancelled, req).enabled == f.enabled
  {
  }

  /** The pod an operation acts for. */
  function Actor(op: FamOp): PodId {
    match op
    case Own(_, pod) => pod
    case CommitAt(_, pod, _) => pod
    case Take(_, pod, _, _) => pod
    case Free(_, pod) => pod
    case _ => NO_POD
  }

  /** An owned address stays with its owner, or is given up, to nobody, by that owner's own request. */
  predicate OwnersKept(before: IPSet, after: IPSet, actor: PodId) {
    forall a :: a in before && before[a].InUse() ==>
      a in after && (after[a].pod == before[a].pod || (before[a].pod == actor && !after[a].InUse()))
  }

  /** An address that gains an owner was allocatable, and its owner is the pod acted for. */
  predicate OwnersGained(before: IPSet, after: IPSet, actor: PodId) {
    forall a :: a in after && after[a].InUse() && !(a in before && before[a].InUse()) ==>
      a in before && before[a].Allocatable() && after[a].pod == actor
  }

  lemma CommitSafe(f: Family, at: Option<Addr>, pod: PodId, sent: bool)
    requires FamSafe(f) && pod != NO_POD
    requires at.Some? ==> Peeks(f.ips, pod, at.value)
    ensures FamSafe(f.(ips := CommitIps(f.ips, at, pod, sent)))
    ensures OwnersKept(f.ips, CommitIps(f.ips, at, pod, sent), pod)
    ensures OwnersGained(f.ips, CommitIps(f.ips, at, pod, sent), pod)
  {
  }

  lemma ReconcileSafe(f: Family, remote: set<Addr>)
    requires FamSafe(f)
    ensures FamSafe(f.(ips := ReconcileIps(f.ips, remote)))
    ensures OwnersKept(f.ips, ReconcileIps(f.ips, remote), NO_POD)
  {
  }

  lemma RetireSafe(f: Family, gone: set<Addr>)
    requires FamSafe(f) && FamPre(f, Retire(gone))
    ensures FamSafe(f.(ips := RetireIps(f.ips, gone)))
    ensures OwnersKept(f.ips, RetireIps(f.ips, gone), NO_POD)
  {
  }

  lemma PutSafe(f: Family, added: set<Addr>, status: IpStatus, primaryIp: Option<Addr>)
    requires FamSafe(f) && added !! f.ips.Keys
    ensures FamSafe(f.(ips := PutIps(f.ips, added, status, primaryIp)))
    ensures OwnersKept(f.ips, PutIps(f.ips, added, status, primaryIp), NO_POD)
  {
  }

  lemma FreeSafe(f: Family, at: Option<Addr>, pod: PodId)
    requires FamSafe(f)
    ensures FamSafe(f.(ips := FreeIps(f.ips, at, pod)))
    ensures OwnersKept(f.ips, FreeIps(f.ips, at, pod), pod)
  {
  }

  lemma UnassignedSafe(f: Family, ok: bool)
    requires FamSafe(f)
    ensures FamSafe(f.(ips := if ok then f.ips - f.collected else f.ips, collected := {}))
    ensures OwnersKept(f.ips, f.ips - f.collected, NO_POD)
  {
  }

  /** Whatever an operation does to the queues, it keeps the family safe and, short of a wipe, its owners. */
  lemma FamStepSafe(f: Family, cancelled: set<Req>, op: FamOp)
    requires FamSafe(f) && FamPre(f, op)
    ensures FamSafe(ApplyFam(f, cancelled, op))
    ensures !op.Wipe? ==> OwnersKept(f.ips, ApplyFam(f, cancelled, op).ips, Actor(op))
    ensures OwnersGained(f.ips, ApplyFam(f, cancelled, op).ips, Actor(op))
  {
    match op
    case Own(pick, pod) => CommitSafe(f, pick, pod, true);
    case CommitAt(at, pod, sent) => CommitSafe(f, at, pod, sent);
    case Take(pick, pod, sent, req) =>
      CommitSafe(f, pick, pod, sent);
      SwitchKeepsIps(f.(ips := CommitIps(f.ips, pick, pod, sent)), cancelled, req);
    case Leave(req) => SwitchKeepsIps(f, cancelled, req);
    case Reconcile(remote) => ReconcileSafe(f, remote);
    case Retire(gone) => RetireSafe(f, gone);
    case Answer(_, good, primaryIp) => PutSafe(f, good, IpValid, primaryIp);
    case Refuse(bad) => PutSafe(f, bad, IpDeleting, None);
    case Free(at, pod) => FreeSafe(f, at, pod);
    case Unassigned(ok) => UnassignedSafe(f, ok);
    case _ =>
  }

  /** A pending commit goroutine's pod owns the addresses it is about to report, on every enabled family. */
  predicate CommitHolds(f: Family, pod: PodId, at: Option<Addr>) {
    && at.Some? == f.enabled
    && (at.Some? ==> Owns(f.ips, pod, at.value))
  }

  predicate CommitsHold(s: Pool) {
    && (forall r :: r in s.commits ==> s.commits[r].pod != NO_POD
                                       && CommitHolds(s.v4, s.commits[r].pod, s.commits[r].a4)
                                       && CommitHolds(s.v6, s.commits[r].pod, s.commits[r].a6))
    && (forall r, q :: r in s.commits && q in s.commits && s.commits[r].pod == s.commits[q].pod ==> r == q)
    && (forall r, w :: r in s.commits && w in s.workers ==> s.commits[r].pod != s.workers[w].pod)
    && (forall w :: w in s.workers && !s.workers[w].noCache ==> s.workers[w].pod != NO_POD)
  }

  /** How the ENI's status, its presence and the two factory workers' calls fit together. */
  predicate StatusOk(s: Pool) {
    && (s.status == Deleting ==> s.eni.Some?)
    && (s.status == Init || s.status == Creating ==> s.eni.None?)
    && (s.status == InUse ==> s.eni.Some?)
    && (s.alloc == CreateCall ==> s.eni.None?)
    && (s.alloc == Assign4Call(false) || s.alloc == Assign6Call(false) ==> s.eni.Some?)
    && (s.dispose == DeleteCall ==> s.status == Deleting)
    && (s.dispose == UnassignCall ==> s.eni.Some?)
  }

  predicate Phases(s: Pool) {
    && StatusOk(s)
    && (s.eni.None? ==> s.v4.ips == map[] && s.v6.ips == map[])
    && (s.status == Deleting ==> s.commits == map[])
  }

  /** The safety invariant of the pool. */
  predicate Safe(s: Pool) {
    && (s.v4.enabled || s.v6.enabled)
    && FamSafe(s.v4) && FamSafe(s.v6) && CommitsHold(s) && Phases(s)
  }

  lemma PreHolds(c: Config, s: Pool, e: Event)
    requires Safe(s) && Enabled(c, s, e) && Disciplined(s, e)
    ensures FamPre(s.v4, OpOn4(c, s, e)) && FamPre(s.v6, OpOn6(c, s, e))
  {
    if e.CommitDirect? {
      assert s.commits[e.req].pod != NO_POD;
    }
  }

  /** The pod an event acts for, if it acts for one. */
  function EventActor(s: Pool, e: Event): PodId {
    match e
    case Direct(_, pod, _, _) => pod
    case CommitDirect(req, _) => if req in s.commits then s.commits[req].pod else NO_POD
    case WorkerCommit(req, _, _, _) => if req in s.workers then s.workers[req].pod else NO_POD
    case ReleasePod(pod, _, _) => pod
    case _ => NO_POD
  }

  lemma ActorsMatch(c: Config, s: Pool, e: Event)
    requires Enabled(c, s, e)
    ensures Actor(OpOn4(c, s, e)) == EventActor(s, e) && Actor(OpOn6(c, s, e)) == EventActor(s, e)
    ensures OpOn4(c, s, e).Wipe? <==> e.DeleteOk?
    ensures OpOn6(c, s, e).Wipe? <==> e.DeleteOk?
  {
  }

  lemma FamiliesStaySafe(c: Config, s: Pool, e: Event)
    requires Safe(s) && Enabled(c, s, e) && Disciplined(s, e)
    ensures FamSafe(Apply(c, s, e).v4) && FamSafe(Apply(c, s, e).v6)
    ensures !e.DeleteOk? ==> OwnersKept(s.v4.ips, Apply(c, s, e).v4.ips, EventActor(s, e))
    ensures !e.DeleteOk? ==> OwnersKept(s.v6.ips, Apply(c, s, e).v6.ips, EventActor(s, e))
    ensures OwnersGained(s.v4.ips, Apply(c, s, e).v4.ips, EventActor(s, e))
    ensures OwnersGained(s.v6.ips, Apply(c, s, e).v6.ips, EventActor(s, e))
  {
    PreHolds(c, s, e);
    ActorsMatch(c, s, e);
    FamStepSafe(s.v4, s.cancelled, OpOn4(c, s, e));
    FamStepSafe(s.v6, s.cancelled, OpOn6(c, s, e));
  }

  /** Pending commits outlive any step that leaves them, and the pods of workers, alone. */
  lemma CommitsFrame(s: Pool, t: Pool, actor: PodId)
    requires CommitsHold(s)
    requires t.v4.enabled == s.v4.enabled && t.v6.enabled == s.v6.enabled
    requires forall r :: r in t.commits ==> r in s.commits && t.commits[r] == s.commits[r]
    requires forall w :: w in t.workers ==> w in s.workers && t.workers[w] == s.workers[w]
    requires OwnersKept(s.v4.ips, t.v4.ips, actor) && OwnersKept(s.v6.ips, t.v6.ips, actor)
    requires !CommitPending(t, actor)
    ensures CommitsHold(t)
  {
    forall r | r in t.commits
      ensures t.commits[r].pod != NO_POD
      ensures CommitHolds(t.v4, t.commits[r].pod, t.commits[r].a4)
      ensures CommitHolds(t.v6, t.commits[r].pod, t.commits[r].a6)
    {
      assert s.commits[r].pod != actor;
    }
  }

  lemma CommitAdded(s: Pool, t: Pool, r: Req, k: Commit)
    requires CommitsHold(s) && r !in s.commits && k.pod != NO_POD && !Outstanding(s, k.pod)
    requires t.v4.enabled == s.v4.enabled && t.v6.enabled == s.v6.enabled
    requires t.commits == s.commits[r := k] && t.workers == s.workers
    requires OwnersKept(s.v4.ips, t.v4.ips, k.pod) && OwnersKept(s.v6.ips, t.v6.ips, k.pod)
    requires CommitHolds(t.v4, k.pod, k.a4) && CommitHolds(t.v6, k.pod, k.a6)
    ensures CommitsHold(t)
  {
    var u := t.(commits := s.commits);
    assert !CommitPending(u, k.pod);
    CommitsFrame(s, u, k.pod);
  }

  lemma WorkerAdded(s: Pool, t: Pool, r: Req, w: Worker)
    requires CommitsHold(s) && (w.noCache || w.pod != NO_POD) && (w.pod != NO_POD ==> !Outstanding(s, w.pod))
    requires t.v4.enabled == s.v4.enabled && t.v6.enabled == s.v6.enabled
    requires t.commits == s.commits && t.workers == s.workers[r := w]
    requires OwnersKept(s.v4.ips, t.v4.ips, NO_POD) && OwnersKept(s.v6.ips, t.v6.ips, NO_POD)
    ensures CommitsHold(t)
  {
    CommitsFrame(s, t.(workers := s.workers), NO_POD);
  }

  lemma CommittedIsHeld(f: Family, pod: PodId, pick: Option<Addr>)
    requires PickOk(f, pod, pick)
    ensures CommitHolds(f.(ips := CommitIps(f.ips, pick, pod, true)), pod, pick)
  {
  }

  predicate MovesJobsOrCommits(e: Event) {
    e.Direct? || e.Enqueue? || e.CommitDirect? || e.WorkerCommit? || e.WorkerStop?
  }

  lemma EnabledFlagsStay(f: Family, cancelled: set<Req>, op: FamOp)
    ensures ApplyFam(f, cancelled, op).enabled == f.enabled
  {
  }

  lemma OthersLeaveJobsAndCommits(c: Config, s: Pool, e: Event)
    requires Enabled(c, s, e) && !MovesJobsOrCommits(e)
    ensures Apply(c, s, e).commits == s.commits && Apply(c, s, e).workers == s.workers
  {
  }

  lemma FreedIsNotHeld(f: Family, pod: PodId, at: Option<Addr>, freed: Option<Addr>)
    requires pod != NO_POD && CommitHolds(f, pod, at)
    ensures CommitHolds(f.(ips := FreeIps(f.ips, freed, pod)), pod, at) <==> !(at.Some? && at == freed)
  {
  }

  /** A release of one pod is nothing to the pending commit of another. */
  lemma FreedByOther(f: Family, pod: PodId, at: Option<Addr>, freed: Option<Addr>, other: PodId)
    requires pod != NO_POD && CommitHolds(f, pod, at) && other != pod
    ensures CommitHolds(f.(ips := FreeIps(f.ips, freed, other)), pod, at)
  {
  }

  lemma FreedKeepsIff(s: Pool, t: Pool, k: Commit, e: Event)
    requires e.ReleasePod? && k.pod != NO_POD && CommitHolds(s.v4, k.pod, k.a4) && CommitHolds(s.v6, k.pod, k.a6)
    requires t.v4 == s.v4.(ips := FreeIps(s.v4.ips, e.a4, e.pod)) && t.v6 == s.v6.(ips := FreeIps(s.v6.ips, e.a6, e.pod))
    ensures CommitHolds(t.v4, k.pod, k.a4) && CommitHolds(t.v6, k.pod, k.a6) <==> !(k.pod == e.pod && Reports(k, e.a4, e.a6))
  {
    if k.pod == e.pod {
      FreedIsNotHeld(s.v4, k.pod, k.a4, e.a4);
      FreedIsNotHeld(s.v6, k.pod, k.a6, e.a6);
    } else {
      FreedByOther(s.v4, k.pod, k.a4, e.a4, e.pod);
      FreedByOther(s.v6, k.pod, k.a6, e.a6, e.pod);
    }
  }

  lemma ReleaseApplied(c: Config, s: Pool, e: Event)
    requires e.ReleasePod? && Enabled(c, s, e)
    ensures Apply(c, s, e) == s.(v4 := s.v4.(ips := FreeIps(s.v4.ips, e.a4, e.pod)),
                                 v6 := s.v6.(ips := FreeIps(s.v6.ips, e.a6, e.pod)))
  {
  }

  /** A release leaves every pending commit its addresses exactly if it frees none that its pod's commit reports. */
  lemma ReleaseKeepsCommitsIff(c: Config, s: Pool, e: Event)
    requires Safe(s) && e.ReleasePod? && Enabled(c, s, e)
    ensures CommitsHold(Apply(c, s, e)) <==> !FreesPending(s, e.pod, e.a4, e.a6)
  {
    var t := Apply(c, s, e);
    ReleaseApplied(c, s, e);
    forall r | r in s.commits
      ensures CommitHolds(t.v4, s.commits[r].pod, s.commits[r].a4) && CommitHolds(t.v6, s.commits[r].pod, s.commits[r].a6)
              <==> !(s.commits[r].pod == e.pod && Reports(s.commits[r], e.a4, e.a6))
    {
      FreedKeepsIff(s, t, s.commits[r], e);
    }
  }

  lemma RequestsKeepCommits(c: Config, s: Pool, e: Event)
    requires Safe(s) && Enabled(c, s, e) && Disciplined(s, e) && (e.Direct? || e.Enqueue?)
    ensures CommitsHold(Apply(c, s, e))
  {
    var t := Apply(c, s, e);
    FamiliesStaySafe(c, s, e);
    if e.Direct? {
      CommittedIsHeld(s.v4, e.pod, e.a4);
      CommittedIsHeld(s.v6, e.pod, e.a6);
      CommitAdded(s, t, e.req, Commit(e.pod, e.a4, e.a6));
    } else {
      WorkerAdded(s, t, e.req, Worker(e.pod, e.noCache, e.want4, e.want6));
    }
  }

  lemma JobsAndCommitsShrink(c: Config, s: Pool, e: Event)
    requires Enabled(c, s, e) && !e.Direct? && !e.Enqueue?
    ensures var t := Apply(c, s, e);
            && (forall r :: r in t.commits ==> r in s.commits && t.commits[r] == s.commits[r])
            && (forall w :: w in t.workers ==> w in s.workers && t.workers[w] == s.workers[w])
  {
    if !MovesJobsOrCommits(e) {
      OthersLeaveJobsAndCommits(c, s, e);
    }
  }

  lemma CommitsStay(c: Config, s: Pool, e: Event)
    requires Safe(s) && Enabled(c, s, e) && Disciplined(s, e)
    ensures CommitsHold(Apply(c, s, e))
  {
    var t := Apply(c, s, e);
    EnabledFlagsStay(s.v4, s.cancelled, OpOn4(c, s, e));
    EnabledFlagsStay(s.v6, s.cancelled, OpOn6(c, s, e));
    FamiliesStaySafe(c, s, e);
    if e.Direct? || e.Enqueue? {
      RequestsKeepCommits(c, s, e);
    } else if e.ReleasePod? {
      ReleaseKeepsCommitsIff(c, s, e);
    } else if !e.DeleteOk? {
      JobsAndCommitsShrink(c, s, e);
      CommitsFrame(s, t, EventActor(s, e));
    }
  }

  /** An empty set stays empty until a factory call answers. */
  lemma EmptyStays(f: Family, cancelled: set<Req>, op: FamOp)
    requires f.ips == map[] && FamPre(f, op)
    ensures !op.Answer? && !op.Refuse? ==> ApplyFam(f, cancelled, op).ips == map[]
    ensures op.Refuse? && op.bad == {} ==> ApplyFam(f, cancelled, op).ips == map[]
  {
    match op
    case Take(pick, pod, sent, req) =>
      SwitchKeepsIps(f.(ips := CommitIps(f.ips, pick, pod, sent)), cancelled, req);
    case Leave(req) => SwitchKeepsIps(f, cancelled, req);
    case _ =>
  }

  lemma EmptySetsStay(c: Config, s: Pool, e: Event)
    requires Safe(s) && Enabled(c, s, e) && Disciplined(s, e)
    requires Apply(c, s, e).eni.None?
    ensures Apply(c, s, e).v4.ips == map[] && Apply(c, s, e).v6.ips == map[]
  {
    if s.eni.None? {
      PreHolds(c, s, e);
      EmptyStays(s.v4, s.cancelled, OpOn4(c, s, e));
      EmptyStays(s.v6, s.cancelled, OpOn6(c, s, e));
    }
  }

  predicate ByAllocWorker(e: Event) {
    || e.FallAsleep? || e.WakeCreate? || e.WakeAssign? || e.CallAborted? || e.CreateOk? || e.CreateErr?
    || e.Assign4Ok? || e.Assign4Err? || e.Assign6Ok? || e.Assign6Err?
  }

  predicate ByDisposeWorker(e: Event) {
    e.DeleteStart? || e.DeleteOk? || e.DeleteErr? || e.CollectDeleting? || e.Unassign4Done? || e.Unassign6Done?
  }

  lemma AllocStatusFits(c: Config, s: Pool, e: Event)
    requires StatusOk(s) && Enabled(c, s, e) && ByAllocWorker(e)
    ensures StatusOk(ApplyRest(c, s, e))
  {
  }

  lemma DisposeStatusFits(c: Config, s: Pool, e: Event)
    requires StatusOk(s) && Enabled(c, s, e) && ByDisposeWorker(e)
    ensures StatusOk(ApplyRest(c, s, e))
  {
  }

  lemma OtherStatusFits(c: Config, s: Pool, e: Event)
    requires StatusOk(s) && Enabled(c, s, e) && !ByAllocWorker(e) && !ByDisposeWorker(e)
    ensures StatusOk(ApplyRest(c, s, e))
  {
  }

  /** Presence and status of the ENI, and the calls in flight, after a step. */
  lemma StatusFits(c: Config, s: Pool, e: Event)
    requires StatusOk(s) && Enabled(c, s, e)
    ensures StatusOk(ApplyRest(c, s, e))
  {
    if ByAllocWorker(e) {
      AllocStatusFits(c, s, e);
    } else if ByDisposeWorker(e) {
      DisposeStatusFits(c, s, e);
    } else {
      OtherStatusFits(c, s, e);
    }
  }

  lemma PendingOwnsSome(s: Pool, r: Req)
    requires (s.v4.enabled || s.v6.enabled) && CommitsHold(s) && r in s.commits
    ensures OwnedSet(s.v4.ips) != {} || OwnedSet(s.v6.ips) != {}
  {
    var k := s.commits[r];
    if s.v4.enabled {
      assert k.a4.value in OwnedSet(s.v4.ips);
    } else {
      assert k.a6.value in OwnedSet(s.v6.ips);
    }
  }

  /** Every pending commit owns an address, so a pool without owners has none pending. */
  lemma NoOwnersNoCommits(s: Pool)
    requires (s.v4.enabled || s.v6.enabled) && CommitsHold(s)
    requires OwnedSet(s.v4.ips) == {} && OwnedSet(s.v6.ips) == {}
    ensures s.commits == map[]
  {
    forall r ensures r !in s.commits {
      if r in s.commits {
        PendingOwnsSome(s, r);
      }
    }
  }

  lemma NoCommitWhileDeleting(c: Config, s: Pool, e: Event)
    requires Safe(s) && Enabled(c, s, e)
    ensures ApplyRest(c, s, e).status == Deleting ==> ApplyRest(c, s, e).commits == map[]
  {
    if e.DisposeEni? || (e.CreateErr? && s.eni.None?) {
      NoOwnersNoCommits(s);
    }
  }

  /** Every step of a disciplined run keeps the pool safe. */
  lemma StepSafe(c: Config, s: Pool, e: Event)
    requires Safe(s) && Enabled(c, s, e) && Disciplined(s, e)
    ensures Safe(Apply(c, s, e))
  {
    FamiliesStaySafe(c, s, e);
    EnabledFlagsStay(s.v4, s.cancelled, OpOn4(c, s, e));
    EnabledFlagsStay(s.v6, s.cancelled, OpOn6(c, s, e));
    CommitsStay(c, s, e);
    StatusFits(c, s, e);
    NoCommitWhileDeleting(c, s, e);
    if Apply(c, s, e).eni.None? {
      EmptySetsStay(c, s, e);
    }
  }
}
