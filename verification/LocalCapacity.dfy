/**
 The pool's capacity: addresses that are not on their way out, plus queued jobs, stay within `cap`. The
 queue alone is not enough for that, because jobs leave it while a factory call for them is in flight; the
 invariant counts, per family, the longer of the queue and what the call in flight asked for.
 */
module LocalCapacity {
  import opened Util
  import opened LocalPool
  import opened LocalOwnership
  import opened LocalRuns

  predicate Within(c: Config, f: Family) {
    f.enabled ==> |KeptSet(f.ips)| + Max(|f.allocating|, f.asked) <= c.cap
  }

  predicate CapPre(c: Config, f: Family, cancelled: set<Req>, op: FamOp) {
    match op
    case Join(_) => |f.ips| + |Drop(f.allocating, cancelled)| < c.cap
    case Ask(count) =>
      || count <= |Drop(f.allocating, cancelled)|
      || (f.ips == map[] && count <= Max(|Drop(f.allocating, cancelled)|, 1))
    case Answer(pop, good, _) => |good| <= pop && |good| <= f.asked && good !! f.ips.Keys
    case Refuse(bad) => bad !! f.ips.Keys
    case _ => true
  }

  lemma CommitKeeps(ips: IPSet, at: Option<Addr>, pod: PodId, sent: bool)
    ensures KeptSet(CommitIps(ips, at, pod, sent)) == KeptSet(ips)
    ensures KeptSet(FreeIps(ips, at, pod)) == KeptSet(ips)
  {
  }

  lemma MarkKeeps(ips: IPSet, remote: set<Addr>, gone: set<Addr>)
    ensures KeptSet(ReconcileIps(ips, remote)) == KeptSet(ips)
    ensures |KeptSet(RetireIps(ips, gone))| <= |KeptSet(ips)|
    ensures |KeptSet(ips - gone)| <= |KeptSet(ips)|
  {
    SubsetCard(KeptSet(RetireIps(ips, gone)), KeptSet(ips));
    SubsetCard(KeptSet(ips - gone), KeptSet(ips));
  }

  lemma PutKeeps(ips: IPSet, added: set<Addr>, primaryIp: Option<Addr>)
    requires added !! ips.Keys
    ensures |KeptSet(PutIps(ips, added, IpValid, primaryIp))| == |KeptSet(ips)| + |added|
    ensures KeptSet(PutIps(ips, added, IpDeleting, primaryIp)) == KeptSet(ips)
  {
    assert KeptSet(PutIps(ips, added, IpValid, primaryIp)) == KeptSet(ips) + added;
  }

  lemma SwitchShrinks(f: Family, cancelled: set<Req>, req: Req)
    ensures |Switch(f, cancelled, req).allocating| <= |f.allocating|
  {
    if req in f.allocating {
      DropMemberShrinks(f.allocating, req);
    }
  }

  lemma {:induction false} DropMemberShrinks(q: seq<Req>, req: Req)
    requires req in q
    ensures |Drop(q, {req})| < |q|
  {
    if q[0] == req {
      DropLength(q[1..], {req});
    } else {
      DropMemberShrinks(q[1..], req);
    }
  }

  lemma KeptInSet(ips: IPSet)
    ensures |KeptSet(ips)| <= |ips|
  {
    assert KeptSet(ips) <= ips.Keys;
    SubsetCard(KeptSet(ips), ips.Keys);
  }

  lemma FamStepWithin(c: Config, f: Family, cancelled: set<Req>, op: FamOp)
    requires Within(c, f) && CapPre(c, f, cancelled, op) && (op.Ask? ==> c.cap >= 1)
    ensures Within(c, ApplyFam(f, cancelled, op))
  {
    DropLength(f.allocating, cancelled);
    KeptInSet(f.ips);
    match op
    case Own(pick, pod) => CommitKeeps(f.ips, pick, pod, true);
    case CommitAt(at, pod, sent) => CommitKeeps(f.ips, at, pod, sent);
    case Take(pick, pod, sent, req) =>
      CommitKeeps(f.ips, pick, pod, sent);
      var g := f.(ips := CommitIps(f.ips, pick, pod, sent));
      SwitchShrinks(g, cancelled, req);
      SwitchKeepsIps(g, cancelled, req);
    case Leave(req) =>
      SwitchShrinks(f, cancelled, req);
      SwitchKeepsIps(f, cancelled, req);
    case Free(at, pod) => CommitKeeps(f.ips, at, pod, true);
    case Reconcile(remote) => MarkKeeps(f.ips, remote, {});
    case Retire(gone) => MarkKeeps(f.ips, {}, gone);
    case Answer(_, good, primaryIp) => PutKeeps(f.ips, good, primaryIp);
    case Refuse(bad) => PutKeeps(f.ips, bad, None);
    case Unassigned(_) => MarkKeeps(f.ips, {}, f.collected);
    case _ =>
  }

  lemma CapPreHolds4(c: Config, s: Pool, e: Event)
    requires Safe(s) && Enabled(c, s, e)
    ensures CapPre(c, s.v4, s.cancelled, OpOn4(c, s, e))
  {
  }

  lemma CapPreHolds6(c: Config, s: Pool, e: Event)
    requires Safe(s) && Enabled(c, s, e)
    ensures CapPre(c, s.v6, s.cancelled, OpOn6(c, s, e))
  {
  }

  lemma CapPreHolds(c: Config, s: Pool, e: Event)
    requires Safe(s) && Enabled(c, s, e)
    ensures CapPre(c, s.v4, s.cancelled, OpOn4(c, s, e)) && CapPre(c, s.v6, s.cancelled, OpOn6(c, s, e))
  {
    CapPreHolds4(c, s, e);
    CapPreHolds6(c, s, e);
  }

  /** A pool without capacity queues nothing and so calls for nothing. */
  predicate Roomy(c: Config, s: Pool) {
    s.alloc != AllocIdle || s.v4.allocating != [] || s.v6.allocating != [] ==> c.cap >= 1
  }

  lemma FamStepRoomy(c: Config, f: Family, cancelled: set<Req>, op: FamOp)
    requires CapPre(c, f, cancelled, op)
    ensures ApplyFam(f, cancelled, op).allocating != [] ==> f.allocating != [] || c.cap >= 1
  {
    DropLength(f.allocating, cancelled);
  }

  lemma CallsNeedRoom(c: Config, s: Pool, e: Event)
    requires Enabled(c, s, e) && Roomy(c, s)
    ensures Apply(c, s, e).alloc != AllocIdle ==> c.cap >= 1
    ensures OpOn4(c, s, e).Ask? || OpOn6(c, s, e).Ask? ==> c.cap >= 1
  {
  }

  lemma StepRoomy(c: Config, s: Pool, e: Event)
    requires Safe(s) && Enabled(c, s, e) && Roomy(c, s)
    ensures Roomy(c, Apply(c, s, e))
  {
    CapPreHolds(c, s, e);
    FamStepRoomy(c, s.v4, s.cancelled, OpOn4(c, s, e));
    FamStepRoomy(c, s.v6, s.cancelled, OpOn6(c, s, e));
    CallsNeedRoom(c, s, e);
  }

  lemma {:induction false} RunWithin(c: Config, s: Pool, es: seq<Event>)
    requires Safe(s) && Legal(c, s, es) && Roomy(c, s)
    requires Within(c, s.v4) && Within(c, s.v6)
    ensures Possible(c, s, es) && Within(c, Exec(c, s, es).v4) && Within(c, Exec(c, s, es).v6)
    decreases |es|
  {
    if es != [] {
      CapPreHolds(c, s, es[0]);
      CallsNeedRoom(c, s, es[0]);
      FamStepWithin(c, s.v4, s.cancelled, OpOn4(c, s, es[0]));
      FamStepWithin(c, s.v6, s.cancelled, OpOn6(c, s, es[0]));
      StepSafe(c, s, es[0]);
      StepRoomy(c, s, es[0]);
      RunWithin(c, Apply(c, s, es[0]), es[1..]);
    }
  }

  /**
   Over every run that starts within capacity, an enabled family's addresses that are not Deleting, together
   with its queued jobs or with what its call in flight may still bring, never exceed `cap`.
   */
  lemma CapacityOverRuns(c: Config, s0: Pool, es: seq<Event>)
    requires Start(s0) && Legal(c, s0, es)
    requires s0.v4.enabled ==> |KeptSet(s0.v4.ips)| <= c.cap
    requires s0.v6.enabled ==> |KeptSet(s0.v6.ips)| <= c.cap
    ensures Possible(c, s0, es)
    ensures var t := Exec(c, s0, es);
            && (t.v4.enabled ==> |KeptSet(t.v4.ips)| + |t.v4.allocating| <= c.cap
                                 && |KeptSet(t.v4.ips)| + t.v4.asked <= c.cap)
            && (t.v6.enabled ==> |KeptSet(t.v6.ips)| + |t.v6.allocating| <= c.cap
                                 && |KeptSet(t.v6.ips)| + t.v6.asked <= c.cap)
  {
    RunWithin(c, s0, es);
  }
}
