/**
 The address pool of one elastic network interface (ENI), pkg/eni/local.go and pkg/eni/types.go, as
 a state machine. Everything the pool does between taking and dropping its lock is one event. A
 factory (cloud) call is two events, because the lock is dropped while it is in flight: one that
 starts it and one that handles its answer.

 The two address families behave alike, so the state of one is a `Family`, and an event acts on each
 family through a `FamOp`.
 */
module LocalPool {
  import opened Util

  type Addr = nat
  type PodId = string
  type Req = nat

  const NO_POD: PodId := ""

  datatype IpStatus = IpInit | IpValid | IpInvalid | IpDeleting

  datatype IP = IP(primary: bool, pod: PodId, status: IpStatus) {
    predicate InUse() { pod != NO_POD }

    predicate Allocatable() { status == IpValid && !InUse() }

    function Allocate(p: PodId): IP { this.(pod := p) }

    function Release(p: PodId): IP { if pod != p then this else this.(pod := NO_POD) }

    function Dispose(): IP { if primary then this else this.(status := IpDeleting) }
  }

  type IPSet = map<Addr, IP>

  predicate Owns(ips: IPSet, pod: PodId, a: Addr) {
    a in ips && ips[a].pod == pod
  }

  predicate OwnsSome(ips: IPSet, pod: PodId) {
    exists a :: a in ips && ips[a].pod == pod
  }

  /** `a` may be what PeekAvailable returns: the pod's own address if it has one, else any allocatable one. */
  predicate Peeks(ips: IPSet, pod: PodId, a: Addr) {
    a in ips && if pod != NO_POD && OwnsSome(ips, pod) then ips[a].pod == pod else ips[a].Allocatable()
  }

  predicate PeeksNone(ips: IPSet, pod: PodId) {
    forall a :: a in ips ==> !Peeks(ips, pod, a)
  }

  function OwnedSet(ips: IPSet): set<Addr> {
    set a | a in ips && ips[a].InUse()
  }

  function IdleSet(ips: IPSet): set<Addr> {
    set a | a in ips && !ips[a].InUse()
  }

  function DeletingSet(ips: IPSet): set<Addr> {
    set a | a in ips && ips[a].status == IpDeleting
  }

  function KeptSet(ips: IPSet): set<Addr> {
    set a | a in ips && ips[a].status != IpDeleting
  }

  /** One address family: its addresses, its two job queues, and what its factory calls in flight carry. */
  datatype Family = Family(
    enabled: bool,
    ips: IPSet,
    allocating: seq<Req>,   // jobs no address has been fetched for
    danging: seq<Req>,      // jobs an address has been fetched for, not yet picked up
    asked: nat,             // addresses the assign or create call in flight asked for
    collected: set<Addr>    // addresses handed to the unassign call in flight
  )

  datatype FamOp =
    | Keep
    | Prune
    | Own(pick: Option<Addr>, pod: PodId)
    | CommitAt(at: Option<Addr>, pod: PodId, sent: bool)
    | Join(req: Req)
    | Leave(req: Req)
    | Take(pick: Option<Addr>, pod: PodId, sent: bool, req: Req)
    | Free(at: Option<Addr>, pod: PodId)
    | Reconcile(remote: set<Addr>)
    | Retire(gone: set<Addr>)
    | Ask(count: nat)
    | Answer(pop: nat, good: set<Addr>, primaryIp: Option<Addr>)
    | Refuse(bad: set<Addr>)
    | Abandon
    | Wipe
    | Collect(batch: set<Addr>)
    | Unassigned(ok: bool)

  function CommitIps(ips: IPSet, at: Option<Addr>, pod: PodId, sent: bool): IPSet {
    if at.Some? && at.value in ips then
      var ip := ips[at.value].Allocate(pod);
      ips[at.value := if sent then ip else ip.Release(pod)]
    else ips
  }

  function FreeIps(ips: IPSet, at: Option<Addr>, pod: PodId): IPSet {
    if at.Some? && at.value in ips then ips[at.value := ips[at.value].Release(pod)] else ips
  }

  /** syncIPLocked: a Valid address the remote side no longer lists becomes Invalid, owner kept. */
  function ReconcileIps(ips: IPSet, remote: set<Addr>): IPSet {
    map a | a in ips :: if ips[a].status == IpValid && a !in remote then ips[a].(status := IpInvalid) else ips[a]
  }

  function RetireIps(ips: IPSet, gone: set<Addr>): IPSet {
    map a | a in ips :: if a in gone then ips[a].Dispose() else ips[a]
  }

  function PutIps(ips: IPSet, added: set<Addr>, status: IpStatus, primaryIp: Option<Addr>): IPSet {
    map a | a in ips.Keys + added :: if a in added then IP(primaryIp == Some(a), NO_POD, status) else ips[a]
  }

  /** switchIPv4/6: a finished job still waiting hands its place to the first live job already served. */
  function Switch(f: Family, cancelled: set<Req>, req: Req): Family {
    if req !in f.allocating then f
    else
      var rest := Drop(f.allocating, {req});
      var live := Drop(f.danging, cancelled);
      if live == [] then f.(allocating := rest, danging := live)
      else f.(allocating := rest + [live[0]], danging := live[1..])
  }

  /** Split: an index outside the slice splits off everything. */
  function SplitAt<T>(q: seq<T>, index: int): (seq<T>, seq<T>) {
    if index < 0 || index > |q| then (q, []) else (q[..index], q[index..])
  }

  function Pop(f: Family, count: nat): Family {
    var (first, second) := SplitAt(f.allocating, count);
    f.(danging := f.danging + first, allocating := second)
  }

  /** A factory call brought `good`: as many jobs have been served. */
  function Answered(f: Family, pop: nat, good: set<Addr>, primaryIp: Option<Addr>): Family {
    Pop(f, pop).(ips := PutIps(f.ips, good, IpValid, primaryIp), asked := 0)
  }

  /** A factory call failed, leaving `bad` behind to be unassigned. */
  function Rejected(f: Family, bad: set<Addr>): Family {
    f.(ips := PutIps(f.ips, bad, IpDeleting, None), asked := 0)
  }

  /** An unassign call answered. */
  function Shed(f: Family, ok: bool): Family {
    f.(ips := if ok then f.ips - f.collected else f.ips, collected := {})
  }

  function ApplyFam(f: Family, cancelled: set<Req>, op: FamOp): Family {
    match op
    case Keep => f
    case Prune => f.(allocating := Drop(f.allocating, cancelled))
    case Own(pick, pod) => f.(ips := CommitIps(f.ips, pick, pod, true))
    case CommitAt(at, pod, sent) => f.(ips := CommitIps(f.ips, at, pod, sent))
    case Join(req) => f.(allocating := Drop(f.allocating, cancelled) + [req])
    case Leave(req) => Switch(f, cancelled, req)
    case Take(pick, pod, sent, req) => Switch(f.(ips := CommitIps(f.ips, pick, pod, sent)), cancelled, req)
    case Free(at, pod) => f.(ips := FreeIps(f.ips, at, pod))
    case Reconcile(remote) => f.(ips := ReconcileIps(f.ips, remote))
    case Retire(gone) => f.(ips := RetireIps(f.ips, gone))
    case Ask(count) => f.(allocating := Drop(f.allocating, cancelled), asked := count)
    case Answer(pop, good, primaryIp) => Answered(f, pop, good, primaryIp)
    case Refuse(bad) => Rejected(f, bad)
    case Abandon => f.(asked := 0)
    case Wipe => f.(ips := map[], collected := {})
    case Collect(batch) => f.(collected := batch)
    case Unassigned(ok) => Shed(f, ok)
  }

  datatype EniStatus = Init | Creating | InUse | Deleting

  datatype Eni = Eni(id: nat, trunk: bool)

  /** A running allocWorker goroutine: its pod, whether it only preheats, and the families it queued a job for. */
  datatype Worker = Worker(pod: PodId, noCache: bool, want4: bool, want6: bool)

  /** A commit goroutine started by an Allocate that found its addresses at once. */
  datatype Commit = Commit(pod: PodId, a4: Option<Addr>, a6: Option<Addr>)

  /** Where factoryAllocWorker is. `stale` says the ENI was deleted while the assign call was in flight. */
  datatype AllocCall = AllocIdle | AllocSleeping | CreateCall | Assign4Call(stale: bool) | Assign6Call(stale: bool)

  datatype DisposeCall = DisposeIdle | DeleteCall | UnassignCall

  datatype Config = Config(cap: nat, batch: nat, plainType: bool)

  datatype Pool = Pool(
    v4: Family,
    v6: Family,
    eni: Option<Eni>,
    status: EniStatus,
    workers: map<Req, Worker>,
    cancelled: set<Req>,
    commits: map<Req, Commit>,
    alloc: AllocCall,
    dispose: DisposeCall
  )

  predicate CanDispose(c: Config, s: Pool) {
    s.eni.Some? ==>
      && c.plainType && !s.eni.value.trunk
      && OwnedSet(s.v4.ips) == {} && OwnedSet(s.v6.ips) == {}
      && Drop(s.v4.allocating, s.cancelled) == [] && Drop(s.v6.allocating, s.cancelled) == []
  }

  datatype Event =
    | PruneQueue(family6: bool)
    | Direct(req: Req, pod: PodId, a4: Option<Addr>, a6: Option<Addr>)
    | Enqueue(req: Req, pod: PodId, noCache: bool, want4: bool, want6: bool)
    | CommitDirect(req: Req, sent: bool)
    | WorkerCommit(req: Req, a4: Option<Addr>, a6: Option<Addr>, sent: bool)
    | WorkerStop(req: Req)
    | ReleasePod(pod: PodId, a4: Option<Addr>, a6: Option<Addr>)
    | SyncRemote(remote4: set<Addr>, remote6: set<Addr>)
    | DisposeEni
    | DisposeIps(gone4: set<Addr>, gone6: set<Addr>)
    | FallAsleep
    | WakeCreate
    | WakeAssign
    | CallAborted
    | CreateOk(newEni: Eni, set4: set<Addr>, set6: set<Addr>, primaryIp: Option<Addr>)
    | CreateErr(gotEni: Option<Eni>)
    | Assign4Ok(set4: set<Addr>)
    | Assign4Err(set4: set<Addr>)
    | Assign6Ok(set6: set<Addr>)
    | Assign6Err(set6: set<Addr>)
    | DeleteStart
    | DeleteOk
    | DeleteErr
    | CollectDeleting(batch4: set<Addr>, batch6: set<Addr>)
    | Unassign4Done(ok: bool)
    | Unassign6Done(ok: bool)

  /** What one lookup under PeekAvailable may hand a pod: an address for an enabled family, none otherwise. */
  predicate PickOk(f: Family, pod: PodId, pick: Option<Addr>) {
    if f.enabled then pick.Some? && Peeks(f.ips, pod, pick.value) else pick.None?
  }

  /** The capacity test of Allocate for a family it must queue a job in, and why it must. */
  predicate WantOk(c: Config, s: Pool, f: Family, pod: PodId, noCache: bool, want: bool) {
    if want then
      && f.enabled
      && (noCache || PeeksNone(f.ips, pod))
      && |f.ips| + |Drop(f.allocating, s.cancelled)| < c.cap
    else
      f.enabled ==> !noCache && !PeeksNone(f.ips, pod)
  }

  function CreateCount4(c: Config, s: Pool): nat {
    if s.v4.enabled then Min(c.batch, Max(|Drop(s.v4.allocating, s.cancelled)|, 1)) else 0
  }

  function AssignCount(c: Config, s: Pool, f: Family): nat {
    Min(c.batch, |Drop(f.allocating, s.cancelled)|)
  }

  /** An IPv6-only pool keeps the jobs a partial answer to its create call did not serve. */
  function CreatePop6(s: Pool, set6: set<Addr>): nat {
    if !s.v4.enabled && s.v6.enabled then |set6| else s.v6.asked
  }

  /** A call answered within its contract: no more than asked for, and only addresses not in the set. */
  predicate AnswerOk(f: Family, got: set<Addr>) {
    |got| <= f.asked && got !! f.ips.Keys
  }

  /** When an event can happen: the tests the code makes, and the factory's contract for a call's answer. */
  predicate Enabled(c: Config, s: Pool, e: Event) {
    match e
    case PruneQueue(_) => true
    case Direct(req, pod, a4, a6) =>
      && s.status != Deleting && req !in s.workers && req !in s.cancelled && req !in s.commits
      && PickOk(s.v4, pod, a4) && PickOk(s.v6, pod, a6)
    case Enqueue(req, pod, noCache, want4, want6) =>
      && s.status != Deleting && req !in s.workers && req !in s.cancelled && req !in s.commits
      && (want4 || want6)
      && WantOk(c, s, s.v4, pod, noCache, want4) && WantOk(c, s, s.v6, pod, noCache, want6)
    case CommitDirect(req, _) => req in s.commits
    case WorkerCommit(req, a4, a6, _) =>
      && req in s.workers && !s.workers[req].noCache
      && PickOk(s.v4, s.workers[req].pod, a4) && PickOk(s.v6, s.workers[req].pod, a6)
    case WorkerStop(req) => req in s.workers
    case ReleasePod(_, _, _) => s.eni.Some?
    case SyncRemote(_, _) => s.eni.Some? && s.status == InUse
    case DisposeEni => s.eni.Some? && s.status == InUse && CanDispose(c, s)
    case DisposeIps(gone4, gone6) =>
      && s.eni.Some? && s.status == InUse
      && (forall a :: a in gone4 ==> a in s.v4.ips && !s.v4.ips[a].InUse() && !s.v4.ips[a].primary)
      && (forall a :: a in gone6 ==> a in s.v6.ips && !s.v6.ips[a].InUse() && !s.v6.ips[a].primary)
    case FallAsleep =>
      && s.alloc == AllocIdle && (s.status == Init || s.status == InUse)
      && (Drop(s.v4.allocating, s.cancelled) != [] || Drop(s.v6.allocating, s.cancelled) != [])
    case WakeCreate => s.alloc == AllocSleeping && s.eni.None?
    case WakeAssign => s.alloc == AllocSleeping && s.eni.Some?
    case CallAborted => s.alloc != AllocIdle && s.alloc != AllocSleeping
    case CreateOk(_, set4, set6, _) =>
      s.alloc == CreateCall && AnswerOk(s.v4, set4) && AnswerOk(s.v6, set6)
    case CreateErr(_) => s.alloc == CreateCall
    case Assign4Ok(set4) => s.alloc == Assign4Call(false) && AnswerOk(s.v4, set4)
    case Assign4Err(set4) => s.alloc.Assign4Call? && AnswerOk(s.v4, set4) && (s.alloc.stale ==> set4 == {})
    case Assign6Ok(set6) => s.alloc == Assign6Call(false) && AnswerOk(s.v6, set6)
    case Assign6Err(set6) => s.alloc.Assign6Call? && AnswerOk(s.v6, set6) && (s.alloc.stale ==> set6 == {})
    case DeleteStart => s.dispose == DisposeIdle && s.eni.Some? && s.status == Deleting && CanDispose(c, s)
    case DeleteOk => s.dispose == DeleteCall
    case DeleteErr => s.dispose == DeleteCall
    case CollectDeleting(batch4, batch6) =>
      && s.dispose == DisposeIdle && s.eni.Some? && s.status != Deleting
      && batch4 <= DeletingSet(s.v4.ips) && batch6 <= DeletingSet(s.v6.ips)
      && |batch4| <= c.batch && |batch6| <= c.batch && (batch4 != {} || batch6 != {})
    case Unassign4Done(_) => s.dispose == UnassignCall && s.v4.collected != {}
    case Unassign6Done(_) => s.dispose == UnassignCall && s.v4.collected == {} && s.v6.collected != {}
  }

  /**
   The caller's discipline (pendingPods, daemon/daemon.go): one outstanding allocation per pod, its commit
   goroutine included, a real pod unless the request only preheats the pool, and no release of an address that
   the pod's own commit goroutine is about to report.
   */
  predicate Disciplined(s: Pool, e: Event) {
    match e
    case Direct(_, pod, _, _) => pod != NO_POD && !Outstanding(s, pod)
    case Enqueue(_, pod, noCache, _, _) => (pod != NO_POD || noCache) && (pod != NO_POD ==> !Outstanding(s, pod))
    case ReleasePod(pod, a4, a6) => !FreesPending(s, pod, a4, a6)
    case _ => true
  }

  predicate CommitPending(s: Pool, pod: PodId) {
    exists r :: r in s.commits && s.commits[r].pod == pod
  }

  /** A pending commit of the pod is about to report one of these addresses. */
  predicate FreesPending(s: Pool, pod: PodId, a4: Option<Addr>, a6: Option<Addr>) {
    exists r :: r in s.commits && s.commits[r].pod == pod && Reports(s.commits[r], a4, a6)
  }

  predicate Reports(k: Commit, a4: Option<Addr>, a6: Option<Addr>) {
    (k.a4.Some? && k.a4 == a4) || (k.a6.Some? && k.a6 == a6)
  }

  predicate Outstanding(s: Pool, pod: PodId) {
    CommitPending(s, pod) || exists r :: r in s.workers && s.workers[r].pod == pod
  }

  function OpOn4(c: Config, s: Pool, e: Event): FamOp
    requires Enabled(c, s, e)
  {
    match e
    case PruneQueue(family6) => if family6 then Keep else Prune
    case Direct(_, pod, a4, _) => Own(a4, pod)
    case Enqueue(req, _, _, want4, _) => if want4 then Join(req) else Keep
    case CommitDirect(req, sent) => CommitAt(s.commits[req].a4, s.commits[req].pod, sent)
    case WorkerCommit(req, a4, _, sent) => Take(a4, s.workers[req].pod, sent, req)
    case WorkerStop(req) => Leave(req)
    case ReleasePod(pod, a4, _) => Free(a4, pod)
    case SyncRemote(remote4, _) => Reconcile(remote4)
    case DisposeEni => Prune
    case DisposeIps(gone4, _) => Retire(gone4)
    case WakeCreate => Ask(CreateCount4(c, s))
    case WakeAssign => Ask(AssignCount(c, s, s.v4))
    case CallAborted => Abandon
    case CreateOk(_, set4, _, primaryIp) => Answer(s.v4.asked, set4, primaryIp)
    case CreateErr(_) => Abandon
    case Assign4Ok(set4) => Answer(|set4|, set4, None)
    case Assign4Err(set4) => Refuse(set4)
    case DeleteOk => Wipe
    case CollectDeleting(batch4, _) => Collect(batch4)
    case Unassign4Done(ok) => Unassigned(ok)
    case _ => Keep
  }

  function OpOn6(c: Config, s: Pool, e: Event): FamOp
    requires Enabled(c, s, e)
  {
    match e
    case PruneQueue(family6) => if family6 then Prune else Keep
    case Direct(_, pod, _, a6) => Own(a6, pod)
    case Enqueue(req, _, _, _, want6) => if want6 then Join(req) else Keep
    case CommitDirect(req, sent) => CommitAt(s.commits[req].a6, s.commits[req].pod, sent)
    case WorkerCommit(req, _, a6, sent) => Take(a6, s.workers[req].pod, sent, req)
    case WorkerStop(req) => Leave(req)
    case ReleasePod(pod, _, a6) => Free(a6, pod)
    case SyncRemote(_, remote6) => Reconcile(remote6)
    case DisposeEni => Prune
    case DisposeIps(_, gone6) => Retire(gone6)
    case WakeCreate => Ask(AssignCount(c, s, s.v6))
    case WakeAssign => Ask(AssignCount(c, s, s.v6))
    case CallAborted => Abandon
    case CreateOk(_, _, set6, _) =>
      Answer(CreatePop6(s, set6), set6, None)
    case CreateErr(_) => Abandon
    case Assign4Err(_) => Abandon
    case Assign6Ok(set6) => Answer(|set6|, set6, None)
    case Assign6Err(set6) => Refuse(set6)
    case DeleteOk => Wipe
    case CollectDeleting(_, batch6) => Collect(batch6)
    case Unassign6Done(ok) => Unassigned(ok)
    case _ => Keep
  }

  /** The preheating jobs of a queue, whose workers are told to stop once an address was fetched for them. */
  function Preheating(workers: map<Req, Worker>, q: seq<Req>): set<Req> {
    set r | r in q && r in workers && workers[r].noCache
  }

  /** The requests whose worker context is cancelled after an event. */
  function NowCancelled(c: Config, s: Pool, e: Event): set<Req>
    requires Enabled(c, s, e)
  {
    match e
    case WorkerCommit(req, _, _, _) => s.cancelled + {req}
    case WorkerStop(req) => s.cancelled + {req}
    case CreateOk(_, _, _, _) =>
      s.cancelled
      + Preheating(s.workers, ApplyFam(s.v4, s.cancelled, OpOn4(c, s, e)).danging)
      + Preheating(s.workers, ApplyFam(s.v6, s.cancelled, OpOn6(c, s, e)).danging)
    case Assign4Ok(_) => s.cancelled + Preheating(s.workers, ApplyFam(s.v4, s.cancelled, OpOn4(c, s, e)).danging)
    case Assign6Ok(_) => s.cancelled + Preheating(s.workers, ApplyFam(s.v6, s.cancelled, OpOn6(c, s, e)).danging)
    case _ => s.cancelled
  }

  /** One event's effect on everything but the two families and the cancelled requests. */
  function ApplyRest(c: Config, s: Pool, e: Event): Pool
    requires Enabled(c, s, e)
  {
    match e
    case Direct(req, pod, a4, a6) => s.(commits := s.commits[req := Commit(pod, a4, a6)])
    case Enqueue(req, pod, noCache, want4, want6) =>
      s.(workers := s.workers[req := Worker(pod, noCache, want4, want6)])
    case CommitDirect(req, _) => s.(commits := s.commits - {req})
    case WorkerCommit(req, _, _, _) => s.(workers := s.workers - {req})
    case WorkerStop(req) => s.(workers := s.workers - {req})
    case DisposeEni => s.(status := Deleting)
    case FallAsleep => s.(alloc := AllocSleeping)
    case WakeCreate => s.(alloc := CreateCall, status := Creating)
    case WakeAssign =>
      s.(alloc := if AssignCount(c, s, s.v4) > 0 then Assign4Call(false)
                  else if AssignCount(c, s, s.v6) > 0 then Assign6Call(false) else AllocIdle)
    case CallAborted => s.(alloc := AllocIdle)
    case CreateOk(newEni, _, _, _) => s.(alloc := AllocIdle, eni := Some(newEni), status := InUse)
    case CreateErr(gotEni) =>
      s.(alloc := AllocIdle, eni := gotEni, status := if gotEni.Some? then Deleting else Init)
    case Assign4Ok(_) => s.(alloc := if s.v6.asked > 0 then Assign6Call(false) else AllocIdle)
    case Assign6Ok(_) => s.(alloc := AllocIdle)
    case Assign4Err(_) => s.(alloc := AllocIdle)
    case Assign6Err(_) => s.(alloc := AllocIdle)
    case DeleteStart => s.(dispose := DeleteCall)
    case DeleteOk =>
      s.(dispose := DisposeIdle, eni := None, status := Init,
         alloc := match s.alloc
                  case Assign4Call(_) => Assign4Call(true)
                  case Assign6Call(_) => Assign6Call(true)
                  case other => other)
    case DeleteErr => s.(dispose := DisposeIdle)
    case CollectDeleting(_, _) => s.(dispose := UnassignCall)
    case Unassign4Done(_) => s.(dispose := if s.v6.collected == {} then DisposeIdle else UnassignCall)
    case Unassign6Done(_) => s.(dispose := DisposeIdle)
    case _ => s
  }

  function Apply(c: Config, s: Pool, e: Event): Pool
    requires Enabled(c, s, e)
  {
    ApplyRest(c, s, e).(
      v4 := ApplyFam(s.v4, s.cancelled, OpOn4(c, s, e)),
      v6 := ApplyFam(s.v6, s.cancelled, OpOn6(c, s, e)),
      cancelled := NowCancelled(c, s, e))
  }

  /** Every event of the run can happen when its turn comes, and the callers keep their discipline. */
  predicate Legal(c: Config, s: Pool, es: seq<Event>)
    decreases |es|
  {
    es != [] ==> Enabled(c, s, es[0]) && Disciplined(s, es[0]) && Legal(c, Apply(c, s, es[0]), es[1..])
  }

  /** As Legal, with callers free to break their discipline. */
  predicate Possible(c: Config, s: Pool, es: seq<Event>)
    decreases |es|
  {
    es != [] ==> Enabled(c, s, es[0]) && Possible(c, Apply(c, s, es[0]), es[1..])
  }

  function Exec(c: Config, s: Pool, es: seq<Event>): Pool
    requires Possible(c, s, es)
    decreases |es|
  {
    if es == [] then s else Exec(c, Apply(c, s, es[0]), es[1..])
  }
}
