/**
 The pool as the object it is (pkg/eni/local.go): each method is what one goroutine does between taking and
 dropping the lock, and its contract says which events of the state machine that is. Map order, clocks and
 the factory's answers are arguments or arbitrary choices.
 */
module LocalEni {
  import opened Util
  import opened LocalPool
  import opened LocalOwnership
  import opened LocalRuns
  import opened LocalLoops
  import opened LocalLoad

  datatype Outcome = Refused | Full | Inhibited | Immediate | Waiting

  /** A run of events leads from one state to another. */
  ghost predicate Leads(c: Config, s: Pool, es: seq<Event>, t: Pool) {
    Possible(c, s, es) && t == Exec(c, s, es)
  }

  lemma LeadsOne(c: Config, s: Pool, e: Event)
    requires Enabled(c, s, e)
    ensures Leads(c, s, [e], Apply(c, s, e))
  {
    assert [e][1..] == [];
    assert Possible(c, Apply(c, s, e), []);
  }

  lemma {:induction false} LeadsMore(c: Config, s: Pool, es: seq<Event>, t: Pool, e: Event)
    requires Leads(c, s, es, t) && Enabled(c, t, e)
    ensures Leads(c, s, es + [e], Apply(c, t, e))
    decreases |es|
  {
    if es == [] {
      assert es + [e] == [e];
      LeadsOne(c, s, e);
    } else {
      assert (es + [e])[1..] == es[1..] + [e];
      LeadsMore(c, Apply(c, s, es[0]), es[1..], t, e);
    }
  }

  /** Prunes the queue of one family. */
  function Pruned(s: Pool, family6: bool): Pool {
    if family6 then s.(v6 := s.v6.(allocating := Drop(s.v6.allocating, s.cancelled)))
    else s.(v4 := s.v4.(allocating := Drop(s.v4.allocating, s.cancelled)))
  }

  /** A family an allocation must queue a job for. */
  predicate MustQueue(f: Family, pod: PodId, noCache: bool) {
    f.enabled && (noCache || PeeksNone(f.ips, pod))
  }

  predicate HasRoom(c: Config, f: Family, cancelled: set<Req>) {
    |f.ips| + |Drop(f.allocating, cancelled)| < c.cap
  }

  /** The block of Allocate that looks at one family: peek, or ask whether another job fits. */
  method Probe(c: Config, f: Family, cancelled: set<Req>, pod: PodId, noCache: bool)
    returns (g: Family, full: bool, need: bool, pick: Option<Addr>)
    ensures MustQueue(f, pod, noCache) ==>
              && pick.None? && g == f.(allocating := Drop(f.allocating, cancelled))
              && need == HasRoom(c, f, cancelled) && full == !need
    ensures !MustQueue(f, pod, noCache) ==> g == f && !full && !need && PickOk(f, pod, pick)
  {
    g, full, need, pick := f, false, false, None;
    if f.enabled {
      if !noCache {
        pick := PeekAvailable(f.ips, pod);
        if pick.Some? {
          return;
        }
      }
      var live := Live(f.allocating, cancelled);
      g := f.(allocating := live);
      full := |f.ips| + |live| >= c.cap;
      need := !full;
    }
  }

  predicate Mismatch(eni: Option<Eni>, wantEni: Option<nat>) {
    wantEni.Some? && eni.Some? && eni.value.id != wantEni.value
  }

  /** The answer Allocate gives, decided before anything changes. */
  function AllocateOutcome(c: Config, s: Pool, pod: PodId, noCache: bool, wantEni: Option<nat>, inhibited: bool): Outcome {
    var must4, must6 := MustQueue(s.v4, pod, noCache), MustQueue(s.v6, pod, noCache);
    if s.status == Deleting || Mismatch(s.eni, wantEni) then Refused
    else if (must4 && !HasRoom(c, s.v4, s.cancelled)) || (must6 && !HasRoom(c, s.v6, s.cancelled)) then Full
    else if (must4 || must6) && inhibited then Inhibited
    else if must4 || must6 then Waiting
    else Immediate
  }

  lemma EnqueueEffect(c: Config, s: Pool, t: Pool, e: Event)
    requires e.Enqueue? && Enabled(c, s, e)
    requires t == s.(v4 := if e.want4 then s.v4.(allocating := Drop(s.v4.allocating, s.cancelled) + [e.req]) else s.v4,
                     v6 := if e.want6 then s.v6.(allocating := Drop(s.v6.allocating, s.cancelled) + [e.req]) else s.v6,
                     workers := s.workers[e.req := Worker(e.pod, e.noCache, e.want4, e.want6)])
    ensures Leads(c, s, [e], t)
  {
    LeadsOne(c, s, e);
  }

  lemma DirectEffect(c: Config, s: Pool, t: Pool, e: Event)
    requires e.Direct? && Enabled(c, s, e)
    requires t == s.(v4 := s.v4.(ips := CommitIps(s.v4.ips, e.a4, e.pod, true)),
                     v6 := s.v6.(ips := CommitIps(s.v6.ips, e.a6, e.pod, true)),
                     commits := s.commits[e.req := Commit(e.pod, e.a4, e.a6)])
    ensures Leads(c, s, [e], t)
  {
    LeadsOne(c, s, e);
  }

  lemma StopEffect(c: Config, s: Pool, t: Pool, req: Req)
    requires req in s.workers
    requires t == s.(v4 := Switch(s.v4, s.cancelled, req), v6 := Switch(s.v6, s.cancelled, req),
                     workers := s.workers - {req}, cancelled := s.cancelled + {req})
    ensures Leads(c, s, [WorkerStop(req)], t)
  {
    LeadsOne(c, s, WorkerStop(req));
  }

  lemma TakeOps(c: Config, s: Pool, e: Event)
    requires e.WorkerCommit? && Enabled(c, s, e)
    ensures OpOn4(c, s, e) == Take(e.a4, s.workers[e.req].pod, e.sent, e.req)
    ensures OpOn6(c, s, e) == Take(e.a6, s.workers[e.req].pod, e.sent, e.req)
    ensures NowCancelled(c, s, e) == s.cancelled + {e.req} && ApplyRest(c, s, e) == s.(workers := s.workers - {e.req})
  {
  }

  lemma TakeEffect(c: Config, s: Pool, t: Pool, e: Event)
    requires e.WorkerCommit? && Enabled(c, s, e)
    requires var pod := s.workers[e.req].pod;
             t == s.(v4 := Switch(s.v4.(ips := CommitIps(s.v4.ips, e.a4, pod, e.sent)), s.cancelled, e.req),
                     v6 := Switch(s.v6.(ips := CommitIps(s.v6.ips, e.a6, pod, e.sent)), s.cancelled, e.req),
                     workers := s.workers - {e.req}, cancelled := s.cancelled + {e.req})
    ensures Leads(c, s, [e], t)
  {
    TakeOps(c, s, e);
    AppliesTo(c, s, e, t);
  }

  /** Jobs are popped and addresses put in once a factory call brought some. */
  method AnswerFamily(f: Family, workers: map<Req, Worker>, cancelled: set<Req>, pop: nat, good: set<Addr>, primaryIp: Option<Addr>)
    returns (g: Family, now: set<Req>)
    ensures g == Answered(f, pop, good, primaryIp)
    ensures now == cancelled + Preheating(workers, g.danging)
  {
    g, now := PopJobs(f, workers, cancelled, pop);
    var ips := Put(g.ips, good, IpValid, primaryIp);
    g := g.(ips := ips, asked := 0);
  }

  /** Both families once the create call brought an ENI. */
  method AnswerCreate(v4: Family, v6: Family, workers: map<Req, Worker>, cancelled: set<Req>,
                      good4: set<Addr>, set6: set<Addr>, primaryIp: Option<Addr>)
    returns (f4: Family, f6: Family, now: set<Req>)
    ensures f4 == Answered(v4, v4.asked, good4, primaryIp)
    ensures f6 == Answered(v6, if !v4.enabled && v6.enabled then |set6| else v6.asked, set6, None)
    ensures now == cancelled + Preheating(workers, f4.danging) + Preheating(workers, f6.danging)
  {
    var now4;
    f4, now4 := AnswerFamily(v4, workers, cancelled, v4.asked, good4, primaryIp);
    var pop6 := if !v4.enabled && v6.enabled then |set6| else v6.asked;
    f6, now := AnswerFamily(v6, workers, now4, pop6, set6, None);
  }

  /** What a worker finds: an address of every enabled family, or nothing. */
  method PickAll(v4: Family, v6: Family, pod: PodId) returns (ok: bool, pick4: Option<Addr>, pick6: Option<Addr>)
    ensures ok ==> PickOk(v4, pod, pick4) && PickOk(v6, pod, pick6)
    ensures ok <==> (v4.enabled ==> !PeeksNone(v4.ips, pod)) && (v6.enabled ==> !PeeksNone(v6.ips, pod))
  {
    pick4, pick6 := None, None;
    if v4.enabled {
      pick4 := PeekAvailable(v4.ips, pod);
      if pick4.None? {
        return false, None, None;
      }
    }
    if v6.enabled {
      pick6 := PeekAvailable(v6.ips, pod);
      if pick6.None? {
        return false, None, None;
      }
    }
    ok := true;
  }

  lemma PruneEffect(c: Config, s: Pool, t: Pool, prune4: bool, prune6: bool) returns (es: seq<Event>)
    requires t == s.(v4 := if prune4 then s.v4.(allocating := Drop(s.v4.allocating, s.cancelled)) else s.v4,
                     v6 := if prune6 then s.v6.(allocating := Drop(s.v6.allocating, s.cancelled)) else s.v6)
    ensures Leads(c, s, es, t) && forall e :: e in es ==> e.PruneQueue?
  {
    es := [];
    var u := s;
    if prune4 {
      es, u := [PruneQueue(false)], Pruned(s, false);
      LeadsOne(c, s, PruneQueue(false));
    }
    if prune6 {
      LeadsMore(c, s, es, u, PruneQueue(true));
      es := es + [PruneQueue(true)];
    }
  }

  class Local {
    const conf: Config
    var v4: Family           // ipv4, allocatingV4, dangingV4, enableIPv4
    var v6: Family           // ipv6, allocatingV6, dangingV6, enableIPv6
    var eni: Option<Eni>
    var status: EniStatus
    // goroutines: allocWorkers, commit goroutines and the two factory workers' calls in flight
    var workers: map<Req, Worker>
    var cancelled: set<Req>
    var commits: map<Req, Commit>
    var alloc: AllocCall
    var dispose: DisposeCall

    ghost function State(): Pool
      reads this
    {
      Pool(v4, v6, eni, status, workers, cancelled, commits, alloc, dispose)
    }

    /** NewLocal. */
    constructor (conf: Config, eni: Option<Eni>, enableIPv4: bool, enableIPv6: bool)
      ensures this.conf == conf && this.eni == eni && status == Init
      ensures v4 == Family(enableIPv4, map[], [], [], 0, {}) && v6 == Family(enableIPv6, map[], [], [], 0, {})
      ensures workers == map[] && cancelled == {} && commits == map[] && alloc == AllocIdle && dispose == DisposeIdle
      ensures Blank(State()) && (eni.None? && (enableIPv4 || enableIPv6) ==> Start(State()))
    {
      this.conf := conf;
      this.eni := eni;
      status := Init;
      v4, v6 := Family(enableIPv4, map[], [], [], 0, {}), Family(enableIPv6, map[], [], [], 0, {});
      workers, cancelled, commits, alloc, dispose := map[], {}, map[], AllocIdle, DisposeIdle;
    }

    /** load: what the ENI has, given to the pods recorded to own it; idle addresses of a family over cap go. */
    method Load(remote4: set<Addr>, remote6: set<Addr>, primaryIp: Addr, records: seq<Record>)
      requires eni.Some? && DistinctRecords(records)
      requires v4.ips == map[] && v6.ips == map[] && v4.collected == {} && v6.collected == {}
      modifies this
      ensures State() == old(State()).(v4 := old(v4).(ips := v4.ips), v6 := old(v6).(ips := v6.ips), status := InUse)
      ensures FamSafe(v4) && FamSafe(v6)
      ensures Blank(old(State())) && (v4.enabled || v6.enabled) ==> Start(State())
      ensures LoadedSet(v4.ips, remote4, Some(primaryIp), conf.cap) && LoadedSet(v6.ips, remote6, None, conf.cap)
      ensures LoadedOwners(v4.ips, v6.ips, records)
    {
      var ips4, ips6 := LoadSets(v4, v6, remote4, remote6, primaryIp, records, conf.cap);
      v4, v6, status := v4.(ips := ips4), v6.(ips := ips6), InUse;
    }

    /** Len on one family's allocating queue. */
    method Prune(family6: bool) returns (length: nat, ghost es: seq<Event>)
      modifies this
      ensures State() == Pruned(old(State()), family6)
      ensures es == [PruneQueue(family6)] && Leads(conf, old(State()), es, State())
      ensures length == if family6 then |v6.allocating| else |v4.allocating|
    {
      if family6 {
        var live := Live(v6.allocating, cancelled);
        v6 := v6.(allocating := live);
        length := |live|;
      } else {
        var live := Live(v4.allocating, cancelled);
        v4 := v4.(allocating := live);
        length := |live|;
      }
      es := [PruneQueue(family6)];
      LeadsOne(conf, old(State()), PruneQueue(family6));
    }

    /** canDispose. */
    method CanDisposeNow() returns (can: bool, ghost es: seq<Event>)
      modifies this
      ensures can == CanDispose(conf, old(State()))
      ensures Leads(conf, old(State()), es, State()) && forall e :: e in es ==> e.PruneQueue?
      ensures v4.(allocating := []) == old(v4).(allocating := []) && v6.(allocating := []) == old(v6).(allocating := [])
      ensures State() == old(State()).(v4 := v4, v6 := v6)
      ensures can ==> CanDispose(conf, State())
      ensures can && eni.Some? ==> v4.allocating == [] && v6.allocating == []
    {
      es := [];
      if eni.None? {
        return true, [];
      }
      if !conf.plainType || eni.value.trunk {
        return false, [];
      }
      var inUse4 := CollectInUse(v4.ips);
      var inUse6 := CollectInUse(v6.ips);
      if |inUse4| != 0 || |inUse6| != 0 {
        return false, [];
      }
      var live4, es4 := Prune(false);
      DropTwice(old(v4.allocating), cancelled);
      if live4 != 0 {
        return false, es4;
      }
      ghost var mid := State();
      var live6, es6 := Prune(true);
      DropTwice(old(v6.allocating), cancelled);
      LeadsMore(conf, old(State()), es4, mid, PruneQueue(true));
      return live6 == 0, es4 + es6;
    }

    /** The end of Allocate for a pod whose addresses are at hand. */
    method Hand(req: Req, pod: PodId, pick4: Option<Addr>, pick6: Option<Addr>) returns (ghost es: seq<Event>)
      requires status != Deleting && req !in workers && req !in cancelled && req !in commits
      requires PickOk(v4, pod, pick4) && PickOk(v6, pod, pick6)
      modifies this
      ensures es == [Direct(req, pod, pick4, pick6)] && Leads(conf, old(State()), es, State())
    {
      ghost var s := State();
      v4 := v4.(ips := CommitIps(v4.ips, pick4, pod, true));
      v6 := v6.(ips := CommitIps(v6.ips, pick6, pod, true));
      commits := commits[req := Commit(pod, pick4, pick6)];
      es := [Direct(req, pod, pick4, pick6)];
      DirectEffect(conf, s, State(), Direct(req, pod, pick4, pick6));
    }

    /** The end of Allocate for a pod that must wait; `s` is the pool before it pruned the queues that get a job. */
    method Queue(ghost s: Pool, e: Event) returns (ghost es: seq<Event>)
      requires e.Enqueue? && Enabled(conf, s, e)
      requires State() == s.(v4 := if e.want4 then s.v4.(allocating := Drop(s.v4.allocating, s.cancelled)) else s.v4,
                             v6 := if e.want6 then s.v6.(allocating := Drop(s.v6.allocating, s.cancelled)) else s.v6)
      modifies this
      ensures es == [e] && Leads(conf, s, es, State())
    {
      if e.want4 {
        v4 := v4.(allocating := v4.allocating + [e.req]);
      }
      if e.want6 {
        v6 := v6.(allocating := v6.allocating + [e.req]);
      }
      workers := workers[e.req := Worker(e.pod, e.noCache, e.want4, e.want6)];
      es := [e];
      EnqueueEffect(conf, s, State(), e);
    }

    /** Allocate: answers at once, queues jobs and starts a worker, or turns the request down. */
    method Allocate(req: Req, pod: PodId, noCache: bool, wantEni: Option<nat>, inhibited: bool)
      returns (out: Outcome, ghost es: seq<Event>)
      requires req !in workers && req !in cancelled && req !in commits
      modifies this
      ensures out == AllocateOutcome(conf, old(State()), pod, noCache, wantEni, inhibited)
      ensures Leads(conf, old(State()), es, State())
      ensures match out
              case Refused => es == []
              case Full => forall e :: e in es ==> e.PruneQueue?
              case Inhibited => forall e :: e in es ==> e.PruneQueue?
              case Immediate => |es| == 1 && es[0].Direct? && es[0].req == req && es[0].pod == pod
              case Waiting => es == [Enqueue(req, pod, noCache, MustQueue(old(v4), pod, noCache), MustQueue(old(v6), pod, noCache))]
    {
      es := [];
      ghost var s := State();
      if status == Deleting || Mismatch(eni, wantEni) {
        return Refused, [];
      }
      var g4, full4, need4, pick4 := Probe(conf, v4, cancelled, pod, noCache);
      v4 := g4;
      if full4 {
        es := PruneEffect(conf, s, State(), true, false);
        return Full, es;
      }
      var g6, full6, need6, pick6 := Probe(conf, v6, cancelled, pod, noCache);
      v6 := g6;
      if full6 {
        es := PruneEffect(conf, s, State(), need4, true);
        return Full, es;
      }
      if (need4 || need6) && inhibited {
        es := PruneEffect(conf, s, State(), need4, need6);
        return Inhibited, es;
      }
      if !need4 && !need6 {
        assert State() == s;
        es := Hand(req, pod, pick4, pick6);
        return Immediate, es;
      }
      es := Queue(s, Enqueue(req, pod, noCache, need4, need6));
      return Waiting, es;
    }

    /** The commit goroutine of an allocation that was answered at once; `ctxDone` if its caller has gone. */
    method RunCommit(req: Req, ctxDone: bool) returns (ghost es: seq<Event>)
      requires req in commits && eni.Some?
      modifies this
      ensures es == [CommitDirect(req, !ctxDone)] && Leads(conf, old(State()), es, State())
    {
      var k := commits[req];
      v4 := v4.(ips := CommitIps(v4.ips, k.a4, k.pod, !ctxDone));
      v6 := v6.(ips := CommitIps(v6.ips, k.a6, k.pod, !ctxDone));
      commits := commits - {req};
      es := [CommitDirect(req, !ctxDone)];
      LeadsOne(conf, old(State()), CommitDirect(req, !ctxDone));
    }

    /** The deferred end of allocWorker. */
    method Finish(req: Req)
      requires req in workers
      modifies this
      ensures v4 == Switch(old(v4), old(cancelled), req) && v6 == Switch(old(v6), old(cancelled), req)
      ensures State() == old(State()).(v4 := v4, v6 := v6, workers := old(workers) - {req}, cancelled := old(cancelled) + {req})
    {
      v4 := SwitchJob(v4, cancelled, req);
      v6 := SwitchJob(v6, cancelled, req);
      cancelled := cancelled + {req};
      workers := workers - {req};
    }

    /**
     One round of allocWorker's loop. A worker that preheats only waits for its job to be served; any other
     takes an address of every enabled family or waits. `ctxDone` and `sendFails` say whether the caller has
     gone before the round or by the time the result is sent.
     */
    method WorkerRound(req: Req, ctxDone: bool, sendFails: bool) returns (done: bool, ghost es: seq<Event>)
      requires req in workers
      modifies this
      ensures Leads(conf, old(State()), es, State())
      ensures !done ==> es == [] && !ctxDone
      ensures done <==> ctxDone || (if old(workers)[req].noCache then req in old(cancelled)
                                    else (old(v4).enabled ==> !PeeksNone(old(v4).ips, old(workers)[req].pod))
                                         && (old(v6).enabled ==> !PeeksNone(old(v6).ips, old(workers)[req].pod)))
      ensures done && (ctxDone || old(workers)[req].noCache) ==> es == [WorkerStop(req)]
      ensures done && !ctxDone && !old(workers)[req].noCache ==>
                |es| == 1 && es[0].WorkerCommit? && es[0].req == req && es[0].sent == !sendFails
    {
      es := [];
      ghost var s := State();
      if ctxDone || (workers[req].noCache && req in cancelled) {
        Finish(req);
        StopEffect(conf, s, State(), req);
        return true, [WorkerStop(req)];
      }
      if workers[req].noCache {
        return false, [];
      }
      var pod := workers[req].pod;
      var ok, pick4, pick6 := PickAll(v4, v6, pod);
      if !ok {
        return false, [];
      }
      v4 := v4.(ips := CommitIps(v4.ips, pick4, pod, !sendFails));
      v6 := v6.(ips := CommitIps(v6.ips, pick6, pod, !sendFails));
      Finish(req);
      TakeEffect(conf, s, State(), WorkerCommit(req, pick4, pick6, !sendFails));
      return true, [WorkerCommit(req, pick4, pick6, !sendFails)];
    }

    /** Release. */
    method Release(pod: PodId, eniId: nat, a4: Option<Addr>, a6: Option<Addr>) returns (handled: bool, ghost es: seq<Event>)
      modifies this
      ensures handled <==> old(eni).Some? && old(eni).value.id == eniId
      ensures es == (if handled then [ReleasePod(pod, a4, a6)] else []) && Leads(conf, old(State()), es, State())
    {
      es := [];
      if eni.None? || eni.value.id != eniId {
        return false, [];
      }
      if a4.Some? && a4.value in v4.ips {
        v4 := v4.(ips := v4.ips[a4.value := v4.ips[a4.value].Release(pod)]);
      }
      if a6.Some? && a6.value in v6.ips {
        v6 := v6.(ips := v6.ips[a6.value := v6.ips[a6.value].Release(pod)]);
      }
      LeadsOne(conf, old(State()), ReleasePod(pod, a4, a6));
      return true, [ReleasePod(pod, a4, a6)];
    }

    /** sync, with what the remote side lists, or nothing if the lookup failed. */
    method Sync(remote: Option<(set<Addr>, set<Addr>)>) returns (ghost es: seq<Event>)
      modifies this
      ensures es == (if old(eni).Some? && old(status) == InUse && remote.Some?
                     then [SyncRemote(remote.value.0, remote.value.1)] else [])
      ensures Leads(conf, old(State()), es, State())
    {
      es := [];
      if eni.None? || status != InUse || remote.None? {
        return;
      }
      var ips4 := SyncIps(v4.ips, remote.value.0);
      var ips6 := SyncIps(v6.ips, remote.value.1);
      v4, v6 := v4.(ips := ips4), v6.(ips := ips6);
      es := [SyncRemote(remote.value.0, remote.value.1)];
      LeadsOne(conf, old(State()), es[0]);
    }

    /** factoryAllocWorker up to the pause before a batch: does it have work, and may it start? */
    method FactoryAllocCheck(inhibited: bool) returns (go: bool, ghost es: seq<Event>)
      requires alloc == AllocIdle
      modifies this
      ensures Leads(conf, old(State()), es, State())
      ensures go <==> !inhibited && (old(status) == Init || old(status) == InUse)
                      && (Drop(old(v4.allocating), old(cancelled)) != [] || Drop(old(v6.allocating), old(cancelled)) != [])
      ensures alloc == if go then AllocSleeping else AllocIdle
      ensures forall e :: e in es ==> e.PruneQueue? || e == FallAsleep
    {
      var live4, es4 := Prune(false);
      es := es4;
      DropTwice(old(v4.allocating), cancelled);
      if live4 == 0 {
        ghost var mid := State();
        var live6, es6 := Prune(true);
        DropTwice(old(v6.allocating), cancelled);
        LeadsMore(conf, old(State()), es, mid, PruneQueue(true));
        es := es + es6;
        if live6 == 0 {
          return false, es;
        }
      }
      if status == Creating || status == Deleting || inhibited {
        return false, es;
      }
      ghost var ready := State();
      alloc := AllocSleeping;
      LeadsMore(conf, old(State()), es, ready, FallAsleep);
      return true, es + [FallAsleep];
    }

    /** factoryAllocWorker after the pause: starts to create the ENI or to assign addresses to it. */
    method FactoryAllocWake() returns (ghost es: seq<Event>)
      requires alloc == AllocSleeping
      modifies this
      ensures es == [if old(eni).None? then WakeCreate else WakeAssign] && Leads(conf, old(State()), es, State())
    {
      ghost var s := State();
      var live4 := Live(v4.allocating, cancelled);
      var live6 := Live(v6.allocating, cancelled);
      var count6 := Min(conf.batch, |live6|);
      if eni.None? {
        var count4 := 0;
        if v4.enabled {
          count4 := Min(conf.batch, Max(|live4|, 1));
        }
        v4, v6 := v4.(allocating := live4, asked := count4), v6.(allocating := live6, asked := count6);
        status, alloc := Creating, CreateCall;
        es := [WakeCreate];
        WakeCreateEffect(conf, s, State());
      } else {
        var count4 := Min(conf.batch, |live4|);
        v4, v6 := v4.(allocating := live4, asked := count4), v6.(allocating := live6, asked := count6);
        if count4 > 0 {
          alloc := Assign4Call(false);
        } else if count6 > 0 {
          alloc := Assign6Call(false);
        } else {
          alloc := AllocIdle;
        }
        es := [WakeAssign];
        WakeAssignEffect(conf, s, State());
      }
    }

    /** The wait before a factory call was cut short; the status stays what the start of the call made it. */
    method CallGivenUp() returns (ghost es: seq<Event>)
      requires alloc != AllocIdle && alloc != AllocSleeping
      modifies this
      ensures es == [CallAborted] && Leads(conf, old(State()), es, State())
    {
      alloc := AllocIdle;
      v4, v6 := v4.(asked := 0), v6.(asked := 0);
      es := [CallAborted];
      AbortEffect(conf, old(State()), State());
    }

    /** The create call failed, possibly after the ENI was made. */
    method CreateFailed(gotEni: Option<Eni>) returns (ghost es: seq<Event>)
      requires alloc == CreateCall
      modifies this
      ensures es == [CreateErr(gotEni)] && Leads(conf, old(State()), es, State())
    {
      eni := gotEni;
      status := if gotEni.Some? then Deleting else Init;
      alloc := AllocIdle;
      v4, v6 := v4.(asked := 0), v6.(asked := 0);
      es := [CreateErr(gotEni)];
      CreateErrEffect(conf, old(State()), State(), gotEni);
    }

    /** The pool takes the new ENI with its addresses. */
    method TakeOver(newEni: Eni, set4: set<Addr>, set6: set<Addr>, primaryIp: Option<Addr>) returns (ghost es: seq<Event>)
      requires alloc == CreateCall && AnswerOk(v4, set4) && AnswerOk(v6, set6)
      modifies this
      ensures es == [CreateOk(newEni, set4, set6, primaryIp)] && Leads(conf, old(State()), es, State())
    {
      ghost var s := State();
      es := [CreateOk(newEni, set4, set6, primaryIp)];
      var f4, f6, now := AnswerCreate(v4, v6, workers, cancelled, set4, set6, primaryIp);
      eni, v4, v6, cancelled, status, alloc := Some(newEni), f4, f6, now, InUse, AllocIdle;
      CreateEffect(conf, s, State(), es[0]);
    }

    /** The create call answered; `primaryIp` is missing if the ENI's primary address does not parse. */
    method Created(newEni: Eni, set4: set<Addr>, set6: set<Addr>, primaryIp: Option<Addr>) returns (ghost es: seq<Event>)
      requires alloc == CreateCall && AnswerOk(v4, set4) && AnswerOk(v6, set6)
      modifies this
      ensures es == [CreateOk(newEni, if primaryIp.Some? then set4 else {}, set6, primaryIp)]
      ensures Leads(conf, old(State()), es, State())
    {
      var good4 := if primaryIp.Some? then set4 else {};
      es := TakeOver(newEni, good4, set6, primaryIp);
    }

    /** The IPv4 assign call answered, with an error or without. */
    method Assigned4(err: bool, set4: set<Addr>) returns (ghost es: seq<Event>)
      requires alloc.Assign4Call? && AnswerOk(v4, set4) && (alloc.stale ==> err && set4 == {})
      modifies this
      ensures es == [if err then Assign4Err(set4) else Assign4Ok(set4)] && Leads(conf, old(State()), es, State())
    {
      ghost var s := State();
      if err {
        var ips := Put(v4.ips, set4, IpDeleting, None);
        v4, v6 := v4.(ips := ips, asked := 0), v6.(asked := 0);
        alloc := AllocIdle;
        es := [Assign4Err(set4)];
        Assign4ErrEffect(conf, s, State(), Assign4Err(set4));
      } else {
        v4, cancelled := AnswerFamily(v4, workers, cancelled, |set4|, set4, None);
        alloc := if v6.asked > 0 then Assign6Call(false) else AllocIdle;
        es := [Assign4Ok(set4)];
        Assign4OkEffect(conf, s, State(), Assign4Ok(set4));
      }
    }

    /** The IPv6 assign call answered, with an error or without. */
    method Assigned6(err: bool, set6: set<Addr>) returns (ghost es: seq<Event>)
      requires alloc.Assign6Call? && AnswerOk(v6, set6) && (alloc.stale ==> err && set6 == {})
      modifies this
      ensures es == [if err then Assign6Err(set6) else Assign6Ok(set6)] && Leads(conf, old(State()), es, State())
    {
      ghost var s := State();
      alloc := AllocIdle;
      if err {
        var ips := Put(v6.ips, set6, IpDeleting, None);
        v6 := v6.(ips := ips, asked := 0);
        es := [Assign6Err(set6)];
        Assign6ErrEffect(conf, s, State(), Assign6Err(set6));
      } else {
        v6, cancelled := AnswerFamily(v6, workers, cancelled, |set6|, set6, None);
        es := [Assign6Ok(set6)];
        Assign6OkEffect(conf, s, State(), Assign6Ok(set6));
      }
    }

    /** factoryDisposeWorker on an ENI in Deleting: the delete call starts once nothing holds the ENI back. */
    method StartDelete() returns (ghost es: seq<Event>)
      requires dispose == DisposeIdle && eni.Some? && status == Deleting
      modifies this
      ensures Leads(conf, old(State()), es, State())
      ensures dispose == (if CanDispose(conf, old(State())) then DeleteCall else DisposeIdle)
      ensures forall e :: e in es ==> e.PruneQueue? || e == DeleteStart
    {
      ghost var s := State();
      var can, es' := CanDisposeNow();
      es := es';
      if can {
        ghost var t := State();
        dispose := DeleteCall;
        DeleteStartEffect(conf, s, es, t, State());
        es := es + [DeleteStart];
      }
    }

    /** The batches go to the unassign call, IPv4 first. */
    method HandBatches(batch4: set<Addr>, batch6: set<Addr>)
      requires Enabled(conf, State(), CollectDeleting(batch4, batch6))
      modifies this
      ensures dispose == UnassignCall && v4.collected == batch4 && v6.collected == batch6
      ensures Leads(conf, old(State()), [CollectDeleting(batch4, batch6)], State())
    {
      v4, v6 := v4.(collected := batch4), v6.(collected := batch6);
      dispose := UnassignCall;
      CollectEffect(conf, old(State()), State(), CollectDeleting(batch4, batch6));
    }

    /** factoryDisposeWorker on any other ENI: a batch of Deleting addresses goes to the unassign call. */
    method StartUnassign() returns (ghost es: seq<Event>)
      requires dispose == DisposeIdle && eni.Some? && status != Deleting
      modifies this
      ensures Leads(conf, old(State()), es, State())
      ensures es == (if dispose == UnassignCall then [CollectDeleting(v4.collected, v6.collected)] else [])
      ensures dispose == UnassignCall <==>
              conf.batch > 0 && (DeletingSet(old(v4).ips) != {} || DeletingSet(old(v6).ips) != {})
      ensures dispose == UnassignCall ==> BatchOf(old(v4).ips, conf.batch, v4.collected)
                                          && BatchOf(old(v6).ips, conf.batch, v6.collected)
    {
      var batch4 := CollectDeletingBatch(v4.ips, conf.batch);
      var batch6 := CollectDeletingBatch(v6.ips, conf.batch);
      BatchEmptyIff(v4.ips, conf.batch, batch4);
      BatchEmptyIff(v6.ips, conf.batch, batch6);
      if batch4 == {} && batch6 == {} {
        return [];
      }
      es := [CollectDeleting(batch4, batch6)];
      HandBatches(batch4, batch6);
    }

    /** One round of factoryDisposeWorker: start deleting the ENI, hand a batch to unassign, or wait. */
    method FactoryDisposeRound() returns (ghost es: seq<Event>)
      requires dispose == DisposeIdle
      modifies this
      ensures Leads(conf, old(State()), es, State())
      ensures old(eni).None? ==> es == []
      ensures old(eni).Some? && old(status) == Deleting ==>
                && dispose == (if CanDispose(conf, old(State())) then DeleteCall else DisposeIdle)
                && forall e :: e in es ==> e.PruneQueue? || e == DeleteStart
      ensures old(eni).Some? && old(status) != Deleting ==>
                && es == (if dispose == UnassignCall then [CollectDeleting(v4.collected, v6.collected)] else [])
                && (dispose == UnassignCall <==>
                    conf.batch > 0 && (DeletingSet(old(v4).ips) != {} || DeletingSet(old(v6).ips) != {}))
                && (dispose == UnassignCall ==> BatchOf(old(v4).ips, conf.batch, v4.collected)
                                                && BatchOf(old(v6).ips, conf.batch, v6.collected))
    {
      es := [];
      if eni.None? {
        return;
      }
      if status == Deleting {
        es := StartDelete();
      } else {
        es := StartUnassign();
      }
    }

    /** The delete call answered. */
    method Deleted(ok: bool) returns (ghost es: seq<Event>)
      requires dispose == DeleteCall
      modifies this
      ensures es == [if ok then DeleteOk else DeleteErr] && Leads(conf, old(State()), es, State())
    {
      dispose := DisposeIdle;
      es := [DeleteErr];
      if ok {
        eni, status := None, Init;
        v4, v6 := v4.(ips := map[], collected := {}), v6.(ips := map[], collected := {});
        // An assign call still in flight now runs against an ENI that is gone.
        if alloc.Assign4Call? {
          alloc := Assign4Call(true);
        } else if alloc.Assign6Call? {
          alloc := Assign6Call(true);
        }
        es := [DeleteOk];
        DeleteOkEffect(conf, old(State()), State());
      } else {
        DeleteErrEffect(conf, old(State()), State());
      }
    }

    /** The unassign call for the family's batch answered; IPv4 goes first. */
    method UnassignAnswered(ok: bool) returns (ghost es: seq<Event>)
      requires dispose == UnassignCall && (v4.collected != {} || v6.collected != {})
      modifies this
      ensures es == [if old(v4).collected != {} then Unassign4Done(ok) else Unassign6Done(ok)]
      ensures Leads(conf, old(State()), es, State())
    {
      if v4.collected != {} {
        es := [Unassign4Done(ok)];
        v4 := v4.(ips := if ok then v4.ips - v4.collected else v4.ips, collected := {});
        dispose := if v6.collected == {} then DisposeIdle else UnassignCall;
        Unassign4Effect(conf, old(State()), State(), ok);
      } else {
        es := [Unassign6Done(ok)];
        v6 := v6.(ips := if ok then v6.ips - v6.collected else v6.ips, collected := {});
        dispose := DisposeIdle;
        Unassign6Effect(conf, old(State()), State(), ok);
      }
    }

    /** Usage: idle and owned addresses of the counted family. */
    method Usage() returns (idles: nat, inUse: nat)
      ensures idles == CountedIdle(State())
      ensures inUse == if eni.None? || status != InUse then 0 else |OwnedSet(Counted(State()))|
    {
      idles, inUse := 0, 0;
      if eni.Some? && status == InUse {
        var ips := if v4.enabled then v4.ips else if v6.enabled then v6.ips else map[];
        var idle := CollectIdles(ips);
        var owned := CollectInUse(ips);
        idles, inUse := |idle|, |owned|;
      }
    }

    /** Dispose: gives up the whole ENI if it is small enough and unused, else up to `n` idle addresses per family. */
    method Dispose(n: int) returns (k: int, ghost gone4: set<Addr>, ghost gone6: set<Addr>, ghost es: seq<Event>)
      modifies this
      ensures Leads(conf, old(State()), es, State())
      ensures forall e :: e in es ==> e.PruneQueue? || e == DisposeEni || e == DisposeIps(gone4, gone6)
      ensures DisposeResult(conf, old(State()), n, State(), k, gone4, gone6)
    {
      gone4, gone6, es := {}, {}, [];
      ghost var s := State();
      if eni.None? || status != InUse {
        return 0, {}, {}, [];
      }
      if n >= Max(|v4.ips|, |v6.ips|) {
        var can, es' := CanDisposeNow();
        es := es';
        if can {
          ghost var t := State();
          status := Deleting;
          MarkEffect(conf, t, State());
          LeadsMore(conf, s, es, t, DisposeEni);
          es := es + [DisposeEni];
          return Max(|v4.ips|, |v6.ips|), {}, {}, es;
        }
      }
      ghost var t := State();
      k, gone4, gone6 := DisposeAddresses(n);
      DisposeIpsEffect(conf, s, es, t, State(), n, gone4, gone6);
      es := es + [DisposeIps(gone4, gone6)];
    }

    /** Steps 2 and 3 of Dispose. */
    method DisposeAddresses(n: int) returns (k: int, ghost gone4: set<Addr>, ghost gone6: set<Addr>)
      modifies this
      ensures State() == old(State()).(v4 := old(v4).(ips := RetireIps(old(v4).ips, gone4)),
                                       v6 := old(v6).(ips := RetireIps(old(v6).ips, gone6)))
      ensures DisposeSpec(old(v4).ips, n, gone4) && DisposeSpec(old(v6).ips, n, gone6)
      ensures k == Max(Min(|IdleSet(old(v4).ips)|, n), Min(|IdleSet(old(v6).ips)|, n))
    {
      var ips4, left4, ips6, left6;
      ips4, left4, gone4 := DisposeFamily(v4.ips, n);
      ips6, left6, gone6 := DisposeFamily(v6.ips, n);
      v4, v6 := v4.(ips := ips4), v6.(ips := ips6);
      k := Max(left4, left6);
    }
  }

  function Counted(s: Pool): IPSet {
    if s.v4.enabled then s.v4.ips else if s.v6.enabled then s.v6.ips else map[]
  }

  function CountedIdle(s: Pool): nat {
    if s.eni.None? || s.status != InUse then 0 else |IdleSet(Counted(s))|
  }

  /** What one Dispose call does to a pool and what it reports. */
  ghost predicate DisposeResult(c: Config, s: Pool, n: int, t: Pool, k: int, gone4: set<Addr>, gone6: set<Addr>) {
    var size := Max(|s.v4.ips|, |s.v6.ips|);
    && t.eni == s.eni && t.v4.enabled == s.v4.enabled && t.v6.enabled == s.v6.enabled
    && if s.eni.None? || s.status != InUse then
      t == s && k == 0
    else if n >= size && CanDispose(c, s) then
      t.status == Deleting && t.v4.ips == s.v4.ips && t.v6.ips == s.v6.ips && k == size
    else
      && t.status == InUse
      && t.v4.ips == RetireIps(s.v4.ips, gone4) && DisposeSpec(s.v4.ips, n, gone4)
      && t.v6.ips == RetireIps(s.v6.ips, gone6) && DisposeSpec(s.v6.ips, n, gone6)
      && k == Max(Min(|IdleSet(s.v4.ips)|, n), Min(|IdleSet(s.v6.ips)|, n))
  }

  lemma DisposeIpsEffect(c: Config, s: Pool, es: seq<Event>, t: Pool, u: Pool, n: int, gone4: set<Addr>, gone6: set<Addr>)
    requires Leads(c, s, es, t) && t.eni.Some? && t.status == InUse
    requires DisposeSpec(t.v4.ips, n, gone4) && DisposeSpec(t.v6.ips, n, gone6)
    requires u == t.(v4 := t.v4.(ips := RetireIps(t.v4.ips, gone4)), v6 := t.v6.(ips := RetireIps(t.v6.ips, gone6)))
    ensures Leads(c, s, es + [DisposeIps(gone4, gone6)], u)
  {
    DisposeSpecIdle(t.v4.ips, n, gone4);
    DisposeSpecIdle(t.v6.ips, n, gone6);
    RetireEffect(c, s, es, t, u, gone4, gone6);
  }

  lemma RetireEffect(c: Config, s: Pool, es: seq<Event>, t: Pool, u: Pool, gone4: set<Addr>, gone6: set<Addr>)
    requires Leads(c, s, es, t) && t.eni.Some? && t.status == InUse
    requires forall a :: a in gone4 ==> a in t.v4.ips && !t.v4.ips[a].InUse() && !t.v4.ips[a].primary
    requires forall a :: a in gone6 ==> a in t.v6.ips && !t.v6.ips[a].InUse() && !t.v6.ips[a].primary
    requires u == t.(v4 := t.v4.(ips := RetireIps(t.v4.ips, gone4)), v6 := t.v6.(ips := RetireIps(t.v6.ips, gone6)))
    ensures Leads(c, s, es + [DisposeIps(gone4, gone6)], u)
  {
    LeadsMore(c, s, es, t, DisposeIps(gone4, gone6));
  }

  lemma MarkEffect(c: Config, s: Pool, t: Pool)
    requires Enabled(c, s, DisposeEni) && s.v4.allocating == [] && s.v6.allocating == []
    requires t == s.(status := Deleting)
    ensures t == Apply(c, s, DisposeEni)
  {
  }

  lemma WakeCreateEffect(c: Config, s: Pool, t: Pool)
    requires Enabled(c, s, WakeCreate)
    requires t == s.(v4 := s.v4.(allocating := Drop(s.v4.allocating, s.cancelled), asked := CreateCount4(c, s)),
                     v6 := s.v6.(allocating := Drop(s.v6.allocating, s.cancelled), asked := AssignCount(c, s, s.v6)),
                     status := Creating, alloc := CreateCall)
    ensures Leads(c, s, [WakeCreate], t)
  {
    LeadsOne(c, s, WakeCreate);
  }

  lemma WakeAssignEffect(c: Config, s: Pool, t: Pool)
    requires Enabled(c, s, WakeAssign)
    requires t == s.(v4 := s.v4.(allocating := Drop(s.v4.allocating, s.cancelled), asked := AssignCount(c, s, s.v4)),
                     v6 := s.v6.(allocating := Drop(s.v6.allocating, s.cancelled), asked := AssignCount(c, s, s.v6)),
                     alloc := if AssignCount(c, s, s.v4) > 0 then Assign4Call(false)
                              else if AssignCount(c, s, s.v6) > 0 then Assign6Call(false) else AllocIdle)
    ensures Leads(c, s, [WakeAssign], t)
  {
    LeadsOne(c, s, WakeAssign);
  }

  function CreatedPool(s: Pool, newEni: Eni, f4: Family, f6: Family): Pool {
    Pool(f4, f6, Some(newEni), InUse, s.workers,
         s.cancelled + Preheating(s.workers, f4.danging) + Preheating(s.workers, f6.danging), s.commits, AllocIdle, s.dispose)
  }

  lemma AnswerApplies(f: Family, cancelled: set<Req>, pop: nat, good: set<Addr>, primaryIp: Option<Addr>)
    ensures ApplyFam(f, cancelled, Answer(pop, good, primaryIp)) == Answered(f, pop, good, primaryIp)
  {
  }

  lemma CreateOps(c: Config, s: Pool, e: Event)
    requires e.CreateOk? && Enabled(c, s, e)
    ensures OpOn4(c, s, e) == Answer(s.v4.asked, e.set4, e.primaryIp)
    ensures OpOn6(c, s, e) == Answer(CreatePop6(s, e.set6), e.set6, None)
  {
  }

  lemma CreateEffect(c: Config, s: Pool, t: Pool, e: Event)
    requires e.CreateOk? && s.alloc == CreateCall && AnswerOk(s.v4, e.set4) && AnswerOk(s.v6, e.set6)
    requires t.v4 == Answered(s.v4, s.v4.asked, e.set4, e.primaryIp)
    requires t.v6 == Answered(s.v6, CreatePop6(s, e.set6), e.set6, None)
    requires t == CreatedPool(s, e.newEni, t.v4, t.v6)
    ensures Leads(c, s, [e], t)
  {
    CreateOps(c, s, e);
    AnswerApplies(s.v4, s.cancelled, s.v4.asked, e.set4, e.primaryIp);
    AnswerApplies(s.v6, s.cancelled, CreatePop6(s, e.set6), e.set6, None);
    AppliesTo(c, s, e, t);
  }

  /** An event's effect, from its effect on each part of the pool. */
  lemma AppliesTo(c: Config, s: Pool, e: Event, t: Pool)
    requires Enabled(c, s, e)
    requires t.v4 == ApplyFam(s.v4, s.cancelled, OpOn4(c, s, e)) && t.v6 == ApplyFam(s.v6, s.cancelled, OpOn6(c, s, e))
    requires t.cancelled == NowCancelled(c, s, e) && t == ApplyRest(c, s, e).(v4 := t.v4, v6 := t.v6, cancelled := t.cancelled)
    ensures Leads(c, s, [e], t)
  {
    LeadsOne(c, s, e);
  }

  lemma Assign4OkEffect(c: Config, s: Pool, t: Pool, e: Event)
    requires e.Assign4Ok? && Enabled(c, s, e)
    requires t.v4 == Answered(s.v4, |e.set4|, e.set4, None)
    requires t == s.(v4 := t.v4, alloc := if s.v6.asked > 0 then Assign6Call(false) else AllocIdle,
                     cancelled := s.cancelled + Preheating(s.workers, t.v4.danging))
    ensures Leads(c, s, [e], t)
  {
    AnswerApplies(s.v4, s.cancelled, |e.set4|, e.set4, None);
    AppliesTo(c, s, e, t);
  }

  lemma Assign4ErrEffect(c: Config, s: Pool, t: Pool, e: Event)
    requires e.Assign4Err? && Enabled(c, s, e)
    requires t == s.(v4 := Rejected(s.v4, e.set4), v6 := s.v6.(asked := 0), alloc := AllocIdle)
    ensures Leads(c, s, [e], t)
  {
    AppliesTo(c, s, e, t);
  }

  lemma Assign6OkEffect(c: Config, s: Pool, t: Pool, e: Event)
    requires e.Assign6Ok? && Enabled(c, s, e)
    requires t.v6 == Answered(s.v6, |e.set6|, e.set6, None)
    requires t == s.(v6 := t.v6, alloc := AllocIdle, cancelled := s.cancelled + Preheating(s.workers, t.v6.danging))
    ensures Leads(c, s, [e], t)
  {
    AnswerApplies(s.v6, s.cancelled, |e.set6|, e.set6, None);
    AppliesTo(c, s, e, t);
  }

  lemma Assign6ErrEffect(c: Config, s: Pool, t: Pool, e: Event)
    requires e.Assign6Err? && Enabled(c, s, e)
    requires t == s.(v6 := Rejected(s.v6, e.set6), alloc := AllocIdle)
    ensures Leads(c, s, [e], t)
  {
    AppliesTo(c, s, e, t);
  }

  lemma AbortEffect(c: Config, s: Pool, t: Pool)
    requires s.alloc != AllocIdle && s.alloc != AllocSleeping
    requires t == s.(v4 := s.v4.(asked := 0), v6 := s.v6.(asked := 0), alloc := AllocIdle)
    ensures Leads(c, s, [CallAborted], t)
  {
    AppliesTo(c, s, CallAborted, t);
  }

  lemma CreateErrEffect(c: Config, s: Pool, t: Pool, gotEni: Option<Eni>)
    requires s.alloc == CreateCall
    requires t == s.(v4 := s.v4.(asked := 0), v6 := s.v6.(asked := 0), eni := gotEni, alloc := AllocIdle,
                     status := if gotEni.Some? then Deleting else Init)
    ensures Leads(c, s, [CreateErr(gotEni)], t)
  {
    AppliesTo(c, s, CreateErr(gotEni), t);
  }

  lemma DeleteOkEffect(c: Config, s: Pool, t: Pool)
    requires s.dispose == DeleteCall
    requires t == s.(v4 := s.v4.(ips := map[], collected := {}), v6 := s.v6.(ips := map[], collected := {}),
                     eni := None, status := Init, dispose := DisposeIdle,
                     alloc := if s.alloc.Assign4Call? then Assign4Call(true)
                              else if s.alloc.Assign6Call? then Assign6Call(true) else s.alloc)
    ensures Leads(c, s, [DeleteOk], t)
  {
    AppliesTo(c, s, DeleteOk, t);
  }

  lemma DeleteErrEffect(c: Config, s: Pool, t: Pool)
    requires s.dispose == DeleteCall && t == s.(dispose := DisposeIdle)
    ensures Leads(c, s, [DeleteErr], t)
  {
    AppliesTo(c, s, DeleteErr, t);
  }

  lemma BatchEmptyIff(ips: IPSet, n: nat, batch: set<Addr>)
    requires BatchOf(ips, n, batch)
    ensures batch != {} <==> n > 0 && DeletingSet(ips) != {}
  {
  }

  lemma DeleteStartEffect(c: Config, s: Pool, es: seq<Event>, t: Pool, u: Pool)
    requires Leads(c, s, es, t) && t.dispose == DisposeIdle && t.eni.Some? && t.status == Deleting && CanDispose(c, t)
    requires u == t.(dispose := DeleteCall)
    ensures Leads(c, s, es + [DeleteStart], u)
  {
    LeadsMore(c, s, es, t, DeleteStart);
  }

  lemma CollectOps(c: Config, s: Pool, e: Event)
    requires e.CollectDeleting? && Enabled(c, s, e)
    ensures OpOn4(c, s, e) == Collect(e.batch4) && OpOn6(c, s, e) == Collect(e.batch6)
    ensures NowCancelled(c, s, e) == s.cancelled && ApplyRest(c, s, e) == s.(dispose := UnassignCall)
  {
  }

  lemma CollectEffect(c: Config, s: Pool, t: Pool, e: Event)
    requires e.CollectDeleting? && Enabled(c, s, e)
    requires t == s.(v4 := s.v4.(collected := e.batch4), v6 := s.v6.(collected := e.batch6), dispose := UnassignCall)
    ensures Leads(c, s, [e], t)
  {
    CollectOps(c, s, e);
    AppliesTo(c, s, e, t);
  }

  lemma UnassignOps(c: Config, s: Pool, e: Event)
    requires (e.Unassign4Done? || e.Unassign6Done?) && Enabled(c, s, e)
    ensures OpOn4(c, s, e) == if e.Unassign4Done? then Unassigned(e.ok) else Keep
    ensures OpOn6(c, s, e) == if e.Unassign6Done? then Unassigned(e.ok) else Keep
    ensures NowCancelled(c, s, e) == s.cancelled
  {
  }

  lemma Unassign4Effect(c: Config, s: Pool, t: Pool, ok: bool)
    requires Enabled(c, s, Unassign4Done(ok))
    requires t == s.(v4 := Shed(s.v4, ok), dispose := if s.v6.collected == {} then DisposeIdle else UnassignCall)
    ensures Leads(c, s, [Unassign4Done(ok)], t)
  {
    UnassignOps(c, s, Unassign4Done(ok));
    AppliesTo(c, s, Unassign4Done(ok), t);
  }

  lemma Unassign6Effect(c: Config, s: Pool, t: Pool, ok: bool)
    requires Enabled(c, s, Unassign6Done(ok))
    requires t == s.(v6 := Shed(s.v6, ok), dispose := DisposeIdle)
    ensures Leads(c, s, [Unassign6Done(ok)], t)
  {
    UnassignOps(c, s, Unassign6Done(ok));
    AppliesTo(c, s, Unassign6Done(ok), t);
  }

  lemma {:induction false} DropTwice(q: seq<Req>, gone: set<Req>)
    ensures Drop(Drop(q, gone), gone) == Drop(q, gone)
  {
    if q != [] {
      DropTwice(q[1..], gone);
      assert q[0] !in gone ==> Drop(q, gone)[1..] == Drop(q[1..], gone);
    }
  }
}
