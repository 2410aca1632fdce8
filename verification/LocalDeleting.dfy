/**
 What happens to an ENI once Dispose marks it Deleting. canDispose looks at the allocating queues only, not
 at jobs whose address has been fetched but not picked up (danging). Without such a job no address of the
 ENI gains an owner again. With one it can, as soon as every enabled family has an address to give or an assign
 call in flight that may bring one, and the pod is then left with addresses of an ENI about to be deleted.
 */
module LocalDeleting {
  import opened Util
  import opened LocalPool
  import opened LocalOwnership
  import opened LocalRuns
  import opened LocalJobs

  predicate Unowned(s: Pool) {
    OwnedSet(s.v4.ips) == {} && OwnedSet(s.v6.ips) == {}
  }

  /** A job of the family's danging queue whose request is not cancelled. */
  predicate LiveDanging(f: Family, cancelled: set<Req>) {
    exists r :: r in f.danging && r !in cancelled
  }

  predicate SomeLiveDanging(s: Pool) {
    LiveDanging(s.v4, s.cancelled) || LiveDanging(s.v6, s.cancelled)
  }

  predicate Serves(f: Family) {
    f.enabled ==> exists a :: a in f.ips && f.ips[a].Allocatable()
  }

  /** An assign call for this ENI is in flight and has asked for IPv4 addresses. */
  predicate Coming4(s: Pool) {
    s.alloc == Assign4Call(false) && s.v4.asked > 0
  }

  /** The same for IPv6, which the worker asks for after IPv4. */
  predicate Coming6(s: Pool) {
    (s.alloc == Assign4Call(false) || s.alloc == Assign6Call(false)) && s.v6.asked > 0
  }

  /** Every enabled family has an address to give, or may still get one. */
  predicate Hopeful(s: Pool) {
    (Serves(s.v4) || Coming4(s)) && (Serves(s.v6) || Coming6(s))
  }

  predicate Drained(s: Pool) {
    s.status == Deleting && Unowned(s) && s.v4.allocating == [] && s.v6.allocating == []
  }

  // What a marked ENI without hope keeps.

  ghost predicate Spent(s: Pool) {
    Drained(s) && !(SomeLiveDanging(s) && Hopeful(s))
  }

  /** Only an operation that acts for a pod gives an address an owner. */
  lemma FamNoGain(f: Family, cancelled: set<Req>, op: FamOp)
    requires !op.Own? && !op.CommitAt? && !op.Take?
    ensures OwnedSet(ApplyFam(f, cancelled, op).ips) <= OwnedSet(f.ips)
  {
    if op.Leave? {
      SwitchKeepsIps(f, cancelled, op.req);
    }
  }

  /** A committing worker of an ENI with empty allocating queues is a live danging job. */
  lemma WorkerIsLiveDanging(s: Pool, r: Req)
    requires Jobs(s) && r in s.workers && !s.workers[r].noCache
    requires s.v4.allocating == [] && s.v6.allocating == []
    ensures SomeLiveDanging(s)
  {
    assert r !in s.cancelled;
    if s.workers[r].want4 {
      assert Wants(s, r, false) && Bag(s.v4)[r] == 1;
      assert r in multiset(s.v4.danging);
    } else {
      assert Wants(s, r, true) && Bag(s.v6)[r] == 1;
      assert r in multiset(s.v6.danging);
    }
  }

  lemma UnownedPicks(f: Family, pod: PodId, pick: Option<Addr>)
    requires OwnedSet(f.ips) == {} && PickOk(f, pod, pick)
    ensures Serves(f)
  {
    forall a | a in f.ips ensures !f.ips[a].InUse() {
      assert a !in OwnedSet(f.ips);
    }
  }

  /** On such a pool no event acts for a pod but a release. */
  lemma SpentEvents(c: Config, s: Pool, e: Event)
    requires Safe(s) && Jobs(s) && Spent(s) && Enabled(c, s, e)
    ensures !e.Direct? && !e.Enqueue? && !e.CommitDirect? && !e.WorkerCommit?
    ensures !e.WakeCreate? && !e.CreateOk? && !e.CreateErr?
  {
    if e.WorkerCommit? {
      WorkerIsLiveDanging(s, e.req);
      UnownedPicks(s.v4, s.workers[e.req].pod, e.a4);
      UnownedPicks(s.v6, s.workers[e.req].pod, e.a6);
    }
  }

  lemma ActsForPod(c: Config, s: Pool, e: Event)
    requires Enabled(c, s, e) && !e.Direct? && !e.CommitDirect? && !e.WorkerCommit?
    ensures var op := OpOn4(c, s, e); !op.Own? && !op.CommitAt? && !op.Take?
    ensures var op := OpOn6(c, s, e); !op.Own? && !op.CommitAt? && !op.Take?
  {
  }

  lemma StatusStaysDeleting(c: Config, s: Pool, e: Event)
    requires Enabled(c, s, e) && s.status == Deleting
    requires !e.DeleteOk? && !e.WakeCreate? && !e.CreateOk? && !e.CreateErr?
    ensures ApplyRest(c, s, e).status == Deleting
  {
  }

  /** An empty queue stays empty, and jobs no longer move to the danging one. */
  lemma QueuesStay(f: Family, cancelled: set<Req>, op: FamOp)
    requires f.allocating == [] && Joiner(op) == {}
    ensures ApplyFam(f, cancelled, op).allocating == []
    ensures ApplyFam(f, cancelled, op).danging == f.danging
  {
  }

  lemma StepDrained(c: Config, s: Pool, e: Event)
    requires Safe(s) && Jobs(s) && Spent(s) && Enabled(c, s, e) && !e.DeleteOk?
    ensures Drained(Apply(c, s, e)) && (SomeLiveDanging(Apply(c, s, e)) ==> SomeLiveDanging(s))
  {
    SpentEvents(c, s, e);
    StatusStaysDeleting(c, s, e);
    ActsForPod(c, s, e);
    FamNoGain(s.v4, s.cancelled, OpOn4(c, s, e));
    FamNoGain(s.v6, s.cancelled, OpOn6(c, s, e));
    JoinersAndLeavers(c, s, e);
    CancelledAfter(c, s, e);
    QueuesStay(s.v4, s.cancelled, OpOn4(c, s, e));
    QueuesStay(s.v6, s.cancelled, OpOn6(c, s, e));
  }

  /** Without owners, only an answer with addresses makes a family serve. */
  lemma NoNewServes(f: Family, cancelled: set<Req>, op: FamOp)
    requires OwnedSet(f.ips) == {} && !Serves(f) && !op.Own? && !op.CommitAt? && !op.Take?
    requires op.Answer? ==> op.good == {}
    ensures !Serves(ApplyFam(f, cancelled, op))
  {
    forall a | a in f.ips ensures !f.ips[a].InUse() {
      assert a !in OwnedSet(f.ips);
    }
    EnabledFlagsStay(f, cancelled, op);
    if op.Leave? {
      SwitchKeepsIps(f, cancelled, op.req);
    }
  }

  /** The calls in flight after a step, once the queues are empty. */
  lemma NothingNewComes(c: Config, s: Pool, e: Event)
    requires Drained(s) && Enabled(c, s, e) && !e.WakeCreate? && !e.CreateOk? && !e.CreateErr?
    ensures Coming4(Apply(c, s, e)) ==> Coming4(s)
    ensures Coming6(Apply(c, s, e)) ==> Coming6(s)
  {
  }

  lemma NoneAskedNoneGot(c: Config, s: Pool, e: Event)
    requires Enabled(c, s, e) && !e.CreateOk?
    ensures OpOn4(c, s, e).Answer? && !Coming4(s) ==> OpOn4(c, s, e).good == {}
    ensures OpOn6(c, s, e).Answer? && !Coming6(s) ==> OpOn6(c, s, e).good == {}
  {
    if e.Assign4Ok? && e.set4 != {} {
      assert |e.set4| > 0;
    }
    if e.Assign6Ok? && e.set6 != {} {
      assert |e.set6| > 0;
    }
  }

  lemma StepHopeless(c: Config, s: Pool, e: Event)
    requires Safe(s) && Jobs(s) && Spent(s) && Enabled(c, s, e) && !e.DeleteOk?
    ensures Hopeful(Apply(c, s, e)) ==> Hopeful(s)
  {
    SpentEvents(c, s, e);
    ActsForPod(c, s, e);
    NothingNewComes(c, s, e);
    NoneAskedNoneGot(c, s, e);
    if !Serves(s.v4) && !Coming4(s) {
      NoNewServes(s.v4, s.cancelled, OpOn4(c, s, e));
    }
    if !Serves(s.v6) && !Coming6(s) {
      NoNewServes(s.v6, s.cancelled, OpOn6(c, s, e));
    }
  }

  lemma {:induction false} RunSpent(c: Config, s: Pool, es: seq<Event>)
    requires Safe(s) && Jobs(s) && Spent(s) && Legal(c, s, es) && DeleteOk !in es
    ensures Possible(c, s, es) && Spent(Exec(c, s, es))
    decreases |es|
  {
    if es != [] {
      StepDrained(c, s, es[0]);
      StepHopeless(c, s, es[0]);
      StepSafe(c, s, es[0]);
      StepJobs(c, s, es[0]);
      RunSpent(c, Apply(c, s, es[0]), es[1..]);
    }
  }

  // What a marked ENI with hope can come to.

  /** A run of events, short of the reset, after which some address of the ENI is owned. */
  ghost predicate GivesAway(c: Config, s: Pool, later: seq<Event>) {
    Legal(c, s, later) && DeleteOk !in later && Possible(c, s, later) && !Unowned(Exec(c, s, later))
  }

  lemma GivesAwayAfter(c: Config, s: Pool, e: Event, later: seq<Event>)
    requires Enabled(c, s, e) && Disciplined(s, e) && !e.DeleteOk? && GivesAway(c, Apply(c, s, e), later)
    ensures GivesAway(c, s, [e] + later)
  {
    assert ([e] + later)[1..] == later;
  }

  lemma LiveDangingWorks(s: Pool) returns (r: Req)
    requires Jobs(s) && SomeLiveDanging(s)
    ensures r in s.workers && !s.workers[r].noCache
  {
    r :| (r in s.v4.danging || r in s.v6.danging) && r !in s.cancelled;
    if r in s.v4.danging {
      assert r in multiset(s.v4.danging);
      assert Wants(s, r, false);
    } else {
      assert r in multiset(s.v6.danging);
      assert Wants(s, r, true);
    }
  }

  lemma PickServed(f: Family, pod: PodId) returns (pick: Option<Addr>)
    requires Serves(f) && OwnedSet(f.ips) == {} && pod != NO_POD
    ensures PickOk(f, pod, pick)
    ensures f.enabled ==> OwnedSet(CommitIps(f.ips, pick, pod, true)) != {}
  {
    pick := None;
    if f.enabled {
      forall a | a in f.ips ensures !f.ips[a].InUse() {
        assert a !in OwnedSet(f.ips);
      }
      var a :| a in f.ips && f.ips[a].Allocatable();
      pick := Some(a);
      assert a in OwnedSet(CommitIps(f.ips, pick, pod, true));
    }
  }

  lemma OneGivesAway(c: Config, s: Pool, e: Event)
    requires Enabled(c, s, e) && Disciplined(s, e) && !e.DeleteOk? && !Unowned(Apply(c, s, e))
    ensures GivesAway(c, s, [e])
  {
    assert GivesAway(c, Apply(c, s, e), []);
    GivesAwayAfter(c, s, e, []);
    assert [e] + [] == [e];
  }

  lemma WorkerTakes(c: Config, s: Pool, r: Req, a4: Option<Addr>, a6: Option<Addr>)
    requires Enabled(c, s, WorkerCommit(r, a4, a6, true))
    ensures var t := Apply(c, s, WorkerCommit(r, a4, a6, true));
            && t.v4.ips == CommitIps(s.v4.ips, a4, s.workers[r].pod, true)
            && t.v6.ips == CommitIps(s.v6.ips, a6, s.workers[r].pod, true)
  {
    var pod := s.workers[r].pod;
    SwitchKeepsIps(s.v4.(ips := CommitIps(s.v4.ips, a4, pod, true)), s.cancelled, r);
    SwitchKeepsIps(s.v6.(ips := CommitIps(s.v6.ips, a6, pod, true)), s.cancelled, r);
  }

  /** A live danging job takes what every family serves. */
  lemma ServedGivesAway(c: Config, s: Pool)
    requires Safe(s) && Jobs(s) && Unowned(s) && SomeLiveDanging(s) && Serves(s.v4) && Serves(s.v6)
    ensures exists later :: GivesAway(c, s, later)
  {
    var r := LiveDangingWorks(s);
    var pod := s.workers[r].pod;
    var a4 := PickServed(s.v4, pod);
    var a6 := PickServed(s.v6, pod);
    WorkerTakes(c, s, r, a4, a6);
    OneGivesAway(c, s, WorkerCommit(r, a4, a6, true));
  }

  lemma {:induction false} NewAddress(s: set<Addr>) returns (a: Addr)
    ensures forall x :: x in s ==> x < a
    decreases |s|
  {
    a := 0;
    if s != {} {
      var x :| x in s;
      var b := NewAddress(s - {x});
      a := Max(b, x + 1);
      forall y | y in s ensures y < a {
        assert y == x || y in s - {x};
      }
    }
  }

  /** A family that an answer brings an address to serves, without an owner. */
  lemma AnswerServes(f: Family, cancelled: set<Req>, good: set<Addr>)
    requires OwnedSet(f.ips) == {} && good !! f.ips.Keys && (good != {} || Serves(f))
    ensures var g := ApplyFam(f, cancelled, Answer(|good|, good, None));
            Serves(g) && OwnedSet(g.ips) == {} && g.enabled == f.enabled
  {
    var g := ApplyFam(f, cancelled, Answer(|good|, good, None));
    if good != {} {
      var a :| a in good;
      assert g.ips[a].Allocatable();
    } else if f.enabled {
      var a :| a in f.ips && f.ips[a].Allocatable();
      assert g.ips[a].Allocatable();
    }
  }

  lemma LiveStaysLive(c: Config, s: Pool, e: Event, f: Family, family6: bool, r: Req)
    requires FamJobs(s, f, family6) && Enabled(c, s, e) && (e.Assign4Ok? || e.Assign6Ok?)
    requires r in f.danging && r !in s.cancelled
    ensures r !in NowCancelled(c, s, e)
  {
    CancelledAfter(c, s, e);
    assert r in multiset(f.danging) && Bag(f)[r] == 1;
    assert Wants(s, r, family6);
  }

  lemma DangingStays(c: Config, s: Pool, e: Event)
    requires Enabled(c, s, e) && (e.Assign4Ok? || e.Assign6Ok?)
    ensures forall r :: r in s.v4.danging ==> r in Apply(c, s, e).v4.danging
    ensures forall r :: r in s.v6.danging ==> r in Apply(c, s, e).v6.danging
  {
  }

  /** An answer cancels preheating jobs only, so a live danging job stays one. */
  lemma AnswerKeepsLive(c: Config, s: Pool, e: Event)
    requires Jobs(s) && Enabled(c, s, e) && (e.Assign4Ok? || e.Assign6Ok?) && SomeLiveDanging(s)
    ensures SomeLiveDanging(Apply(c, s, e))
  {
    var r :| (r in s.v4.danging || r in s.v6.danging) && r !in s.cancelled;
    DangingStays(c, s, e);
    if r in s.v4.danging {
      LiveStaysLive(c, s, e, s.v4, false, r);
    } else {
      LiveStaysLive(c, s, e, s.v6, true, r);
    }
  }

  lemma Answer4(c: Config, s: Pool, got: set<Addr>)
    requires s.alloc == Assign4Call(false) && AnswerOk(s.v4, got) && Unowned(s) && (got != {} || Serves(s.v4))
    ensures var t := Apply(c, s, Assign4Ok(got));
            && Unowned(t) && Serves(t.v4) && t.v6 == s.v6
            && (s.v6.asked > 0 ==> t.alloc == Assign6Call(false))
  {
    AnswerServes(s.v4, s.cancelled, got);
  }

  lemma Answer6(c: Config, s: Pool, got: set<Addr>)
    requires s.alloc == Assign6Call(false) && AnswerOk(s.v6, got) && Unowned(s) && (got != {} || Serves(s.v6))
    ensures var t := Apply(c, s, Assign6Ok(got));
            Unowned(t) && Serves(t.v6) && t.v4 == s.v4
  {
    AnswerServes(s.v6, s.cancelled, got);
  }

  /** What an answer keeps of a pool with a live danging job. */
  lemma AnswerKeeps(c: Config, s: Pool, e: Event)
    requires Safe(s) && Jobs(s) && SomeLiveDanging(s) && Enabled(c, s, e) && (e.Assign4Ok? || e.Assign6Ok?)
    ensures Safe(Apply(c, s, e)) && Jobs(Apply(c, s, e)) && SomeLiveDanging(Apply(c, s, e)) && Disciplined(s, e)
  {
    AnswerKeepsLive(c, s, e);
    StepSafe(c, s, e);
    StepJobs(c, s, e);
  }

  /** The set an assign call answers with: one new address if the family has none to give. */
  lemma AnswerFor(f: Family) returns (got: set<Addr>)
    requires Serves(f) || f.asked > 0
    ensures AnswerOk(f, got) && (got != {} || Serves(f))
  {
    got := {};
    if !Serves(f) {
      var a := NewAddress(f.ips.Keys);
      got := {a};
      assert |got| == 1;
    }
  }

  /** As above, where IPv6 addresses may still be on their way. */
  lemma Await6(c: Config, s: Pool)
    requires Safe(s) && Jobs(s) && Unowned(s) && SomeLiveDanging(s) && Serves(s.v4)
    requires Serves(s.v6) || (s.alloc == Assign6Call(false) && s.v6.asked > 0)
    ensures exists later :: GivesAway(c, s, later)
  {
    if Serves(s.v6) {
      ServedGivesAway(c, s);
    } else {
      var got := AnswerFor(s.v6);
      Answer6(c, s, got);
      AnswerKeeps(c, s, Assign6Ok(got));
      ServedGivesAway(c, Apply(c, s, Assign6Ok(got)));
      SomeGivesAway(c, s, Assign6Ok(got));
    }
  }

  lemma SomeGivesAway(c: Config, s: Pool, e: Event)
    requires Enabled(c, s, e) && Disciplined(s, e) && !e.DeleteOk? && exists later :: GivesAway(c, Apply(c, s, e), later)
    ensures exists later :: GivesAway(c, s, later)
  {
    var later :| GivesAway(c, Apply(c, s, e), later);
    GivesAwayAfter(c, s, e, later);
  }

  /** As above, where addresses of both families may be on their way. */
  lemma Await4(c: Config, s: Pool)
    requires Safe(s) && Jobs(s) && Unowned(s) && SomeLiveDanging(s) && Hopeful(s)
    ensures exists later :: GivesAway(c, s, later)
  {
    if s.alloc == Assign4Call(false) {
      var got := AnswerFor(s.v4);
      Answer4(c, s, got);
      AnswerKeeps(c, s, Assign4Ok(got));
      Await6(c, Apply(c, s, Assign4Ok(got)));
      SomeGivesAway(c, s, Assign4Ok(got));
    } else {
      Await6(c, s);
    }
  }

  // Both together.

  /** Exactly when a marked ENI that nobody owns or waits for comes to give an address away. */
  lemma DeletingGainsOwnerIff(c: Config, t: Pool)
    requires Safe(t) && Jobs(t) && Drained(t)
    ensures (exists later :: GivesAway(c, t, later)) <==> SomeLiveDanging(t) && Hopeful(t)
  {
    if SomeLiveDanging(t) && Hopeful(t) {
      Await4(c, t);
    } else {
      forall later | Legal(c, t, later) && DeleteOk !in later ensures !GivesAway(c, t, later) {
        RunSpent(c, t, later);
      }
    }
  }

  lemma Reached(c: Config, s0: Pool, es: seq<Event>)
    requires Start(s0) && Legal(c, s0, es)
    ensures Possible(c, s0, es) && Safe(Exec(c, s0, es)) && Jobs(Exec(c, s0, es))
  {
    RunSafe(c, s0, es);
    assert Bag(s0.v4) == multiset{} && Bag(s0.v6) == multiset{};
    RunJobs(c, s0, es);
  }

  lemma MarkedParts(c: Config, s: Pool)
    requires Enabled(c, s, DisposeEni)
    ensures Apply(c, s, DisposeEni) == s.(v4 := s.v4.(allocating := []), v6 := s.v6.(allocating := []), status := Deleting)
  {
  }

  lemma MarkedIsDrained(c: Config, s: Pool)
    requires Safe(s) && Jobs(s) && Enabled(c, s, DisposeEni)
    ensures var t := Apply(c, s, DisposeEni);
            && Safe(t) && Jobs(t) && Drained(t)
            && (SomeLiveDanging(t) <==> SomeLiveDanging(s)) && (Hopeful(t) <==> Hopeful(s))
  {
    MarkedParts(c, s);
    StepSafe(c, s, DisposeEni);
    StepJobs(c, s, DisposeEni);
  }

  /**
   If no live danging job exists when Dispose marks the ENI Deleting, then through whatever follows, up to
   the reset by a successful delete call, the ENI stays Deleting and none of its addresses gains an owner.
   */
  lemma MarkedEniStaysUnowned(c: Config, s0: Pool, es: seq<Event>, later: seq<Event>)
    requires Start(s0) && Legal(c, s0, es) && Possible(c, s0, es)
    requires Enabled(c, Exec(c, s0, es), DisposeEni) && !SomeLiveDanging(Exec(c, s0, es))
    requires Legal(c, Apply(c, Exec(c, s0, es), DisposeEni), later) && DeleteOk !in later
    ensures Possible(c, Apply(c, Exec(c, s0, es), DisposeEni), later)
    ensures var t := Exec(c, Apply(c, Exec(c, s0, es), DisposeEni), later); t.status == Deleting && Unowned(t)
  {
    Reached(c, s0, es);
    MarkedIsDrained(c, Exec(c, s0, es));
    RunSpent(c, Apply(c, Exec(c, s0, es), DisposeEni), later);
  }

  /**
   Exactly when some run after the mark, short of the reset, gives an address of the ENI an owner: when it is
   marked there is a live danging job, and every enabled family has an address to give or has asked for one
   with an assign call in flight.
   */
  lemma MarkedEniGainsOwnerIff(c: Config, s0: Pool, es: seq<Event>)
    requires Start(s0) && Legal(c, s0, es) && Possible(c, s0, es)
    requires Enabled(c, Exec(c, s0, es), DisposeEni)
    ensures (exists later :: GivesAway(c, Apply(c, Exec(c, s0, es), DisposeEni), later))
            <==> SomeLiveDanging(Exec(c, s0, es)) && Hopeful(Exec(c, s0, es))
  {
    Reached(c, s0, es);
    MarkedIsDrained(c, Exec(c, s0, es));
    DeletingGainsOwnerIff(c, Apply(c, Exec(c, s0, es), DisposeEni));
  }
}
