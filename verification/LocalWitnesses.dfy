/** Concrete runs showing what the pool does when a hypothesis of its safety theorems is dropped. */
module LocalWitnesses {
  import opened Util
  import opened LocalPool
  import opened LocalRuns
  import opened LocalDeleting
  import opened LocalEni
  import opened LocalLoad

  predicate StepsTo(c: Config, s: Pool, e: Event, t: Pool) {
    Enabled(c, s, e) && t == Apply(c, s, e)
  }

  /** `states` are the states a run passes through. */
  predicate Through(c: Config, states: seq<Pool>, es: seq<Event>) {
    && |states| == |es| + 1
    && forall i :: 0 <= i < |es| ==> StepsTo(c, states[i], es[i], states[i + 1])
  }

  lemma {:induction false} ThroughExec(c: Config, states: seq<Pool>, es: seq<Event>)
    requires Through(c, states, es)
    ensures Possible(c, states[0], es) && Exec(c, states[0], es) == states[|es|]
    decreases |es|
  {
    if es != [] {
      assert StepsTo(c, states[0], es[0], states[1]);
      ThroughExec(c, states[1..], es[1..]);
    }
  }

  lemma {:induction false} ThroughLegal(c: Config, states: seq<Pool>, es: seq<Event>)
    requires Through(c, states, es) && forall i :: 0 <= i < |es| ==> Disciplined(states[i], es[i])
    ensures Legal(c, states[0], es)
    decreases |es|
  {
    if es != [] {
      assert StepsTo(c, states[0], es[0], states[1]);
      ThroughLegal(c, states[1..], es[1..]);
    }
  }

  const CONFIG: Config := Config(1, 10, true)

  const NO_FAMILY: Family := Family(false, map[], [], [], 0, {})

  /** A pool with one IPv4 family, holding address 5 at most. */
  function OnlyV4(ips: IPSet, allocating: seq<Req>, danging: seq<Req>, asked: nat, eni: Option<Eni>, status: EniStatus): Pool {
    Pool(Family(true, ips, allocating, danging, asked, {}), NO_FAMILY, eni, status, map[], {}, map[], AllocIdle, DisposeIdle)
  }

  function FiveOf(pod: PodId): IPSet {
    map[5 := IP(false, pod, IpValid)]
  }

  lemma FreeFivePeeks(pod: PodId)
    requires pod != NO_POD
    ensures Peeks(FiveOf(NO_POD), pod, 5)
  {
  }

  const ENI: Option<Eni> := Some(Eni(7, false))
  const JOB: map<Req, Worker> := map[1 := Worker("p", false, true, false)]

  const D0: Pool := OnlyV4(map[], [], [], 0, None, Init)
  const D1: Pool := OnlyV4(map[], [1], [], 0, None, Init).(workers := JOB)
  const D2: Pool := D1.(alloc := AllocSleeping)
  const D3: Pool := OnlyV4(map[], [1], [], 1, None, Creating).(workers := JOB, alloc := CreateCall)
  const D4: Pool := OnlyV4(FiveOf(NO_POD), [], [1], 0, ENI, InUse).(workers := JOB)
  const D5: Pool := D4.(status := Deleting)
  const D6: Pool := D5.(dispose := DeleteCall)
  const D7: Pool := OnlyV4(FiveOf("p"), [], [1], 0, ENI, Deleting).(dispose := DeleteCall, cancelled := {1})
  const D8: Pool := OnlyV4(map[], [], [1], 0, None, Init).(cancelled := {1})

  const DANGING_RUN: seq<Event> :=
    [Enqueue(1, "p", false, true, false), FallAsleep, WakeCreate, CreateOk(Eni(7, false), {5}, {}, Some(9)),
     DisposeEni, DeleteStart, WorkerCommit(1, Some(5), None, true), DeleteOk]

  lemma DangingQueues()
    ensures StepsTo(CONFIG, D0, DANGING_RUN[0], D1) && StepsTo(CONFIG, D1, DANGING_RUN[1], D2)
  {
  }

  lemma DangingCreates()
    ensures StepsTo(CONFIG, D2, DANGING_RUN[2], D3)
  {
  }

  lemma DangingCreated()
    ensures StepsTo(CONFIG, D3, DANGING_RUN[3], D4)
  {
    assert PutIps(map[], {5}, IpValid, Some(9)) == FiveOf(NO_POD);
    assert D4.v4 == Answered(D3.v4, 1, {5}, Some(9));
    assert D4.v6 == Answered(D3.v6, CreatePop6(D3, {}), {}, None);
    assert Preheating(JOB, [1]) == {} && Preheating(JOB, []) == {};
    CreateEffect(CONFIG, D3, D4, DANGING_RUN[3]);
    LeadsIsStep(CONFIG, D3, DANGING_RUN[3], D4);
  }

  lemma DangingMarked()
    ensures StepsTo(CONFIG, D4, DANGING_RUN[4], D5) && StepsTo(CONFIG, D5, DANGING_RUN[5], D6)
  {
  }

  lemma DangingTaken()
    ensures StepsTo(CONFIG, D6, DANGING_RUN[6], D7)
  {
    FreeFivePeeks("p");
  }

  lemma DangingDeleted()
    ensures StepsTo(CONFIG, D7, DANGING_RUN[7], D8)
  {
  }

  lemma DangingThrough()
    ensures Through(CONFIG, [D0, D1, D2, D3, D4, D5, D6, D7, D8], DANGING_RUN)
  {
    DangingQueues();
    DangingCreates();
    DangingCreated();
    DangingMarked();
    DangingTaken();
    DangingDeleted();
  }

  lemma DangingStart()
    ensures Start(D0)
  {
  }

  lemma DangingDisciplined()
    ensures forall i :: 0 <= i < 8 ==> Disciplined([D0, D1, D2, D3, D4, D5, D6, D7, D8][i], DANGING_RUN[i])
  {
  }

  /**
   A legal run in which Dispose marks an ENI whose only job is danging: the job's worker then takes the
   address and answers its pod, and the delete call already in flight removes the ENI under it.
   */
  lemma DangingJobLosesItsEni()
    ensures Start(D0) && Legal(CONFIG, D0, DANGING_RUN) && Possible(CONFIG, D0, DANGING_RUN)
    ensures Through(CONFIG, [D0, D1, D2, D3, D4, D5, D6, D7, D8], DANGING_RUN)
    ensures D5.status == Deleting && OwnedSet(D5.v4.ips) == {} && Owns(D7.v4.ips, "p", 5)
    ensures Exec(CONFIG, D0, DANGING_RUN).eni.None?
  {
    DangingThrough();
    DangingStart();
    DangingDisciplined();
    ThroughExec(CONFIG, [D0, D1, D2, D3, D4, D5, D6, D7, D8], DANGING_RUN);
    ThroughLegal(CONFIG, [D0, D1, D2, D3, D4, D5, D6, D7, D8], DANGING_RUN);
  }

  const ROOMY: Config := Config(3, 10, true)

  function FreeIp(status: IpStatus): IP {
    IP(false, NO_POD, status)
  }

  /** A pool of both families on one ENI. */
  function Dual(v4: Family, v6: Family, workers: map<Req, Worker>, cancelled: set<Req>, alloc: AllocCall): Pool {
    Pool(v4, v6, ENI, InUse, workers, cancelled, map[], alloc, DisposeIdle)
  }

  const ONE4: IPSet := map[1 := FreeIp(IpValid)]
  const TWO4: IPSet := ONE4[2 := FreeIp(IpValid)]
  const STALE6: IPSet := map[10 := FreeIp(IpInvalid)]
  const NEW6: IPSet := STALE6[11 := FreeIp(IpValid)]

  const POD_JOB: map<Req, Worker> := map[1 := Worker("p", false, false, true)]
  const TWO_JOBS: map<Req, Worker> := POD_JOB[2 := Worker("", true, true, true)]

  const IDLE4: Family := Family(true, ONE4, [], [], 0, {})

  const A0: Pool := Dual(IDLE4, Family(true, map[], [], [], 0, {}), map[], {}, AllocIdle)
  const A1: Pool := Dual(IDLE4, Family(true, map[], [1], [], 0, {}), POD_JOB, {}, AllocIdle)
  const A2: Pool := A1.(alloc := AllocSleeping)
  const A3: Pool := Dual(IDLE4, Family(true, map[], [1], [], 1, {}), POD_JOB, {}, Assign6Call(false))
  const A4: Pool := Dual(IDLE4, Family(true, map[10 := FreeIp(IpValid)], [], [1], 0, {}), POD_JOB, {}, AllocIdle)
  const A5: Pool := Dual(IDLE4, Family(true, STALE6, [], [1], 0, {}), POD_JOB, {}, AllocIdle)
  const A6: Pool := Dual(Family(true, ONE4, [2], [], 0, {}), Family(true, STALE6, [2], [1], 0, {}), TWO_JOBS, {}, AllocIdle)
  const A7: Pool := A6.(alloc := AllocSleeping)
  const A8: Pool :=
    Dual(Family(true, ONE4, [2], [], 1, {}), Family(true, STALE6, [2], [1], 1, {}), TWO_JOBS, {}, Assign4Call(false))
  const A9: Pool :=
    Dual(Family(true, TWO4, [], [2], 0, {}), Family(true, STALE6, [2], [1], 1, {}), TWO_JOBS, {2}, Assign6Call(false))
  const A10: Pool := A9.(v6 := Family(true, STALE6, [], [1], 1, {}), status := Deleting)
  const A11: Pool := A10.(dispose := DeleteCall)
  const A12: Pool := A11.(v6 := Family(true, NEW6, [], [1], 0, {}), alloc := AllocIdle)
  const A13: Pool :=
    A12.(v4 := A12.v4.(ips := TWO4[1 := IP(false, "p", IpValid)]), v6 := A12.v6.(ips := NEW6[11 := IP(false, "p", IpValid)]),
         workers := map[2 := Worker("", true, true, true)], cancelled := {1, 2})

  /** A legal run from one state to another. */
  ghost predicate Reaches(c: Config, s: Pool, es: seq<Event>, t: Pool) {
    Legal(c, s, es) && Possible(c, s, es) && Exec(c, s, es) == t
  }

  /** A step that the callers' discipline allows. */
  predicate GoesTo(c: Config, s: Pool, e: Event, t: Pool) {
    StepsTo(c, s, e, t) && Disciplined(s, e)
  }

  lemma ReachesFirst(c: Config, s: Pool, e: Event, t: Pool, es: seq<Event>, u: Pool)
    requires GoesTo(c, s, e, t) && Reaches(c, t, es, u)
    ensures Reaches(c, s, [e] + es, u)
  {
    assert ([e] + es)[1..] == es;
  }

  lemma ReachesTwo(c: Config, s0: Pool, e0: Event, s1: Pool, e1: Event, s2: Pool)
    requires GoesTo(c, s0, e0, s1) && GoesTo(c, s1, e1, s2)
    ensures Reaches(c, s0, [e0, e1], s2)
  {
    assert Reaches(c, s2, [], s2);
    ReachesFirst(c, s1, e1, s2, [], s2);
    ReachesFirst(c, s0, e0, s1, [e1] + [], s2);
    assert [e0] + ([e1] + []) == [e0, e1];
  }

  lemma {:induction false} ReachesAppend(c: Config, s: Pool, es: seq<Event>, t: Pool, fs: seq<Event>, u: Pool)
    requires Reaches(c, s, es, t) && Reaches(c, t, fs, u)
    ensures Reaches(c, s, es + fs, u)
    decreases |es|
  {
    if es == [] {
      assert es + fs == fs;
    } else {
      assert (es + fs)[1..] == es[1..] + fs;
      ReachesAppend(c, Apply(c, s, es[0]), es[1..], t, fs, u);
    }
  }

  lemma ReachesFour(c: Config, s: Pool, e0: Event, e1: Event, t: Pool, e2: Event, e3: Event, u: Pool)
    requires Reaches(c, s, [e0, e1], t) && Reaches(c, t, [e2, e3], u)
    ensures Reaches(c, s, [e0, e1, e2, e3], u)
  {
    ReachesAppend(c, s, [e0, e1], t, [e2, e3], u);
    assert [e0, e1] + [e2, e3] == [e0, e1, e2, e3];
  }

  const QUEUE: Event := Enqueue(1, "p", false, false, true)
  const BRING: Event := Assign6Ok({10})
  const FORGET: Event := SyncRemote({1}, {})
  const PREHEAT: Event := Enqueue(2, "", true, true, true)
  const FILL: Event := Assign4Ok({2})
  const ARRIVE: Event := Assign6Ok({11})
  const TAKE: Event := WorkerCommit(1, Some(1), Some(11), true)

  lemma AssignQueues()
    ensures StepsTo(ROOMY, A0, QUEUE, A1) && StepsTo(ROOMY, A1, FallAsleep, A2)
  {
    assert A0.v4.ips[1].Allocatable();
    assert Peeks(ONE4, "p", 1);
  }

  lemma LeadsIsStep(c: Config, s: Pool, e: Event, t: Pool)
    requires Leads(c, s, [e], t)
    ensures StepsTo(c, s, e, t)
  {
    LeadsOne(c, s, e);
  }

  lemma AnsweredNobody(f: Family, a: Addr)
    requires f.allocating == [] && a !in f.ips
    ensures Answered(f, 1, {a}, None) == f.(ips := f.ips[a := FreeIp(IpValid)], asked := 0)
  {
    assert PutIps(f.ips, {a}, IpValid, None) == f.ips[a := FreeIp(IpValid)];
  }

  lemma AnsweredOne(f: Family, a: Addr, r: Req)
    requires f.allocating == [r] && a !in f.ips
    ensures Answered(f, 1, {a}, None) ==
            f.(ips := f.ips[a := FreeIp(IpValid)], allocating := [], danging := f.danging + [r], asked := 0)
  {
    assert PutIps(f.ips, {a}, IpValid, None) == f.ips[a := FreeIp(IpValid)];
  }

  lemma OneAnswer(a: Addr)
    ensures |{a}| == 1
  {
  }

  lemma AssignAsks()
    ensures StepsTo(ROOMY, A2, WakeAssign, A3)
  {
    WakeAssignEffect(ROOMY, A2, A3);
    LeadsIsStep(ROOMY, A2, WakeAssign, A3);
  }

  lemma AssignAnswers()
    ensures StepsTo(ROOMY, A3, BRING, A4)
  {
    AnsweredOne(A3.v6, 10, 1);
    OneAnswer(10);
    assert Preheating(POD_JOB, [1]) == {};
    Assign6OkEffect(ROOMY, A3, A4, BRING);
    LeadsIsStep(ROOMY, A3, BRING, A4);
  }

  lemma AssignSyncs()
    ensures StepsTo(ROOMY, A4, FORGET, A5)
  {
    assert ReconcileIps(map[10 := FreeIp(IpValid)], {}) == STALE6;
    assert ReconcileIps(ONE4, {1}) == ONE4;
  }

  lemma PreheatQueues()
    ensures StepsTo(ROOMY, A5, PREHEAT, A6) && StepsTo(ROOMY, A6, FallAsleep, A7)
  {
    assert |ONE4| == 1 && |STALE6| == 1;
  }

  lemma PreheatAsks()
    ensures StepsTo(ROOMY, A7, WakeAssign, A8)
  {
    WakeAssignEffect(ROOMY, A7, A8);
    LeadsIsStep(ROOMY, A7, WakeAssign, A8);
  }

  lemma PreheatAnswers()
    ensures StepsTo(ROOMY, A8, FILL, A9)
  {
    AnsweredOne(A8.v4, 2, 2);
    OneAnswer(2);
    assert Preheating(TWO_JOBS, [2]) == {2};
    Assign4OkEffect(ROOMY, A8, A9, FILL);
    LeadsIsStep(ROOMY, A8, FILL, A9);
  }

  lemma AssignMarked()
    ensures StepsTo(ROOMY, A9, DisposeEni, A10) && StepsTo(ROOMY, A10, DeleteStart, A11)
  {
    assert OwnedSet(TWO4) == {} && OwnedSet(STALE6) == {};
  }

  lemma AssignArrives()
    ensures StepsTo(ROOMY, A11, ARRIVE, A12)
  {
    AnsweredNobody(A11.v6, 11);
    OneAnswer(11);
    assert Preheating(TWO_JOBS, [1]) == {};
    Assign6OkEffect(ROOMY, A11, A12, ARRIVE);
    LeadsIsStep(ROOMY, A11, ARRIVE, A12);
  }

  lemma AssignAtHand()
    ensures Enabled(ROOMY, A12, TAKE)
  {
    assert !OwnsSome(TWO4, "p") && !OwnsSome(NEW6, "p");
    assert Peeks(TWO4, "p", 1) && Peeks(NEW6, "p", 11);
  }

  lemma AssignTaken()
    ensures StepsTo(ROOMY, A12, TAKE, A13)
  {
    AssignAtHand();
    assert TWO_JOBS - {1} == map[2 := Worker("", true, true, true)];
    TakeEffect(ROOMY, A12, A13, TAKE);
    LeadsIsStep(ROOMY, A12, TAKE, A13);
  }

  lemma PodIsNotOutstanding()
    ensures Disciplined(A0, QUEUE) && Disciplined(A5, PREHEAT)
  {
  }

  /** The pod's job is served. */
  lemma JobServed()
    ensures Reaches(ROOMY, A0, [QUEUE, FallAsleep, WakeAssign, BRING], A4)
  {
    PodIsNotOutstanding();
    AssignQueues();
    AssignAsks();
    AssignAnswers();
    ReachesTwo(ROOMY, A0, QUEUE, A1, FallAsleep, A2);
    ReachesTwo(ROOMY, A2, WakeAssign, A3, BRING, A4);
    ReachesFour(ROOMY, A0, QUEUE, FallAsleep, A2, WakeAssign, BRING, A4);
  }

  /** Its address is forgotten by the remote side, and a preheating request starts a batch. */
  lemma PreheatStarted()
    ensures Reaches(ROOMY, A4, [FORGET, PREHEAT, FallAsleep, WakeAssign], A8)
  {
    PodIsNotOutstanding();
    AssignSyncs();
    PreheatQueues();
    PreheatAsks();
    ReachesTwo(ROOMY, A4, FORGET, A5, PREHEAT, A6);
    ReachesTwo(ROOMY, A6, FallAsleep, A7, WakeAssign, A8);
    ReachesFour(ROOMY, A4, FORGET, PREHEAT, A6, FallAsleep, WakeAssign, A8);
  }

  /** The IPv4 half arrives, the ENI is marked, its deletion starts, and the IPv6 half arrives. */
  lemma MarkedBetween()
    ensures Reaches(ROOMY, A8, [FILL, DisposeEni, DeleteStart, ARRIVE], A12)
  {
    PreheatAnswers();
    AssignMarked();
    AssignArrives();
    ReachesTwo(ROOMY, A8, FILL, A9, DisposeEni, A10);
    ReachesTwo(ROOMY, A10, DeleteStart, A11, ARRIVE, A12);
    ReachesFour(ROOMY, A8, FILL, DisposeEni, A10, DeleteStart, ARRIVE, A12);
  }

  lemma AssignStart()
    ensures Start(A0)
  {
  }

  lemma MarkedWithoutAddress()
    ensures !Serves(A9.v6) && SomeLiveDanging(A9) && Hopeful(A9)
  {
    assert 1 in A9.v6.danging && 1 !in A9.cancelled;
    assert A9.v4.ips[1].Allocatable();
  }

  /**
   A legal run, part by part, in which the marked ENI has no IPv6 address to give but an assign call in flight
   brings one: a danging job then takes it, with the delete call for the ENI already in flight.
   */
  lemma AssignInFlightGivesAway()
    ensures Start(A0)
    ensures Reaches(ROOMY, A0, [QUEUE, FallAsleep, WakeAssign, BRING], A4)
    ensures Reaches(ROOMY, A4, [FORGET, PREHEAT, FallAsleep, WakeAssign], A8)
    ensures Reaches(ROOMY, A8, [FILL, DisposeEni, DeleteStart, ARRIVE], A12) && StepsTo(ROOMY, A9, DisposeEni, A10)
    ensures StepsTo(ROOMY, A12, TAKE, A13) && Disciplined(A12, TAKE)
    ensures !Serves(A9.v6) && SomeLiveDanging(A9) && Hopeful(A9)
    ensures A13.dispose == DeleteCall && Owns(A13.v4.ips, "p", 1) && Owns(A13.v6.ips, "p", 11)
  {
    AssignStart();
    JobServed();
    PreheatStarted();
    MarkedBetween();
    AssignMarked();
    AssignTaken();
    MarkedWithoutAddress();
  }

  const SKIPPED: Record := Record("p", Some(4), Some(6))

  /** A pool with both families loaded, nothing running on it. */
  function Loaded(ips4: IPSet, ips6: IPSet): Pool {
    Dual(Family(true, ips4, [], [], 0, {}), Family(true, ips6, [], [], 0, {}), map[], {}, AllocIdle)
  }

  lemma NobodyOwns(ips4: IPSet, ips6: IPSet)
    requires LoadedSet(ips4, {1}, Some(1), 3) && LoadedSet(ips6, {6}, None, 3) && LoadedOwners(ips4, ips6, [SKIPPED])
    ensures ips4 == map[1 := IP(true, NO_POD, IpValid)] && ips6 == map[6 := IP(false, NO_POD, IpValid)]
  {
    assert |{1}| == 1 && |{6}| == 1;
    assert Restored(ips4, ips6, [SKIPPED][0]);
    assert !RecordedOwner([SKIPPED], 1, ips4.Keys, ips4[1].pod, 1, false);
  }

  /**
   A stored record whose IPv4 address has left the ENI loses its IPv6 address too, which the next allocation
   gives to another pod.
   */
  lemma SkippedRecordLosesIpv6(ips4: IPSet, ips6: IPSet)
    requires LoadedSet(ips4, {1}, Some(1), 3) && LoadedSet(ips6, {6}, None, 3) && LoadedOwners(ips4, ips6, [SKIPPED])
    ensures DistinctRecords([SKIPPED]) && !Owns(ips6, "p", 6)
    ensures Start(Loaded(ips4, ips6))
    ensures Enabled(ROOMY, Loaded(ips4, ips6), Direct(1, "q", Some(1), Some(6)))
    ensures Disciplined(Loaded(ips4, ips6), Direct(1, "q", Some(1), Some(6)))
    ensures Owns(Apply(ROOMY, Loaded(ips4, ips6), Direct(1, "q", Some(1), Some(6))).v6.ips, "q", 6)
  {
    NobodyOwns(ips4, ips6);
    assert Peeks(ips4, "q", 1) && Peeks(ips6, "q", 6);
  }

  const H0: Pool := OnlyV4(FiveOf(NO_POD), [], [], 0, ENI, InUse)
  const H1: Pool := OnlyV4(FiveOf("p"), [], [], 0, ENI, InUse).(commits := map[1 := Commit("p", Some(5), None)])
  const H2: Pool := H0.(commits := H1.commits)
  const H3: Pool := OnlyV4(FiveOf("q"), [], [], 0, ENI, InUse).(commits := H1.commits[2 := Commit("q", Some(5), None)])
  const H4: Pool := OnlyV4(FiveOf("p"), [], [], 0, ENI, InUse).(commits := map[2 := Commit("q", Some(5), None)])

  const HANDOVER_RUN: seq<Event> :=
    [Direct(1, "p", Some(5), None), ReleasePod("p", Some(5), None), Direct(2, "q", Some(5), None), CommitDirect(1, true)]

  lemma HandoverStarts()
    ensures StepsTo(CONFIG, H0, HANDOVER_RUN[0], H1) && StepsTo(CONFIG, H1, HANDOVER_RUN[1], H2)
  {
    FreeFivePeeks("p");
  }

  lemma HandoverEnds()
    ensures StepsTo(CONFIG, H2, HANDOVER_RUN[2], H3) && StepsTo(CONFIG, H3, HANDOVER_RUN[3], H4)
  {
    FreeFivePeeks("q");
  }

  lemma HandoverThrough()
    ensures Through(CONFIG, [H0, H1, H2, H3, H4], HANDOVER_RUN) && Start(H0)
  {
    HandoverStarts();
    HandoverEnds();
  }

  lemma HandoverDiscipline()
    ensures Disciplined(H0, HANDOVER_RUN[0]) && !Disciplined(H1, HANDOVER_RUN[1])
    ensures Disciplined(H2, HANDOVER_RUN[2]) && Disciplined(H3, HANDOVER_RUN[3])
  {
    assert H1.commits[1].pod == "p";
  }

  lemma HandoverSeen()
    ensures Owns(H3.v4.ips, "q", 5) && Owns(H4.v4.ips, "p", 5) && !NoHandover(H3.v4.ips, H4.v4.ips)
  {
    assert H3.v4.ips[5].pod == "q" && H4.v4.ips[5].pod == "p";
  }

  /**
   Why the callers' discipline is needed: a release that overtakes the pod's own pending commit lets the
   address go to a second pod, from which the commit takes it straight back.
   */
  lemma ReleaseOvertakingCommitHandsOver()
    ensures Start(H0) && Possible(CONFIG, H0, HANDOVER_RUN) && Through(CONFIG, [H0, H1, H2, H3, H4], HANDOVER_RUN)
    ensures Disciplined(H0, HANDOVER_RUN[0]) && !Disciplined(H1, HANDOVER_RUN[1])
    ensures Disciplined(H2, HANDOVER_RUN[2]) && Disciplined(H3, HANDOVER_RUN[3])
    ensures Owns(H3.v4.ips, "q", 5) && Owns(H4.v4.ips, "p", 5) && !NoHandover(H3.v4.ips, H4.v4.ips)
  {
    HandoverThrough();
    HandoverDiscipline();
    HandoverSeen();
    ThroughExec(CONFIG, [H0, H1, H2, H3, H4], HANDOVER_RUN);
  }
}
