/** Returning idle addresses (pkg/eni/manager.go): how many per pass, how often, and what a pass leaves. */
module Reclaim {
  import opened Util
  import opened LocalPool
  import opened LocalLoops
  import opened LocalEni

  type Time = int

  datatype Policy = Policy(minIdles: int, maxIdles: int, batch: int, interval: int, after: int)

  /** When the pool last changed, and when the next extra reclaim is due, if that is set. */
  datatype Clock = Clock(lastModified: Time, next: Option<Time>)

  /** The readings of the clock during one call, and the jittered interval it draws. */
  datatype Readings = Readings(first: Time, second: Time, third: Time, jittered: int)

  predicate InOrder(p: Policy, r: Readings) {
    r.first <= r.second <= r.third && r.jittered >= p.interval
  }

  /** Does this call reach the extra reclaim? */
  predicate Extra(p: Policy, k: Clock, r: Readings) {
    && p.after != 0 && p.batch != 0
    && k.lastModified + p.after <= r.first
    && k.next.Some? && k.next.value <= r.second
  }

  function ToDel(p: Policy, idles: int, extra: bool): int {
    var over := idles - p.maxIdles;
    if !extra then over
    else Max(0, over) + Min(p.batch, Max(0, idles - Max(0, over) - p.minIdles))
  }

  function Advance(p: Policy, k: Clock, r: Readings): Clock {
    if p.after == 0 || p.batch == 0 then k
    else if k.lastModified + p.after > r.first then k.(next := None)
    else if k.next.None? then k.(next := Some(r.second + r.jittered))
    else if k.next.value > r.second then k
    else k.(next := Some(r.third + r.jittered))
  }

  /** However the pass was decided, it takes no more than leaves `minIdles`, and at most one batch extra. */
  lemma ToDelLeavesMin(p: Policy, idles: nat, extra: bool)
    requires p.minIdles <= p.maxIdles
    ensures ToDel(p, idles, extra) > 0 ==> idles - ToDel(p, idles, extra) >= p.minIdles
    ensures extra && p.batch >= 0 ==> Max(0, idles - p.maxIdles) <= ToDel(p, idles, extra) <= Max(0, idles - p.maxIdles) + p.batch
  {
  }

  datatype ClockEvent = Touched(at: Time) | Called(r: Readings)

  function Start(e: ClockEvent): Time {
    match e case Touched(at) => at case Called(r) => r.first
  }

  function End(e: ClockEvent): Time {
    match e case Touched(at) => at case Called(r) => r.third
  }

  function AfterEvent(p: Policy, k: Clock, e: ClockEvent): Clock {
    match e
    case Touched(at) => k.(lastModified := at)
    case Called(r) => Advance(p, k, r)
  }

  function AfterEvents(p: Policy, k: Clock, es: seq<ClockEvent>): Clock
    decreases |es|
  {
    if es == [] then k else AfterEvents(p, AfterEvent(p, k, es[0]), es[1..])
  }

  /** The clock does not run backwards. */
  predicate Monotone(p: Policy, es: seq<ClockEvent>) {
    && (forall i :: 0 <= i < |es| && es[i].Called? ==> InOrder(p, es[i].r))
    && (forall i, j :: 0 <= i < j < |es| ==> End(es[i]) <= Start(es[j]))
  }

  /** Once an extra reclaim ran at `t`, no due time earlier than `t + interval` is ever set. */
  lemma {:induction false} DueLater(p: Policy, k: Clock, es: seq<ClockEvent>, t: Time)
    requires Monotone(p, es) && (forall i :: 0 <= i < |es| ==> t <= Start(es[i]))
    requires k.next.Some? ==> t + p.interval <= k.next.value
    ensures var after := AfterEvents(p, k, es); after.next.Some? ==> t + p.interval <= after.next.value
    decreases |es|
  {
    if es != [] {
      DueLater(p, AfterEvent(p, k, es[0]), es[1..], t);
    }
  }

  /** Every event of the run lies between two times. */
  predicate Between(es: seq<ClockEvent>, lo: Time, hi: Time) {
    forall i :: 0 <= i < |es| ==> lo <= Start(es[i]) && End(es[i]) <= hi
  }

  /**
   Over any run with a monotone clock, two calls that reach the extra reclaim are at least `interval` apart,
   whatever other calls and pool changes come between them.
   */
  lemma ExtraReclaimsSpaced(p: Policy, k: Clock, r1: Readings, between: seq<ClockEvent>, r2: Readings)
    requires InOrder(p, r1) && InOrder(p, r2) && r1.third <= r2.first
    requires Monotone(p, between) && Between(between, r1.third, r2.first)
    requires Extra(p, k, r1) && Extra(p, AfterEvents(p, Advance(p, k, r1), between), r2)
    ensures r2.second - r1.second >= p.interval
  {
    DueLater(p, Advance(p, k, r1), between, r1.third);
  }

  /** No call reaches the extra reclaim within `after` of the last pool change before it. */
  lemma NoExtraSoonAfterChange(p: Policy, k: Clock, es: seq<ClockEvent>, i: nat, r: Readings)
    requires i < |es| && es[i].Touched? && (forall j :: i < j < |es| ==> es[j].Called?)
    requires Extra(p, AfterEvents(p, k, es), r)
    ensures es[i].at + p.after <= r.first
  {
    LastTouchCounts(p, k, es, i);
  }

  lemma {:induction false} LastTouchCounts(p: Policy, k: Clock, es: seq<ClockEvent>, i: nat)
    requires i < |es| && es[i].Touched? && (forall j :: i < j < |es| ==> es[j].Called?)
    ensures AfterEvents(p, k, es).lastModified == es[i].at
    decreases |es|
  {
    if i == 0 {
      CallsKeepTouch(p, AfterEvent(p, k, es[0]), es[1..]);
    } else {
      LastTouchCounts(p, AfterEvent(p, k, es[0]), es[1..], i - 1);
    }
  }

  lemma {:induction false} CallsKeepTouch(p: Policy, k: Clock, es: seq<ClockEvent>)
    requires forall j :: 0 <= j < |es| ==> es[j].Called?
    ensures AfterEvents(p, k, es).lastModified == k.lastModified
    decreases |es|
  {
    if es != [] {
      CallsKeepTouch(p, AfterEvent(p, k, es[0]), es[1..]);
    }
  }

  /** Every idle address of the pool is Valid. */
  predicate IdleValid(s: Pool) {
    && (forall a :: a in IdleSet(s.v4.ips) ==> s.v4.ips[a].status == IpValid)
    && (forall a :: a in IdleSet(s.v6.ips) ==> s.v6.ips[a].status == IpValid)
  }

  /** The idle addresses a family loses: those newly Deleting, or all of them with the ENI. */
  function Lost(before: IPSet, after: IPSet, eniGone: bool): set<Addr> {
    set a | a in IdleSet(before) && (eniGone || (a in after && after[a].status == IpDeleting && before[a].status != IpDeleting))
  }

  predicate EniGone(s: Pool, t: Pool) {
    s.status == InUse && t.status == Deleting
  }

  /** Idle addresses of the counted family that stay. */
  function CountedLeft(s: Pool): nat {
    if s.eni.None? || s.status != InUse then 0
    else |Disposable(Counted(s))|
  }

  /** Owned addresses, and a primary address of an ENI that stays, are as before. */
  predicate Spared(before: IPSet, after: IPSet, eniGone: bool) {
    && before.Keys == after.Keys
    && forall a :: a in before && (before[a].InUse() || (before[a].primary && !eniGone)) ==> after[a] == before[a]
  }

  /** What a reclaim of at most `k` addresses does to one ENI. */
  predicate Reclaimed(s: Pool, t: Pool, k: int) {
    && 0 <= k
    && Spared(s.v4.ips, t.v4.ips, EniGone(s, t)) && Spared(s.v6.ips, t.v6.ips, EniGone(s, t))
    && |Lost(s.v4.ips, t.v4.ips, EniGone(s, t))| <= k && |Lost(s.v6.ips, t.v6.ips, EniGone(s, t))| <= k
    && CountedLeft(t) + k >= CountedIdle(s)
  }

  lemma RetireLoses(ips: IPSet, n: nat, gone: set<Addr>)
    requires DisposeSpec(ips, n, gone) && forall a :: a in IdleSet(ips) ==> ips[a].status == IpValid
    ensures Lost(ips, RetireIps(ips, gone), false) == gone && |gone| <= Min(|IdleSet(ips)|, n)
    ensures Spared(ips, RetireIps(ips, gone), false)
    ensures |Disposable(RetireIps(ips, gone))| + Min(|IdleSet(ips)|, n) >= |IdleSet(ips)|
  {
    DisposeSpecIdle(ips, n, gone);
    assert InvalidIdle(ips) == {};
    assert gone - InvalidIdle(ips) == gone;
    assert Disposable(RetireIps(ips, gone)) == IdleSet(ips) - gone;
    MinusCard(IdleSet(ips), gone);
  }

  lemma MinusCard(a: set<Addr>, b: set<Addr>)
    requires b <= a
    ensures |a - b| == |a| - |b|
  {
    assert a == (a - b) + b;
  }

  lemma NothingReclaimed(s: Pool)
    requires s.eni.None? || s.status != InUse
    ensures Reclaimed(s, s, 0)
  {
    assert Lost(s.v4.ips, s.v4.ips, false) == {} && Lost(s.v6.ips, s.v6.ips, false) == {};
  }

  lemma EniReclaimed(s: Pool, t: Pool)
    requires EniGone(s, t) && t.v4.ips == s.v4.ips && t.v6.ips == s.v6.ips
    ensures Reclaimed(s, t, Max(|s.v4.ips|, |s.v6.ips|))
  {
    SubsetCard(Lost(s.v4.ips, t.v4.ips, true), s.v4.ips.Keys);
    SubsetCard(Lost(s.v6.ips, t.v6.ips, true), s.v6.ips.Keys);
    SubsetCard(IdleSet(Counted(s)), Counted(s).Keys);
  }

  lemma AddressesReclaimed(s: Pool, t: Pool, n: nat, gone4: set<Addr>, gone6: set<Addr>)
    requires s.eni.Some? && s.status == InUse && t.status == InUse && t.eni == s.eni && IdleValid(s)
    requires t.v4.enabled == s.v4.enabled && t.v6.enabled == s.v6.enabled
    requires DisposeSpec(s.v4.ips, n, gone4) && t.v4.ips == RetireIps(s.v4.ips, gone4)
    requires DisposeSpec(s.v6.ips, n, gone6) && t.v6.ips == RetireIps(s.v6.ips, gone6)
    ensures Reclaimed(s, t, Max(Min(|IdleSet(s.v4.ips)|, n), Min(|IdleSet(s.v6.ips)|, n)))
  {
    RetireLoses(s.v4.ips, n, gone4);
    RetireLoses(s.v6.ips, n, gone6);
    CountedAfterRetire(s, t, n, gone4, gone6);
  }

  /** One Dispose call reclaims no more than it reports, and reports no more than it was asked for. */
  lemma DisposeReclaims(c: Config, s: Pool, n: nat, t: Pool, k: int, gone4: set<Addr>, gone6: set<Addr>)
    requires DisposeResult(c, s, n, t, k, gone4, gone6) && IdleValid(s)
    ensures Reclaimed(s, t, k) && k <= n
  {
    if s.eni.None? || s.status != InUse {
      NothingReclaimed(s);
    } else if n >= Max(|s.v4.ips|, |s.v6.ips|) && CanDispose(c, s) {
      EniReclaimed(s, t);
    } else {
      AddressesReclaimed(s, t, n, gone4, gone6);
    }
  }

  lemma CountedAfterRetire(s: Pool, t: Pool, n: nat, gone4: set<Addr>, gone6: set<Addr>)
    requires s.eni.Some? && s.status == InUse && t.status == InUse && t.eni == s.eni && IdleValid(s)
    requires t.v4.enabled == s.v4.enabled && t.v6.enabled == s.v6.enabled
    requires DisposeSpec(s.v4.ips, n, gone4) && t.v4.ips == RetireIps(s.v4.ips, gone4)
    requires DisposeSpec(s.v6.ips, n, gone6) && t.v6.ips == RetireIps(s.v6.ips, gone6)
    ensures CountedLeft(t) + Max(Min(|IdleSet(s.v4.ips)|, n), Min(|IdleSet(s.v6.ips)|, n)) >= CountedIdle(s)
  {
    if s.v4.enabled {
      RetireLoses(s.v4.ips, n, gone4);
    } else if s.v6.enabled {
      RetireLoses(s.v6.ips, n, gone6);
    } else {
      assert IdleSet(map[]) == {};
    }
  }

  function SumIdle(pools: seq<Pool>): nat {
    if pools == [] then 0 else SumIdle(pools[..|pools| - 1]) + CountedIdle(pools[|pools| - 1])
  }

  function SumLeft(pools: seq<Pool>): nat {
    if pools == [] then 0 else SumLeft(pools[..|pools| - 1]) + CountedLeft(pools[|pools| - 1])
  }

  /** Addresses of one family lost over all ENIs. */
  function SumLost(before: seq<Pool>, after: seq<Pool>, family6: bool): nat
    requires |before| == |after|
  {
    if before == [] then 0
    else
      var i := |before| - 1;
      var s, t := before[i], after[i];
      SumLost(before[..i], after[..i], family6)
      + if family6 then |Lost(s.v6.ips, t.v6.ips, EniGone(s, t))| else |Lost(s.v4.ips, t.v4.ips, EniGone(s, t))|
  }

  function Sum(ks: seq<int>): int {
    if ks == [] then 0 else Sum(ks[..|ks| - 1]) + ks[|ks| - 1]
  }

  predicate AllReclaimed(before: seq<Pool>, after: seq<Pool>, ks: seq<int>) {
    && |before| == |after| == |ks|
    && (ks == [] || (var n := |ks| - 1; Reclaimed(before[n], after[n], ks[n]) && AllReclaimed(before[..n], after[..n], ks[..n])))
  }

  lemma {:induction false} AllReclaimedAt(before: seq<Pool>, after: seq<Pool>, ks: seq<int>, i: nat)
    requires AllReclaimed(before, after, ks) && i < |ks|
    ensures Reclaimed(before[i], after[i], ks[i])
  {
    var n := |ks| - 1;
    if i < n {
      AllReclaimedAt(before[..n], after[..n], ks[..n], i);
    }
  }

  lemma OneMoreReclaimed(before: seq<Pool>, after: seq<Pool>, ks: seq<int>, s: Pool, t: Pool, k: int)
    requires AllReclaimed(before, after, ks) && Reclaimed(s, t, k)
    ensures AllReclaimed(before + [s], after + [t], ks + [k])
  {
    var n := |ks|;
    assert (ks + [k])[..n] == ks && (before + [s])[..n] == before && (after + [t])[..n] == after;
  }

  lemma {:induction false} SumsBounded(before: seq<Pool>, after: seq<Pool>, ks: seq<int>)
    requires AllReclaimed(before, after, ks)
    ensures SumLost(before, after, false) <= Sum(ks) && SumLost(before, after, true) <= Sum(ks)
    ensures SumLeft(after) + Sum(ks) >= SumIdle(before)
  {
    if ks != [] {
      var n := |ks| - 1;
      SumsBounded(before[..n], after[..n], ks[..n]);
    }
  }

  /** The pools behind the network interfaces, at one moment. */
  ghost function States(enis: seq<Local>): (states: seq<Pool>)
    reads enis
    ensures |states| == |enis| && forall i :: 0 <= i < |enis| ==> states[i] == enis[i].State()
  {
    seq(|enis|, i requires 0 <= i < |enis| reads enis => enis[i].State())
  }

  /** One interface's turn; once nothing is left to delete it is skipped. */
  method DisposeOne(l: Local, left: int) returns (k: int)
    requires IdleValid(l.State())
    modifies l
    ensures Reclaimed(old(l.State()), l.State(), k) && 0 <= k <= Max(0, left)
  {
    ghost var s := l.State();
    if left <= 0 {
      UntouchedReclaims(s);
      return 0;
    }
    ghost var gone4, gone6, es;
    k, gone4, gone6, es := l.Dispose(left);
    DisposeReclaims(l.conf, s, left, l.State(), k, gone4, gone6);
  }

  class Manager {
    const policy: Policy
    const enis: seq<Local>   // the interfaces with a pool, in the order the pass visits them
    var clock: Clock

    constructor (policy: Policy, enis: seq<Local>, now: Time)
      ensures this.policy == policy && this.enis == enis && clock == Clock(now, None)
    {
      this.policy := policy;
      this.enis := enis;
      clock := Clock(now, None);
    }

    /** calculateToDel, with the clock readings and the jitter it draws. */
    method CalculateToDel(idles: int, r: Readings) returns (toDel: int)
      requires InOrder(policy, r)
      modifies this
      ensures toDel == ToDel(policy, idles, Extra(policy, old(clock), r))
      ensures clock == Advance(policy, old(clock), r)
    {
      toDel := idles - policy.maxIdles;
      if policy.after == 0 || policy.batch == 0 {
        return;
      }
      if clock.lastModified + policy.after > r.first {
        clock := clock.(next := None);
        return;
      }
      if clock.next.None? {
        clock := clock.(next := Some(r.second + r.jittered));
        return;
      }
      if clock.next.value > r.second {
        return;
      }
      toDel := Max(0, toDel);
      clock := clock.(next := Some(r.third + r.jittered));
      var extraDel := Min(policy.batch, Max(0, idles - toDel - policy.minIdles));
      toDel := toDel + extraDel;
    }

    /** The reclaim half of syncPool, as one pass nothing interrupts. */
    method ReclaimPass(r: Readings) returns (ghost before: seq<Pool>, ghost after: seq<Pool>, ghost planned: int)
      requires InOrder(policy, r) && policy.minIdles <= policy.maxIdles
      requires forall i, j :: 0 <= i < j < |enis| ==> enis[i] != enis[j]
      requires forall i :: 0 <= i < |enis| ==> IdleValid(enis[i].State())
      modifies this, enis
      ensures before == old(States(enis)) && after == States(enis)
      ensures planned == ToDel(policy, SumIdle(before), Extra(policy, old(clock), r))
      ensures SumLost(before, after, false) <= Max(0, planned) && SumLost(before, after, true) <= Max(0, planned)
      ensures SumLeft(after) >= Min(policy.minIdles, SumIdle(before))
      ensures forall i :: 0 <= i < |enis| ==>
                && Spared(before[i].v4.ips, after[i].v4.ips, EniGone(before[i], after[i]))
                && Spared(before[i].v6.ips, after[i].v6.ips, EniGone(before[i], after[i]))
    {
      before := States(enis);
      var idles := CountIdles();
      var toDel := CalculateToDel(idles, r);
      planned := toDel;
      assert States(enis) == before;
      ToDelLeavesMin(policy, idles, Extra(policy, old(clock), r));
      ghost var ks: seq<int>;
      ks, after := DisposeAcross(toDel, before);
      SumsBounded(before, after, ks);
      forall i | 0 <= i < |enis| ensures Reclaimed(before[i], after[i], ks[i]) {
        AllReclaimedAt(before, after, ks, i);
      }
    }

    method CountIdles() returns (idles: nat)
      ensures idles == SumIdle(States(enis))
    {
      idles := 0;
      for i := 0 to |enis|
        invariant idles == SumIdle(States(enis)[..i])
      {
        var idle, inUse := enis[i].Usage();
        assert States(enis)[..i + 1][..i] == States(enis)[..i];
        idles := idles + idle;
      }
      assert States(enis)[..|enis|] == States(enis);
    }

    /** The first `i` interfaces have had their turn, the rest are as they were. */
    ghost predicate Turns(i: nat, before: seq<Pool>, after: seq<Pool>, ks: seq<int>)
      reads enis
    {
      && i <= |enis| == |before| && |after| == |ks| == i
      && AllReclaimed(before[..i], after, ks)
      && (forall j :: 0 <= j < i ==> after[j] == enis[j].State())
      && (forall j :: i <= j < |enis| ==> before[j] == enis[j].State())
    }

    method TakeTurn(i: nat, left: int, ghost before: seq<Pool>, ghost after: seq<Pool>, ghost ks: seq<int>) returns (k: int)
      requires i < |enis| && Turns(i, before, after, ks) && IdleValid(before[i])
      requires forall j :: 0 <= j < |enis| && j != i ==> enis[j] != enis[i]
      modifies enis[i]
      ensures 0 <= k <= Max(0, left)
      ensures Turns(i + 1, before, after + [enis[i].State()], ks + [k])
    {
      k := DisposeOne(enis[i], left);
      OneMoreReclaimed(before[..i], after, ks, before[i], enis[i].State(), k);
      assert before[..i] + [before[i]] == before[..i + 1];
    }

    /** Spends `toDel` on the interfaces one after the other. */
    method DisposeAcross(toDel: int, ghost before: seq<Pool>) returns (ghost ks: seq<int>, ghost after: seq<Pool>)
      requires forall i, j :: 0 <= i < j < |enis| ==> enis[i] != enis[j]
      requires |before| == |enis| && forall i :: 0 <= i < |enis| ==> before[i] == enis[i].State() && IdleValid(before[i])
      modifies enis
      ensures AllReclaimed(before, after, ks) && Sum(ks) <= Max(0, toDel)
      ensures forall i :: 0 <= i < |enis| ==> after[i] == enis[i].State()
    {
      ks, after := [], [];
      var left := toDel;
      for i := 0 to |enis|
        invariant Turns(i, before, after, ks)
        invariant left == toDel - Sum(ks) && 0 <= Sum(ks) <= Max(0, toDel)
      {
        var k := TakeTurn(i, left, before, after, ks);
        left := left - k;
        SumMore(ks, k);
        ks, after := ks + [k], after + [enis[i].State()];
      }
      assert before[..|enis|] == before;
    }
  }

  lemma SumMore(ks: seq<int>, k: int)
    ensures Sum(ks + [k]) == Sum(ks) + k
  {
    assert (ks + [k])[..|ks|] == ks;
  }

  lemma UntouchedReclaims(s: Pool)
    requires IdleValid(s)
    ensures Reclaimed(s, s, 0)
  {
    assert Lost(s.v4.ips, s.v4.ips, false) == {} && Lost(s.v6.ips, s.v6.ips, false) == {};
    assert Disposable(Counted(s)) == IdleSet(Counted(s));
  }
}
