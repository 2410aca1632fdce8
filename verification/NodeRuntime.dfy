/**
 The log of released pods and its copy in the NodeRuntime object (pkg/eni/crdv2.go, pkg/utils/k8s.go). Times are
 natural numbers; reading and saving the object are inputs.
 */
module NodeRuntime {
  import opened Util

  type Uid = string

  datatype CniStatus = Initial | Deleted | OtherStatus(name: string)

  /** A pod's record: its ID and the time of each status, None for a nil entry. */
  datatype PodStatus = PodStatus(podId: string, status: map<CniStatus, Option<nat>>)

  type Pods = map<Uid, PodStatus>

  // The final status of a pod.

  /** A status with a time that no other exceeds. */
  predicate Latest(status: map<CniStatus, Option<nat>>, c: CniStatus) {
    && c in status && status[c].Some?
    && forall d :: d in status && status[d].Some? ==> status[d].value <= status[c].value
  }

  method SomeOrder<K(==, !new)>(keys: set<K>) returns (order: seq<K>)
    ensures Enumerates(order, keys)
  {
    order := [];
    var todo := keys;
    while todo != {}
      invariant todo <= keys && Enumerates(order, keys - todo)
      decreases |todo|
    {
      var k :| k in todo;
      order, todo := order + [k], todo - {k};
    }
  }

  /** RuntimeFinalStatus over the statuses in the order in which the map yields them. */
  function FinalOf(status: map<CniStatus, Option<nat>>, order: seq<CniStatus>): (r: Option<CniStatus>)
    ensures r.Some? ==> r.value in order && r.value in status && status[r.value].Some?
  {
    if order == [] then None
    else
      var before := FinalOf(status, order[..|order| - 1]);
      var c := order[|order| - 1];
      if c in status && status[c].Some? && (before.None? || status[before.value].value < status[c].value) then Some(c)
      else before
  }

  lemma FinalNext(status: map<CniStatus, Option<nat>>, order: seq<CniStatus>, i: nat)
    requires i < |order|
    ensures var before, c := FinalOf(status, order[..i]), order[i];
            FinalOf(status, order[..i + 1]) ==
            if c in status && status[c].Some? && (before.None? || status[before.value].value < status[c].value) then Some(c)
            else before
  {
    assert order[..i + 1][..i] == order[..i];
  }

  lemma {:induction false} FinalBounds(status: map<CniStatus, Option<nat>>, order: seq<CniStatus>, d: CniStatus)
    requires d in order && d in status && status[d].Some?
    ensures FinalOf(status, order).Some? && status[d].value <= status[FinalOf(status, order).value].value
  {
    var n := |order| - 1;
    if d in order[..n] {
      FinalBounds(status, order[..n], d);
    } else {
      assert order == order[..n] + [order[n]];
    }
  }

  /** Whatever the order, the result is a latest status, and there is one exactly if some status has a time. */
  lemma FinalIsLatest(status: map<CniStatus, Option<nat>>, order: seq<CniStatus>)
    requires Enumerates(order, status.Keys)
    ensures FinalOf(status, order).Some? ==> Latest(status, FinalOf(status, order).value)
    ensures FinalOf(status, order).None? <==> forall c :: c in status ==> status[c].None?
  {
    forall d | d in status && status[d].Some?
      ensures FinalOf(status, order).Some? && status[d].value <= status[FinalOf(status, order).value].value
    {
      FinalBounds(status, order, d);
    }
  }

  /** Of several latest statuses the first in the order is the result. */
  lemma {:induction false} FirstLatestWins(status: map<CniStatus, Option<nat>>, order: seq<CniStatus>, i: nat)
    requires i < |order| && Latest(status, order[i]) && forall j :: 0 <= j < i ==> !Latest(status, order[j])
    ensures FinalOf(status, order) == Some(order[i])
    decreases |order|
  {
    var n := |order| - 1;
    if i < n {
      FirstLatestWins(status, order[..n], i);
    } else {
      var before := FinalOf(status, order[..n]);
      assert before.Some? ==> !Latest(status, before.value);
    }
  }

  /** The first status of the order that no other exceeds in time, or none if no status has a time. */
  ghost predicate FirstLatest(status: map<CniStatus, Option<nat>>, order: seq<CniStatus>, r: Option<CniStatus>) {
    match r
    case None => forall c :: c in status ==> status[c].None?
    case Some(c) =>
      exists i :: 0 <= i < |order| && order[i] == c && Latest(status, c) && forall j :: 0 <= j < i ==> !Latest(status, order[j])
  }

  lemma {:induction false} FirstIndex(status: map<CniStatus, Option<nat>>, order: seq<CniStatus>, k: nat) returns (i: nat)
    requires k < |order| && Latest(status, order[k])
    ensures i <= k && Latest(status, order[i]) && forall j :: 0 <= j < i ==> !Latest(status, order[j])
  {
    i := k;
    if j :| 0 <= j < k && Latest(status, order[j]) {
      i := FirstIndex(status, order, j);
    }
  }

  lemma FinalIsFirst(status: map<CniStatus, Option<nat>>, order: seq<CniStatus>)
    requires Enumerates(order, status.Keys)
    ensures FirstLatest(status, order, FinalOf(status, order))
  {
    FinalIsLatest(status, order);
    if FinalOf(status, order).Some? {
      var k :| 0 <= k < |order| && order[k] == FinalOf(status, order).value;
      var i := FirstIndex(status, order, k);
      FirstLatestWins(status, order, i);
    }
  }

  method RuntimeFinalStatus(status: map<CniStatus, Option<nat>>, order: seq<CniStatus>) returns (r: Option<CniStatus>)
    requires Enumerates(order, status.Keys)
    ensures r == FinalOf(status, order) && FirstLatest(status, order, r)
  {
    r := None;
    for i := 0 to |order|
      invariant r == FinalOf(status, order[..i])
    {
      FinalNext(status, order, i);
      var c := order[i];
      if status[c].Some? && (r.None? || status[r.value].value < status[c].value) {
        r := Some(c);
      }
    }
    assert order[..|order|] == order;
    FinalIsFirst(status, order);
  }

  lemma {:induction false} OrderStartingWith<K(!new)>(keys: set<K>, k: K) returns (rest: seq<K>)
    requires k in keys
    ensures Enumerates([k] + rest, keys)
    decreases |keys|
  {
    rest := [];
    if keys != {k} {
      var l :| l in keys && l != k;
      var less := OrderStartingWith(keys - {l}, k);
      rest := less + [l];
      assert [k] + rest == ([k] + less) + [l];
    }
  }

  /**
   The order in which the map yields its entries decides whether a pod counts as deleted if and only if Deleted is
   a latest status and another status has the same time.
   */
  lemma OrderDecidesIff(status: map<CniStatus, Option<nat>>)
    ensures (exists o, q :: Enumerates(o, status.Keys) && Enumerates(q, status.Keys)
                            && FinalOf(status, o) == Some(Deleted) && FinalOf(status, q) != Some(Deleted))
            <==> Latest(status, Deleted) && exists c :: c in status && c != Deleted && status[c] == status[Deleted]
  {
    if o, q :| Enumerates(o, status.Keys) && Enumerates(q, status.Keys)
               && FinalOf(status, o) == Some(Deleted) && FinalOf(status, q) != Some(Deleted)
    {
      FinalIsLatest(status, o);
      FinalIsLatest(status, q);
      var c := FinalOf(status, q).value;
      assert c in status && c != Deleted && status[c] == status[Deleted];
    }
    if Latest(status, Deleted) && exists c :: c in status && c != Deleted && status[c] == status[Deleted] {
      var c :| c in status && c != Deleted && status[c] == status[Deleted];
      var first := OrderStartingWith(status.Keys, Deleted);
      var second := OrderStartingWith(status.Keys, c);
      FirstLatestWins(status, [Deleted] + first, 0);
      FirstLatestWins(status, [c] + second, 0);
    }
  }

  /** A tie: the same record is deleted in one order and not in the other. */
  lemma TieFollowsOrder()
    ensures var status := map[Initial := Some(5), Deleted := Some(5)];
            && Enumerates([Deleted, Initial], status.Keys) && FinalOf(status, [Deleted, Initial]) == Some(Deleted)
            && Enumerates([Initial, Deleted], status.Keys) && FinalOf(status, [Initial, Deleted]) == Some(Initial)
  {
    var status := map[Initial := Some(5), Deleted := Some(5)];
    FirstLatestWins(status, [Deleted, Initial], 0);
    FirstLatestWins(status, [Initial, Deleted], 0);
  }

  // Releases waiting to be reported.

  /** What one run of the report job finds and how its save ends. */
  datatype Report =
    | ReadFails
    | BeingDeleted
    | SaveFails(pods: Pods, now: nat)
    | Saves(pods: Pods, now: nat)

  /** The records with a Deleted status, at time `now`, for each of the released pods. */
  function MarkedRecord(pods: Pods, uid: Uid, podId: string, now: nat): PodStatus {
    var r := if uid in pods then pods[uid] else PodStatus(podId, map[]);
    r.(status := r.status[Deleted := Some(now)])
  }

  function Marked(pods: Pods, released: map<Uid, string>, now: nat): Pods {
    map uid | uid in pods.Keys + released.Keys ::
      if uid in released then MarkedRecord(pods, uid, released[uid], now) else pods[uid]
  }

  function Record(pods: Pods, uid: Uid): Option<PodStatus> {
    if uid in pods then Some(pods[uid]) else None
  }

  function MarkedIf(pods: Pods, released: map<Uid, string>, done: set<Uid>, uid: Uid, now: nat): Option<PodStatus> {
    if uid in done && uid in released then Some(MarkedRecord(pods, uid, released[uid], now)) else Record(pods, uid)
  }

  /** The records once the pods of `done` are marked. */
  ghost predicate MarkedSoFar(r: Pods, pods: Pods, released: map<Uid, string>, done: set<Uid>, now: nat) {
    forall uid :: Record(r, uid) == MarkedIf(pods, released, done, uid, now)
  }

  lemma MarkOne(r: Pods, pods: Pods, released: map<Uid, string>, done: set<Uid>, uid: Uid, now: nat)
    requires uid in released && uid !in done && MarkedSoFar(r, pods, released, done, now)
    ensures MarkedSoFar(r[uid := MarkedRecord(r, uid, released[uid], now)], pods, released, done + {uid}, now)
  {
    assert Record(r, uid) == MarkedIf(pods, released, done, uid, now);
    var next := r[uid := MarkedRecord(r, uid, released[uid], now)];
    forall x ensures Record(next, x) == MarkedIf(pods, released, done + {uid}, x, now) {
      assert Record(r, x) == MarkedIf(pods, released, done, x, now);
    }
  }

  lemma AllMarked(r: Pods, pods: Pods, released: map<Uid, string>, now: nat)
    requires MarkedSoFar(r, pods, released, released.Keys, now)
    ensures r == Marked(pods, released, now)
  {
    var m := Marked(pods, released, now);
    forall uid ensures Record(r, uid) == Record(m, uid) {
      assert Record(r, uid) == MarkedIf(pods, released, released.Keys, uid, now);
    }
    assert forall uid :: uid in r <==> Record(r, uid).Some?;
    assert forall uid :: uid in m <==> Record(m, uid).Some?;
  }

  /** One turn of the loop: create the record if it is missing, then set its Deleted status. */
  method MarkPod(was: Pods, uid: Uid, podId: string, now: nat) returns (r: Pods)
    ensures r == was[uid := MarkedRecord(was, uid, podId, now)]
  {
    r := was;
    if uid !in r {
      r := r[uid := PodStatus(podId, map[])];
    }
    r := r[uid := r[uid].(status := r[uid].status[Deleted := Some(now)])];
  }

  method MarkDeleted(pods: Pods, released: map<Uid, string>, now: nat) returns (r: Pods)
    ensures MarkedSoFar(r, pods, released, released.Keys, now)
  {
    r := pods;
    var todo := released.Keys;
    ghost var done := {};
    while todo != {}
      invariant todo + done == released.Keys && todo !! done
      invariant MarkedSoFar(r, pods, released, done, now)
      decreases |todo|
    {
      var uid :| uid in todo;
      MarkOne(r, pods, released, done, uid, now);
      r := MarkPod(r, uid, released[uid], now);
      todo, done := todo - {uid}, done + {uid};
    }
  }

  /** What a run of syncNodeRuntime leaves in the log. */
  function AfterReport(released: map<Uid, string>, e: Report): map<Uid, string> {
    if e.Saves? then map[] else released
  }

  class Crdv2 {
    var deletedPods: map<Uid, string>

    constructor ()
      ensures deletedPods == map[]
    {
      deletedPods := map[];
    }

    /** Release of a local IP resource: logged, and left for other components to act on. */
    method Release(uid: Uid, podId: string, local: bool) returns (handled: bool)
      modifies this
      ensures !handled
      ensures deletedPods == if local then Step(old(deletedPods), Released(uid, podId)) else old(deletedPods)
    {
      if local {
        deletedPods := deletedPods[uid := podId];
      }
      handled := false;
    }

    /** The end of a successful tryAllocateIP. */
    method Allocated(uid: Uid)
      modifies this
      ensures deletedPods == Step(old(deletedPods), Reallocated(uid))
    {
      deletedPods := deletedPods - {uid};
    }

    /** syncNodeRuntime: the records it saved, if it did. */
    method SyncNodeRuntime(e: Report) returns (saved: Option<Pods>)
      modifies this
      ensures deletedPods == Step(old(deletedPods), Reported(e))
      ensures saved == if e.Saves? && old(deletedPods) != map[] then Some(Marked(e.pods, old(deletedPods), e.now)) else None
    {
      saved := None;
      if deletedPods == map[] || e.ReadFails? || e.BeingDeleted? {
        return;
      }
      var pods := MarkDeleted(e.pods, deletedPods, e.now);
      AllMarked(pods, e.pods, deletedPods, e.now);
      if e.SaveFails? {
        return;
      }
      saved := Some(pods);
      deletedPods := map[];
    }
  }

  datatype Event =
    | Released(uid: Uid, podId: string)
    | Reallocated(uid: Uid)
    | Reported(report: Report)

  function Step(log: map<Uid, string>, e: Event): map<Uid, string> {
    match e
    case Released(uid, podId) => log[uid := podId]
    case Reallocated(uid) => log - {uid}
    case Reported(r) => AfterReport(log, r)
  }

  function Exec(log: map<Uid, string>, es: seq<Event>): map<Uid, string> {
    if es == [] then log else Step(Exec(log, es[..|es| - 1]), es[|es| - 1])
  }

  /** A step that may take a pod out of the log: its UID is allocated again, or a save records it as Deleted. */
  predicate Discharges(log: map<Uid, string>, e: Event, uid: Uid) {
    || e == Reallocated(uid)
    || (e.Reported? && e.report.Saves? && MarkedAt(Marked(e.report.pods, log, e.report.now), uid, e.report.now))
  }

  lemma StepKeepsRelease(log: map<Uid, string>, e: Event, uid: Uid)
    requires uid in log && uid !in Step(log, e)
    ensures Discharges(log, e, uid)
  {
  }

  /** A released pod stays in the log until a save records it as Deleted or its UID is allocated again. */
  lemma {:induction false} ReleaseIsNotLost(log: map<Uid, string>, es: seq<Event>, uid: Uid)
    requires uid in log && uid !in Exec(log, es)
    ensures exists i :: 0 <= i < |es| && uid in Exec(log, es[..i]) && Discharges(Exec(log, es[..i]), es[i], uid)
  {
    var n := |es| - 1;
    if uid in Exec(log, es[..n]) {
      StepKeepsRelease(Exec(log, es[..n]), es[n], uid);
    } else {
      ReleaseIsNotLost(log, es[..n], uid);
      var i :| 0 <= i < n && uid in Exec(log, es[..n][..i]) && Discharges(Exec(log, es[..n][..i]), es[..n][i], uid);
      assert es[..n][..i] == es[..i];
    }
  }

  /** The pod's record carries a Deleted status of this time. */
  predicate MarkedAt(pods: Pods, uid: Uid, now: nat) {
    uid in pods && Deleted in pods[uid].status && pods[uid].status[Deleted] == Some(now)
  }

  predicate TakesOut(e: Event, uid: Uid) {
    e == Reallocated(uid) || (e.Reported? && e.report.Saves?)
  }

  predicate PutsIn(e: Event, uid: Uid) {
    e.Released? && e.uid == uid
  }

  /** A release is reported by the first save after it, unless its UID is allocated again before. */
  lemma {:induction false} ReleaseIsReported(log: map<Uid, string>, uid: Uid, podId: string, between: seq<Event>, r: Report)
    requires r.Saves? && forall i :: 0 <= i < |between| ==> !TakesOut(between[i], uid)
    ensures var l := Exec(Step(log, Released(uid, podId)), between);
            uid in l && MarkedAt(Marked(r.pods, l, r.now), uid, r.now)
  {
    if between != [] {
      ReleaseIsReported(log, uid, podId, between[..|between| - 1], r);
    }
  }

  /** A UID that is allocated again is not reported by any save before its next release. */
  lemma {:induction false} ReallocationWithdraws(log: map<Uid, string>, uid: Uid, between: seq<Event>, r: Report)
    requires r.Saves? && forall i :: 0 <= i < |between| ==> !PutsIn(between[i], uid)
    ensures var l := Exec(Step(log, Reallocated(uid)), between);
            uid !in l && Record(Marked(r.pods, l, r.now), uid) == Record(r.pods, uid)
  {
    if between != [] {
      ReallocationWithdraws(log, uid, between[..|between| - 1], r);
    }
  }

  // Records of pods that the IPAM no longer uses.

  /** Only Deleted is latest. */
  predicate SurelyDeleted(p: PodStatus) {
    Latest(p.status, Deleted) && forall c :: c in p.status && c != Deleted ==> !Latest(p.status, c)
  }

  /** What removeDeleted keeps: records in use, and those whose latest status is not Deleted; ties may go either way. */
  ghost predicate Pruned(pods: Pods, inUsed: Pods, r: Pods) {
    && r.Keys <= pods.Keys
    && (forall uid :: uid in r ==> r[uid] == pods[uid])
    && (forall uid :: uid in pods && uid !in r ==> uid !in inUsed && Latest(pods[uid].status, Deleted))
    && (forall uid :: uid in pods && uid !in inUsed && SurelyDeleted(pods[uid]) ==> uid !in r)
  }

  method RemoveDeleted(pods: Pods, inUsed: Pods) returns (r: Pods)
    ensures Pruned(pods, inUsed, r)
  {
    r := pods;
    var todo := pods.Keys;
    while todo != {}
      invariant todo <= r.Keys <= pods.Keys
      invariant forall uid :: uid in r ==> r[uid] == pods[uid]
      invariant forall uid :: uid in pods && uid !in r ==> uid !in inUsed && Latest(pods[uid].status, Deleted)
      invariant forall uid :: uid in r && uid !in todo && uid !in inUsed ==> !SurelyDeleted(pods[uid])
      decreases |todo|
    {
      var uid :| uid in todo;
      todo := todo - {uid};
      if uid !in inUsed {
        var order := SomeOrder(pods[uid].status.Keys);
        var final := RuntimeFinalStatus(pods[uid].status, order);
        FinalIsLatest(pods[uid].status, order);
        if final == Some(Deleted) {
          r := r - {uid};
        }
      }
    }
  }

  /** syncBack: every UID in use that has no record gets one. */
  method SyncBack(pods: Pods, inUsed: Pods) returns (r: Pods)
    ensures r == inUsed + pods
  {
    r := pods;
    var todo := inUsed.Keys;
    while todo != {}
      invariant todo <= inUsed.Keys && r.Keys == pods.Keys + (inUsed.Keys - todo)
      invariant forall uid :: uid in r ==> r[uid] == if uid in pods then pods[uid] else inUsed[uid]
      decreases |todo|
    {
      var uid :| uid in todo;
      if uid !in r {
        r := r[uid := inUsed[uid]];
      }
      todo := todo - {uid};
    }
  }

  /** removeDeleted, then syncBack. */
  method SyncDeletedPods(pods: Pods, inUsed: Pods) returns (r: Pods)
    ensures forall uid :: uid in inUsed ==> uid in r
    ensures forall uid :: uid in pods && uid !in r ==> uid !in inUsed && Latest(pods[uid].status, Deleted)
    ensures forall uid :: uid in pods && uid !in inUsed && SurelyDeleted(pods[uid]) ==> uid !in r
    ensures forall uid :: uid in r ==> uid in pods || uid in inUsed
    ensures forall uid :: uid in r ==> r[uid] == if uid in pods then pods[uid] else inUsed[uid]
  {
    var kept := RemoveDeleted(pods, inUsed);
    r := SyncBack(kept, inUsed);
  }

  /** A record whose latest status is Deleted alone counts as deleted in every order. */
  lemma SurelyDeletedIff(p: PodStatus)
    ensures SurelyDeleted(p) <==> forall o :: Enumerates(o, p.status.Keys) ==> FinalOf(p.status, o) == Some(Deleted)
  {
    if SurelyDeleted(p) {
      forall o | Enumerates(o, p.status.Keys) ensures FinalOf(p.status, o) == Some(Deleted) {
        FinalIsLatest(p.status, o);
      }
    } else if Latest(p.status, Deleted) {
      var c :| c in p.status && c != Deleted && Latest(p.status, c);
      var rest := OrderStartingWith(p.status.Keys, c);
      FirstLatestWins(p.status, [c] + rest, 0);
    } else {
      NeverDeleted(p);
    }
  }

  lemma NeverDeleted(p: PodStatus)
    requires !Latest(p.status, Deleted)
    ensures exists o :: Enumerates(o, p.status.Keys) && FinalOf(p.status, o) != Some(Deleted)
  {
    if p.status.Keys == {} {
      assert Enumerates([], p.status.Keys);
    } else {
      var c :| c in p.status;
      var rest := OrderStartingWith(p.status.Keys, c);
      FinalIsLatest(p.status, [c] + rest);
    }
  }
}
