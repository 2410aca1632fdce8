/**
 The wait loop of CRDV2 (pkg/eni/crdv2.go) against the informer and the notifier, as a state machine. A waiter
 subscribes, then reads the cached Node object and tries; if the try fails it waits for its channel. The cache
 changes first and its event handler runs later; a Notify sends to one channel at a time under the read lock,
 so nobody subscribes, unsubscribes or closes meanwhile.
 */
module Waiter {
  import opened Util

  datatype PodRef = PodRef(id: string, uid: string)

  datatype IpEntry = IpEntry(valid: bool, podId: string, podUid: string, parses: bool)

  datatype Nic = Nic(inUse: bool, ips4: seq<IpEntry>, ips6: seq<IpEntry>, cidr4Parses: bool, cidr6Parses: bool)

  /** The Node CR: whether its ENI spec is set, and its network interfaces, absent or in some order. */
  datatype Node = Node(initialized: bool, nics: Option<seq<Nic>>)

  // One try.

  predicate Matches(e: IpEntry, pod: PodRef) {
    e.valid && e.podId == pod.id && (e.podUid == "" || e.podUid == pod.uid)
  }

  predicate Assigned(es: seq<IpEntry>, pod: PodRef) {
    exists i :: 0 <= i < |es| && Matches(es[i], pod)
  }

  predicate Unreadable(es: seq<IpEntry>, pod: PodRef) {
    exists i :: 0 <= i < |es| && Matches(es[i], pod) && !es[i].parses
  }

  datatype Scan = Failed | Found(v4: bool, v6: bool, nic: Option<Nic>)

  /** The loop over the interfaces: the addresses found, and the last interface that gave one. */
  function ScanNics(nics: seq<Nic>, pod: PodRef): Scan {
    if nics == [] then Found(false, false, None)
    else
      var before := ScanNics(nics[..|nics| - 1], pod);
      var nic := nics[|nics| - 1];
      if before.Failed? || !nic.inUse then before
      else if Unreadable(nic.ips4, pod) || Unreadable(nic.ips6, pod) then Failed
      else
        var v4, v6 := Assigned(nic.ips4, pod), Assigned(nic.ips6, pod);
        Found(before.v4 || v4, before.v6 || v6, if v4 || v6 then Some(nic) else before.nic)
  }

  /** tryAllocateIP with the interfaces visited in this order. */
  predicate Succeeds(initialized: bool, order: seq<Nic>, pod: PodRef) {
    var s := ScanNics(order, pod);
    && initialized && s.Found? && s.nic.Some?
    && (s.v4 ==> s.nic.value.cidr4Parses) && (s.v6 ==> s.nic.value.cidr6Parses)
  }

  predicate OrderOf(node: Node, order: seq<Nic>) {
    multiset(order) == multiset(if node.nics.Some? then node.nics.value else [])
  }

  /** The try succeeds in some order of the interfaces. */
  ghost predicate CouldServe(node: Node, pod: PodRef) {
    exists order :: OrderOf(node, order) && Succeeds(node.initialized, order, pod)
  }

  /** The try succeeds whatever the order of the interfaces. */
  ghost predicate Satisfies(node: Option<Node>, pod: PodRef) {
    node.Some? && forall order :: OrderOf(node.value, order) ==> Succeeds(node.value.initialized, order, pod)
  }

  /** A Node object without interfaces satisfies nobody, so leaving its update unannounced loses nothing. */
  lemma NoNicsNoAddress(node: Node, pod: PodRef)
    ensures Satisfies(Some(node), pod) ==> node.nics.Some?
  {
    assert node.nics.None? ==> OrderOf(node, []);
  }

  // The machine.

  datatype Phase =
    | Awake
    | Tried(read: Option<Node>)
    | Waiting
    | Finished

  /** `token` is the one slot of the waiter's channel. */
  datatype Waiter = Waiter(pod: PodRef, phase: Phase, token: bool)

  /** `events` are the changes whose handler has not run: whether it will notify. `sending` are the channels a
      running Notify has still to send to. */
  datatype State = State(node: Option<Node>, events: seq<bool>, sending: Option<set<nat>>,
                         waiters: map<nat, Waiter>, closed: bool)

  datatype Step =
    | Change(node: Option<Node>)
    | Dispatch
    | Send(w: nat)
    | EndNotify
    | Subscribe(w: nat, pod: PodRef)
    | Read(w: nat)
    | Decide(w: nat, order: seq<Nic>)
    | Receive(w: nat)
    | Cancel(w: nat)
    | Unsubscribe(w: nat)
    | Close

  /** The informer handlers: an add always notifies, an update only with interfaces, a delete never. */
  predicate Notifies(was: Option<Node>, now: Option<Node>) {
    now.Some? && (was.None? || now.value.nics.Some?)
  }

  predicate At(s: State, w: nat, phase: Phase) {
    w in s.waiters && s.waiters[w].phase == phase
  }

  predicate Enabled(s: State, e: Step) {
    match e
    case Change(_) => true
    case Dispatch => s.events != [] && s.sending.None?
    case Send(w) => s.sending.Some? && w in s.sending.value
    case EndNotify => s.sending == Some({})
    case Subscribe(w, _) => s.sending.None? && w !in s.waiters
    case Read(w) => At(s, w, Awake)
    case Decide(w, order) =>
      w in s.waiters && s.waiters[w].phase.Tried?
      && (s.waiters[w].phase.read.Some? ==> OrderOf(s.waiters[w].phase.read.value, order))
    case Receive(w) => At(s, w, Waiting) && (s.waiters[w].token || s.closed)
    case Cancel(w) => At(s, w, Waiting)
    case Unsubscribe(w) => s.sending.None? && At(s, w, Finished)
    case Close => s.sending.None?
  }

  predicate Wins(w: Waiter, order: seq<Nic>)
    requires w.phase.Tried?
  {
    w.phase.read.Some? && Succeeds(w.phase.read.value.initialized, order, w.pod)
  }

  function Set(s: State, w: nat, x: Waiter): State {
    s.(waiters := s.waiters[w := x])
  }

  function Apply(s: State, e: Step): State
    requires Enabled(s, e)
  {
    match e
    case Change(n) => s.(node := n, events := s.events + [Notifies(s.node, n)])
    case Dispatch =>
      s.(events := s.events[1..], sending := if s.events[0] && !s.closed then Some(s.waiters.Keys) else None)
    case Send(w) =>
      var t := s.(sending := Some(s.sending.value - {w}));
      if w in s.waiters then Set(t, w, s.waiters[w].(token := true)) else t
    case EndNotify => s.(sending := None)
    case Subscribe(w, pod) => Set(s, w, Waiter(pod, Awake, false))
    case Read(w) => Set(s, w, s.waiters[w].(phase := Tried(s.node)))
    case Decide(w, order) =>
      Set(s, w, s.waiters[w].(phase := if Wins(s.waiters[w], order) then Finished else Waiting))
    case Receive(w) => Set(s, w, s.waiters[w].(phase := Awake, token := false))
    case Cancel(w) => Set(s, w, s.waiters[w].(phase := Finished))
    case Unsubscribe(w) => s.(waiters := s.waiters - {w})
    case Close => s.(closed := true)
  }

  predicate Run(s: State, es: seq<Step>)
    decreases |es|
  {
    es == [] || (Enabled(s, es[0]) && Run(Apply(s, es[0]), es[1..]))
  }

  function Exec(s: State, es: seq<Step>): State
    requires Run(s, es)
    decreases |es|
  {
    if es == [] then s else Exec(Apply(s, es[0]), es[1..])
  }

  // No lost wake-up.

  /** The waiter's channel is ready, or a Notify that will make it ready has not got to it yet. */
  predicate Coming(s: State, w: nat)
    requires w in s.waiters
  {
    s.closed || s.waiters[w].token || (s.sending.Some? && w in s.sending.value) || true in s.events
  }

  /** A waiter whose last read would not satisfy it is blocked only while the current object would not either. */
  ghost predicate Safe(s: State, w: nat)
    requires w in s.waiters
  {
    var x := s.waiters[w];
    match x.phase
    case Waiting => Satisfies(s.node, x.pod) ==> Coming(s, w)
    case Tried(read) => Satisfies(s.node, x.pod) ==> Satisfies(read, x.pod) || Coming(s, w)
    case _ => true
  }

  ghost predicate AllSafe(s: State) {
    forall w :: w in s.waiters ==> Safe(s, w)
  }

  lemma ChangeSafe(s: State, n: Option<Node>, w: nat)
    requires w in s.waiters && Safe(s, w)
    ensures Safe(Apply(s, Change(n)), w)
  {
    var x := s.waiters[w];
    var t := Apply(s, Change(n));
    if Satisfies(n, x.pod) {
      NoNicsNoAddress(n.value, x.pod);
      assert t.events[|s.events|];
    }
  }

  lemma DispatchSafe(s: State, w: nat)
    requires Enabled(s, Dispatch) && w in s.waiters && Safe(s, w)
    ensures Safe(Apply(s, Dispatch), w)
  {
    assert s.events == [s.events[0]] + s.events[1..];
  }

  lemma DecideSafe(s: State, w: nat, order: seq<Nic>)
    requires Enabled(s, Decide(w, order)) && Safe(s, w)
    ensures Safe(Apply(s, Decide(w, order)), w)
  {
    var x := s.waiters[w];
    if Satisfies(x.phase.read, x.pod) {
      assert Wins(x, order);
    }
  }

  lemma StepSafe(s: State, e: Step, w: nat)
    requires Enabled(s, e) && AllSafe(s) && w in Apply(s, e).waiters
    ensures Safe(Apply(s, e), w)
  {
    match e
    case Change(n) => ChangeSafe(s, n, w);
    case Dispatch => DispatchSafe(s, w);
    case Decide(v, order) =>
      if v == w {
        DecideSafe(s, w, order);
      }
    case _ =>
  }

  lemma {:induction false} RunSafe(s: State, es: seq<Step>)
    requires AllSafe(s) && Run(s, es)
    ensures AllSafe(Exec(s, es))
    decreases |es|
  {
    if es != [] {
      forall w | w in Apply(s, es[0]).waiters ensures Safe(Apply(s, es[0]), w) {
        StepSafe(s, es[0], w);
      }
      RunSafe(Apply(s, es[0]), es[1..]);
    }
  }

  function Start(node: Option<Node>): State {
    State(node, [], None, map[], false)
  }

  /** Waiting on an open channel with nothing in it. */
  predicate Blocked(s: State, w: nat) {
    At(s, w, Waiting) && !s.waiters[w].token && !s.closed
  }

  /**
   In every reachable state, a blocked waiter that the current Node object would satisfy is about to be woken:
   a running Notify has not reached its channel yet, or the handler of a change that notifies has not run yet.
   */
  lemma NoLostWakeup(node: Option<Node>, es: seq<Step>, w: nat)
    requires Run(Start(node), es)
    ensures var s := Exec(Start(node), es);
            Blocked(s, w) && Satisfies(s.node, s.waiters[w].pod) ==>
              (s.sending.Some? && w in s.sending.value) || true in s.events
  {
    RunSafe(Start(node), es);
    var s := Exec(Start(node), es);
    if w in s.waiters {
      assert Safe(s, w);
    }
  }

  /** Once every change has been announced, no waiter that could be served is blocked. */
  lemma QuietMeansServed(node: Option<Node>, es: seq<Step>, w: nat)
    requires Run(Start(node), es)
    requires Exec(Start(node), es).events == [] && Exec(Start(node), es).sending.None?
    ensures var s := Exec(Start(node), es);
            Blocked(s, w) ==> !Satisfies(s.node, s.waiters[w].pod)
  {
    NoLostWakeup(node, es, w);
  }

  // When the order of the interfaces matters.

  predicate Hits(nic: Nic, pod: PodRef) {
    nic.inUse && (Assigned(nic.ips4, pod) || Assigned(nic.ips6, pod))
  }

  /** No address of the pod fails to parse. */
  predicate Readable(nics: seq<Nic>, pod: PodRef) {
    forall i :: 0 <= i < |nics| && nics[i].inUse ==> !Unreadable(nics[i].ips4, pod) && !Unreadable(nics[i].ips6, pod)
  }

  predicate Any4(nics: seq<Nic>, pod: PodRef) {
    exists i :: 0 <= i < |nics| && nics[i].inUse && Assigned(nics[i].ips4, pod)
  }

  predicate Any6(nics: seq<Nic>, pod: PodRef) {
    exists i :: 0 <= i < |nics| && nics[i].inUse && Assigned(nics[i].ips6, pod)
  }

  function LastHit(nics: seq<Nic>, pod: PodRef): (r: Option<Nic>)
    ensures r.Some? ==> r.value in nics && Hits(r.value, pod)
  {
    if nics == [] then None
    else if Hits(nics[|nics| - 1], pod) then Some(nics[|nics| - 1])
    else LastHit(nics[..|nics| - 1], pod)
  }

  /** The CIDRs of the interface parse for the families found. */
  predicate Fine(nic: Nic, v4: bool, v6: bool) {
    (v4 ==> nic.cidr4Parses) && (v6 ==> nic.cidr6Parses)
  }

  lemma {:induction false} ScanIs(nics: seq<Nic>, pod: PodRef)
    ensures ScanNics(nics, pod) ==
            if Readable(nics, pod) then Found(Any4(nics, pod), Any6(nics, pod), LastHit(nics, pod)) else Failed
  {
    if nics != [] {
      var n := |nics| - 1;
      ScanIs(nics[..n], pod);
      assert nics == nics[..n] + [nics[n]];
      InitFacts(nics, pod);
    }
  }

  lemma InitFacts(nics: seq<Nic>, pod: PodRef)
    requires nics != []
    ensures var n := |nics| - 1;
            && (Readable(nics, pod) <==> Readable(nics[..n], pod) && Readable([nics[n]], pod))
            && (Any4(nics, pod) <==> Any4(nics[..n], pod) || (nics[n].inUse && Assigned(nics[n].ips4, pod)))
            && (Any6(nics, pod) <==> Any6(nics[..n], pod) || (nics[n].inUse && Assigned(nics[n].ips6, pod)))
  {
    var n := |nics| - 1;
    assert [nics[n]][0] == nics[n];
    if Readable(nics, pod) {
      forall i | 0 <= i < n && nics[..n][i].inUse
        ensures !Unreadable(nics[..n][i].ips4, pod) && !Unreadable(nics[..n][i].ips6, pod)
      {
        assert nics[..n][i] == nics[i];
      }
    }
    if Readable(nics[..n], pod) {
      forall i | 0 <= i < n && nics[i].inUse ensures !Unreadable(nics[i].ips4, pod) && !Unreadable(nics[i].ips6, pod) {
        assert nics[..n][i] == nics[i];
      }
    }
    if Any4(nics, pod) {
      var i :| 0 <= i < |nics| && nics[i].inUse && Assigned(nics[i].ips4, pod);
      assert i < n ==> nics[..n][i] == nics[i];
    }
    if Any6(nics, pod) {
      var i :| 0 <= i < |nics| && nics[i].inUse && Assigned(nics[i].ips6, pod);
      assert i < n ==> nics[..n][i] == nics[i];
    }
  }

  /** What does not depend on the order. */
  lemma OrderFacts(nics: seq<Nic>, order: seq<Nic>, pod: PodRef)
    requires multiset(order) == multiset(nics)
    ensures (Readable(order, pod) <==> Readable(nics, pod))
    ensures (Any4(order, pod) <==> Any4(nics, pod)) && (Any6(order, pod) <==> Any6(nics, pod))
  {
    forall nic ensures nic in order <==> nic in nics {
      assert nic in order <==> nic in multiset(order);
    }
    InSeq(nics, order, pod);
    InSeq(order, nics, pod);
  }

  lemma InSeq(a: seq<Nic>, b: seq<Nic>, pod: PodRef)
    requires forall nic :: nic in a ==> nic in b
    ensures Readable(b, pod) ==> Readable(a, pod)
    ensures (Any4(a, pod) ==> Any4(b, pod)) && (Any6(a, pod) ==> Any6(b, pod))
  {
    forall i | 0 <= i < |a| ensures exists j :: 0 <= j < |b| && b[j] == a[i] {
      assert a[i] in b;
    }
  }

  lemma {:induction false} SomeHit(nics: seq<Nic>, nic: Nic, pod: PodRef)
    requires nic in nics && Hits(nic, pod)
    ensures LastHit(nics, pod).Some?
  {
    var n := |nics| - 1;
    if !Hits(nics[n], pod) {
      assert nics == nics[..n] + [nics[n]];
      SomeHit(nics[..n], nic, pod);
    }
  }

  /** An order in which a given interface comes last. */
  lemma OrderEndingWith(nics: seq<Nic>, nic: Nic) returns (order: seq<Nic>)
    requires nic in nics
    ensures multiset(order) == multiset(nics) && order != [] && order[|order| - 1] == nic
  {
    var i :| 0 <= i < |nics| && nics[i] == nic;
    order := nics[..i] + nics[i + 1..] + [nic];
    assert nics == nics[..i] + [nic] + nics[i + 1..];
  }

  predicate AllFine(nics: seq<Nic>, pod: PodRef) {
    forall nic :: nic in nics && Hits(nic, pod) ==> Fine(nic, Any4(nics, pod), Any6(nics, pod))
  }

  predicate SomeFine(nics: seq<Nic>, pod: PodRef) {
    exists nic :: nic in nics && Hits(nic, pod) && Fine(nic, Any4(nics, pod), Any6(nics, pod))
  }

  /** Where the outcome hangs on the last interface visited that has an address of the pod. */
  lemma SucceedsIff(initialized: bool, nics: seq<Nic>, order: seq<Nic>, pod: PodRef)
    requires multiset(order) == multiset(nics)
    ensures Succeeds(initialized, order, pod) <==>
            && initialized && Readable(nics, pod) && LastHit(order, pod).Some?
            && Fine(LastHit(order, pod).value, Any4(nics, pod), Any6(nics, pod))
  {
    ScanIs(order, pod);
    OrderFacts(nics, order, pod);
  }

  predicate OrderMatters(node: Node, pod: PodRef) {
    && node.initialized && node.nics.Some? && Readable(node.nics.value, pod)
    && SomeFine(node.nics.value, pod) && !AllFine(node.nics.value, pod)
  }

  lemma EndingIn(node: Node, nic: Nic, pod: PodRef) returns (order: seq<Nic>)
    requires node.nics.Some? && nic in node.nics.value && Hits(nic, pod)
    ensures OrderOf(node, order) && LastHit(order, pod) == Some(nic)
  {
    order := OrderEndingWith(node.nics.value, nic);
  }

  lemma OrderSucceedsIff(node: Node, order: seq<Nic>, pod: PodRef)
    requires node.nics.Some? && OrderOf(node, order)
    ensures Succeeds(node.initialized, order, pod) <==>
            && node.initialized && Readable(node.nics.value, pod) && LastHit(order, pod).Some?
            && Fine(LastHit(order, pod).value, Any4(node.nics.value, pod), Any6(node.nics.value, pod))
    ensures forall nic :: nic in order <==> nic in node.nics.value
  {
    SucceedsIff(node.initialized, node.nics.value, order, pod);
    forall nic ensures nic in order <==> nic in node.nics.value {
      assert nic in order <==> nic in multiset(order);
    }
  }

  lemma OrdersDiffer(node: Node, good: seq<Nic>, bad: seq<Nic>, pod: PodRef)
    requires node.nics.Some? && OrderOf(node, good) && OrderOf(node, bad)
    requires Succeeds(node.initialized, good, pod) && !Succeeds(node.initialized, bad, pod)
    ensures OrderMatters(node, pod)
  {
    OrderSucceedsIff(node, good, pod);
    OrderSucceedsIff(node, bad, pod);
    SomeHit(bad, LastHit(good, pod).value, pod);
    var fine, other := LastHit(good, pod).value, LastHit(bad, pod).value;
    assert fine in node.nics.value && other in node.nics.value;
  }

  lemma BothOutcomes(node: Node, pod: PodRef) returns (good: seq<Nic>, bad: seq<Nic>)
    requires OrderMatters(node, pod)
    ensures OrderOf(node, good) && OrderOf(node, bad)
    ensures Succeeds(node.initialized, good, pod) && !Succeeds(node.initialized, bad, pod)
  {
    var nics := node.nics.value;
    var fine :| fine in nics && Hits(fine, pod) && Fine(fine, Any4(nics, pod), Any6(nics, pod));
    var other :| other in nics && Hits(other, pod) && !Fine(other, Any4(nics, pod), Any6(nics, pod));
    good := EndingIn(node, fine, pod);
    bad := EndingIn(node, other, pod);
    OrderSucceedsIff(node, good, pod);
    OrderSucceedsIff(node, bad, pod);
  }

  /** Some order serves the pod and another does not exactly if interfaces with its addresses differ in their CIDRs. */
  lemma OrderMattersIff(node: Node, pod: PodRef)
    ensures CouldServe(node, pod) && !Satisfies(Some(node), pod) <==> OrderMatters(node, pod)
  {
    if CouldServe(node, pod) && !Satisfies(Some(node), pod) {
      var good :| OrderOf(node, good) && Succeeds(node.initialized, good, pod);
      var bad :| OrderOf(node, bad) && !Succeeds(node.initialized, bad, pod);
      if node.nics.Some? {
        OrdersDiffer(node, good, bad, pod);
      }
    }
    if OrderMatters(node, pod) {
      var good, bad := BothOutcomes(node, pod);
    }
  }

  /** For a pod with all its addresses on one interface, an object that serves it in some order does in every order. */
  lemma OneInterfaceIsEnough(node: Node, pod: PodRef)
    requires node.nics.Some?
    requires forall a, b :: a in node.nics.value && b in node.nics.value && Hits(a, pod) && Hits(b, pod) ==> a == b
    ensures CouldServe(node, pod) <==> Satisfies(Some(node), pod)
  {
    OrderMattersIff(node, pod);
    assert OrderOf(node, node.nics.value);
  }

  /** An object on which it does depend: an address on each of two interfaces, one with a CIDR that does not parse. */
  lemma TwoInterfacesDiffer()
    ensures var pod := PodRef("p", "u");
            var ips := [IpEntry(true, "p", "u", true)];
            OrderMatters(Node(true, Some([Nic(true, ips, [], true, true), Nic(true, ips, [], false, true)])), pod)
  {
    var pod := PodRef("p", "u");
    var ips := [IpEntry(true, "p", "u", true)];
    var a, b := Nic(true, ips, [], true, true), Nic(true, ips, [], false, true);
    var nics := [a, b];
    assert Matches(ips[0], pod) && Assigned(ips, pod);
    assert nics[0].inUse && Any4(nics, pod) && !Any6(nics, pod);
    assert a in nics && Hits(a, pod) && Fine(a, true, false);
    assert b in nics && Hits(b, pod) && !Fine(b, true, false);
  }

  /** Everything announced, and the waiter blocked on an object that some order would serve it from. */
  ghost predicate Stuck(node: Option<Node>, es: seq<Step>, w: nat) {
    && Run(Start(node), es)
    && var s := Exec(Start(node), es);
       s.events == [] && s.sending.None? && Blocked(s, w) && s.node.Some? && CouldServe(s.node.value, s.waiters[w].pod)
  }

  /** Subscribing, reading and an unlucky order leave the waiter blocked. */
  lemma UnluckyWaiter(node: Node, pod: PodRef, order: seq<Nic>)
    requires OrderOf(node, order) && !Succeeds(node.initialized, order, pod) && CouldServe(node, pod)
    ensures var es := [Subscribe(0, pod), Read(0), Decide(0, order)];
            && Stuck(Some(node), es, 0)
            && Exec(Start(Some(node)), es).node == Some(node) && Exec(Start(Some(node)), es).waiters[0].pod == pod
  {
    var s0 := Start(Some(node));
    var s1 := Apply(s0, Subscribe(0, pod));
    var s2 := Apply(s1, Read(0));
    var s3 := Apply(s2, Decide(0, order));
    var es := [Subscribe(0, pod), Read(0), Decide(0, order)];
    var last: seq<Step> := [Decide(0, order)];
    assert es[1..] == [Read(0), Decide(0, order)] && es[1..][1..] == last && last[1..] == [];
    assert Run(s2, last) && Exec(s2, last) == s3;
    assert Run(s1, es[1..]) && Exec(s1, es[1..]) == s3;
  }

  /**
   A waiter can stay blocked, with everything announced, on an object that some order of its interfaces would serve it
   from, if and only if the order matters for that object.
   */
  lemma UnluckyOrderBlocksIff(node: Node, pod: PodRef)
    ensures (exists first, es, w :: Stuck(first, es, w) && Exec(Start(first), es).node == Some(node)
                                    && Exec(Start(first), es).waiters[w].pod == pod)
            <==> OrderMatters(node, pod)
  {
    OrderMattersIff(node, pod);
    if first, es, w :| Stuck(first, es, w) && Exec(Start(first), es).node == Some(node)
                       && Exec(Start(first), es).waiters[w].pod == pod
    {
      QuietMeansServed(first, es, w);
    }
    if OrderMatters(node, pod) {
      var good, bad := BothOutcomes(node, pod);
      UnluckyWaiter(node, pod, bad);
    }
  }
}
