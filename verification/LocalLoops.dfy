/** The loops of pkg/eni/types.go and pkg/eni/local.go over an address set or a job queue, in the order a map yields. */
module LocalLoops {
  import opened Util
  import opened LocalPool

  /** AllocatingRequests.Len: prunes the cancelled jobs of a queue. */
  method Live(q: seq<Req>, cancelled: set<Req>) returns (live: seq<Req>)
    ensures live == Drop(q, cancelled)
  {
    live := [];
    for i := 0 to |q|
      invariant live == Drop(q[..i], cancelled)
    {
      assert q[..i + 1] == q[..i] + [q[i]];
      DropAppend(q[..i], q[i], cancelled);
      if q[i] !in cancelled {
        live := live + [q[i]];
      }
    }
    assert q[..|q|] == q;
  }

  /** Set.PeekAvailable. */
  method PeekAvailable(ips: IPSet, pod: PodId) returns (pick: Option<Addr>)
    ensures pick.Some? ==> Peeks(ips, pod, pick.value)
    ensures pick.None? ==> PeeksNone(ips, pod)
  {
    pick := None;
    var todo := ips.Keys;
    if pod != NO_POD {
      while todo != {}
        invariant todo <= ips.Keys
        invariant forall a :: a in ips && a !in todo ==> ips[a].pod != pod
        decreases todo
      {
        var a :| a in todo;
        if ips[a].pod == pod {
          return Some(a);
        }
        todo := todo - {a};
      }
      assert !OwnsSome(ips, pod);
    }
    todo := ips.Keys;
    while todo != {}
      invariant todo <= ips.Keys
      invariant forall a :: a in ips && a !in todo ==> !ips[a].Allocatable()
      decreases todo
    {
      var a :| a in todo;
      if ips[a].Allocatable() {
        return Some(a);
      }
      todo := todo - {a};
    }
  }

  /** Set.InUse. */
  method CollectInUse(ips: IPSet) returns (owned: set<Addr>)
    ensures owned == OwnedSet(ips)
  {
    owned := {};
    var todo := ips.Keys;
    while todo != {}
      invariant todo <= ips.Keys
      invariant owned == set a | a in ips && a !in todo && ips[a].InUse()
      decreases todo
    {
      var a :| a in todo;
      todo := todo - {a};
      if ips[a].InUse() {
        owned := owned + {a};
      }
    }
  }

  /** Set.Idles. */
  method CollectIdles(ips: IPSet) returns (idle: set<Addr>)
    ensures idle == IdleSet(ips)
  {
    idle := {};
    var todo := ips.Keys;
    while todo != {}
      invariant todo <= ips.Keys
      invariant idle == set a | a in ips && a !in todo && !ips[a].InUse()
      decreases todo
    {
      var a :| a in todo;
      todo := todo - {a};
      if !ips[a].InUse() {
        idle := idle + {a};
      }
    }
  }

  /** All Deleting addresses, or a full batch of them. */
  predicate BatchOf(ips: IPSet, batchSize: nat, batch: set<Addr>) {
    batch <= DeletingSet(ips) && |batch| == Min(|DeletingSet(ips)|, batchSize)
  }

  /** Set.Deleting, cut to one batch. */
  method CollectDeletingBatch(ips: IPSet, batchSize: nat) returns (batch: set<Addr>)
    ensures BatchOf(ips, batchSize, batch)
    ensures |DeletingSet(ips)| <= batchSize ==> batch == DeletingSet(ips)
  {
    batch := {};
    var todo := ips.Keys;
    ghost var seen: set<Addr> := {};
    while todo != {}
      invariant todo <= ips.Keys
      invariant seen == set a | a in ips && a !in todo && ips[a].status == IpDeleting
      invariant batch <= seen && |batch| <= batchSize
      invariant if |seen| <= batchSize then batch == seen else |batch| == batchSize
      decreases todo
    {
      var a :| a in todo;
      todo := todo - {a};
      if ips[a].status == IpDeleting {
        seen := seen + {a};
        if |batch| < batchSize {
          batch := batch + {a};
        }
      }
    }
    assert seen == DeletingSet(ips);
  }

  /** syncIPLocked. */
  method SyncIps(ips: IPSet, remote: set<Addr>) returns (out: IPSet)
    ensures out == ReconcileIps(ips, remote)
  {
    out := ips;
    var todo := ips.Keys;
    while todo != {}
      invariant todo <= ips.Keys && out.Keys == ips.Keys
      invariant forall a :: a in ips ==> out[a] == if a in todo then ips[a] else ReconcileIps(ips, remote)[a]
      decreases todo
    {
      var a :| a in todo;
      todo := todo - {a};
      if out[a].status == IpValid && a !in remote {
        out := out[a := out[a].(status := IpInvalid)];
      }
    }
  }

  /** Set.PutValid, Set.PutDeleting and the loop of Set.Add over a created ENI's addresses. */
  method Put(ips: IPSet, added: set<Addr>, status: IpStatus, primaryIp: Option<Addr>) returns (out: IPSet)
    ensures out == PutIps(ips, added, status, primaryIp)
  {
    out := ips;
    var todo := added;
    while todo != {}
      invariant todo <= added && out == PutIps(ips, added - todo, status, primaryIp)
      decreases todo
    {
      var a :| a in todo;
      out := out[a := IP(primaryIp == Some(a), NO_POD, status)];
      todo := todo - {a};
    }
    assert added - todo == added;
  }

  /** switchIPv4/6. */
  method SwitchJob(f: Family, cancelled: set<Req>, req: Req) returns (g: Family)
    ensures g == Switch(f, cancelled, req)
  {
    var found := false;
    var kept: seq<Req> := [];
    for i := 0 to |f.allocating|
      invariant kept == Drop(f.allocating[..i], {req})
      invariant found <==> req in f.allocating[..i]
    {
      assert f.allocating[..i + 1] == f.allocating[..i] + [f.allocating[i]];
      DropAppend(f.allocating[..i], f.allocating[i], {req});
      if f.allocating[i] != req {
        kept := kept + [f.allocating[i]];
      } else {
        found := true;
      }
    }
    assert f.allocating[..|f.allocating|] == f.allocating;
    g := f;
    if found {
      var live := Live(f.danging, cancelled);
      g := g.(allocating := kept, danging := live);
      if |live| != 0 {
        g := g.(allocating := kept + [live[0]], danging := live[1..]);
      }
    } else {
      DropNone(f.allocating, req);
    }
  }

  lemma {:induction false} DropNone(q: seq<Req>, req: Req)
    requires req !in q
    ensures Drop(q, {req}) == q
  {
    if q != [] {
      DropNone(q[1..], req);
    }
  }

  /** popNIPv4/6Jobs: moves `count` jobs on, and cancels the preheating ones among those moved so far. */
  method PopJobs(f: Family, workers: map<Req, Worker>, cancelled: set<Req>, count: nat) returns (g: Family, now: set<Req>)
    ensures g == Pop(f, count)
    ensures now == cancelled + Preheating(workers, g.danging)
  {
    var (first, second) := SplitAt(f.allocating, count);
    g := f.(danging := f.danging + first, allocating := second);
    now := cancelled;
    for i := 0 to |g.danging|
      invariant now == cancelled + Preheating(workers, g.danging[..i])
    {
      assert g.danging[..i + 1] == g.danging[..i] + [g.danging[i]];
      var r := g.danging[i];
      if r in workers && workers[r].noCache {
        now := now + {r};
      }
    }
    assert g.danging[..|g.danging|] == g.danging;
  }

  /** What a family's idle addresses are to step 2 of Dispose: not Valid. */
  function InvalidIdle(ips: IPSet): set<Addr> {
    set a | a in ips && !ips[a].InUse() && ips[a].status != IpValid && !ips[a].primary
  }

  /** What they are to step 3: not yet Deleting. */
  function Disposable(ips: IPSet): set<Addr> {
    set a | a in ips && !ips[a].InUse() && ips[a].status != IpDeleting
  }

  /** Step 2 of Dispose. */
  method DisposeInvalid(ips: IPSet) returns (out: IPSet)
    ensures out == RetireIps(ips, InvalidIdle(ips))
  {
    out := ips;
    var todo := ips.Keys;
    while todo != {}
      invariant todo <= ips.Keys && out.Keys == ips.Keys
      invariant forall a :: a in ips ==> out[a] == if a in todo then ips[a] else RetireIps(ips, InvalidIdle(ips))[a]
      decreases todo
    {
      var a :| a in todo;
      todo := todo - {a};
      if !out[a].InUse() && out[a].status != IpValid {
        out := out[a := out[a].Dispose()];
      }
    }
  }

  lemma RetireOneMore(ips: IPSet, gone: set<Addr>, a: Addr)
    requires a in ips && !ips[a].primary
    ensures RetireIps(ips, gone)[a := RetireIps(ips, gone)[a].Dispose()] == RetireIps(ips, gone + {a})
  {
  }

  /** Step 3 of Dispose: up to `n` times, whichever idle address the map yields first. */
  method DisposeIdle(ips: IPSet, n: int) returns (out: IPSet, left: int, ghost gone: set<Addr>)
    ensures left == Min(|IdleSet(ips)|, n)
    ensures gone <= Disposable(ips) && (forall a :: a in gone ==> !ips[a].primary)
    ensures out == RetireIps(ips, gone) && |gone| <= Max(0, left)
    ensures (forall a :: a in Disposable(ips) ==> !ips[a].primary) ==> |gone| == Min(Max(0, left), |Disposable(ips)|)
  {
    var idles := CollectIdles(ips);
    left := Min(|idles|, n);
    out := ips;
    gone := {};
    assert RetireIps(ips, {}) == ips;
    var i := 0;
    while i < left
      invariant 0 <= i <= Max(0, left)
      invariant gone <= Disposable(ips) && (forall a :: a in gone ==> !ips[a].primary)
      invariant out == RetireIps(ips, gone) && |gone| <= i
      invariant (forall a :: a in Disposable(ips) ==> !ips[a].primary) ==> |gone| == Min(i, |Disposable(ips)|)
    {
      var open := set a | a in out && !out[a].InUse() && out[a].status != IpDeleting;
      OpenIsDisposable(ips, gone, open);
      if open != {} {
        var a :| a in open;
        out := out[a := out[a].Dispose()];
        if !ips[a].primary {
          RetireOneMore(ips, gone, a);
          gone := gone + {a};
        } else {
          assert out == RetireIps(ips, gone);
        }
      }
      i := i + 1;
    }
  }

  lemma OpenIsDisposable(ips: IPSet, gone: set<Addr>, open: set<Addr>)
    requires gone <= Disposable(ips) && (forall a :: a in gone ==> !ips[a].primary)
    requires open == set a | a in RetireIps(ips, gone) && !RetireIps(ips, gone)[a].InUse()
                             && RetireIps(ips, gone)[a].status != IpDeleting
    ensures open == Disposable(ips) - gone
    ensures |gone| + |open| == |Disposable(ips)|
  {
    assert Disposable(ips) == gone + open;
  }

  lemma RetireTwice(ips: IPSet, first: set<Addr>, second: set<Addr>)
    ensures RetireIps(RetireIps(ips, first), second) == RetireIps(ips, first + second)
  {
  }

  /** The idle Valid addresses a Dispose may take, and how many it takes beside the invalid ones. */
  function ValidIdle(ips: IPSet): set<Addr> {
    set a | a in ips && !ips[a].InUse() && ips[a].status == IpValid
  }

  /** What Dispose(n) marks of a family: every invalid idle address, and at most `n` idle Valid ones. */
  predicate DisposeSpec(ips: IPSet, n: int, gone: set<Addr>) {
    && InvalidIdle(ips) <= gone
    && (forall a :: a in gone - InvalidIdle(ips) ==> a in ValidIdle(ips) && !ips[a].primary)
    && |gone - InvalidIdle(ips)| <= Max(0, Min(|IdleSet(ips)|, n))
    && ((forall a :: a in IdleSet(ips) ==> !ips[a].primary) ==>
          |gone - InvalidIdle(ips)| == Min(Max(0, n), |ValidIdle(ips)|))
  }

  lemma DisposeSpecIdle(ips: IPSet, n: int, gone: set<Addr>)
    requires DisposeSpec(ips, n, gone)
    ensures forall a :: a in gone ==> a in ips && !ips[a].InUse() && !ips[a].primary
  {
    forall a | a in gone ensures a in ips && !ips[a].InUse() && !ips[a].primary {
      if a !in InvalidIdle(ips) {
        assert a in gone - InvalidIdle(ips);
      }
    }
  }

  lemma AfterInvalid(ips: IPSet)
    ensures var out := RetireIps(ips, InvalidIdle(ips));
            && IdleSet(out) == IdleSet(ips)
            && ValidIdle(ips) <= Disposable(out)
            && (forall a :: a in Disposable(out) ==>
                  a in IdleSet(ips) && out[a].primary == ips[a].primary && (a in ValidIdle(ips) || ips[a].primary))
  {
  }

  /** Steps 2 and 3 of Dispose on one family. */
  method DisposeFamily(ips: IPSet, n: int) returns (out: IPSet, left: int, ghost gone: set<Addr>)
    ensures left == Min(|IdleSet(ips)|, n)
    ensures out == RetireIps(ips, gone) && DisposeSpec(ips, n, gone)
  {
    var cleaned := DisposeInvalid(ips);
    AfterInvalid(ips);
    ghost var taken;
    out, left, taken := DisposeIdle(cleaned, n);
    gone := InvalidIdle(ips) + taken;
    RetireTwice(ips, InvalidIdle(ips), taken);
    assert taken !! InvalidIdle(ips);
    assert gone - InvalidIdle(ips) == taken;
    if forall a :: a in IdleSet(ips) ==> !ips[a].primary {
      assert Disposable(cleaned) == ValidIdle(ips);
      SubsetCard(ValidIdle(ips), IdleSet(ips));
    }
  }
}
