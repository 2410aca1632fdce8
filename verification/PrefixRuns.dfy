/** What every run of a prefix table keeps. */
module PrefixRuns {
  import opened Bytes
  import opened PrefixAddr
  import opened PrefixTable

  // Each operation keeps the three structures in agreement.

  lemma PutInfo(c: Cidr, info: Info, p: Pod, o: nat)
    requires InfoOk(c, info) && o < |info.bitmap| && !info.bitmap[o] && p !in info.held
    ensures InfoOk(c, Info(info.bitmap[o := true], info.held[p := o], info.status))
  {
    var held := info.held[p := o];
    forall x: nat ensures x in held.Values <==> x in info.held.Values || x == o {
      if x in info.held.Values {
        var q :| q in info.held && info.held[q] == x;
        assert held[q] == x;
      }
      if x == o {
        assert held[p] == x;
      }
    }
    assert o !in info.held.Values;
  }

  lemma PutLinked(t: Table, p: Pod, c: Cidr, o: nat)
    requires Linked(t) && c in t.prefixes && o < |t.prefixes[c].bitmap| && p !in t.podToPrefix
    ensures Linked(Put(t, p, c, o))
  {
    var u := Put(t, p, c, o);
    forall q, d ensures Holds(u, d, q) <==> Holds(t, d, q) || (d == c && q == p) {
    }
  }

  lemma PutOk(t: Table, p: Pod, c: Cidr, o: nat)
    requires Ok(t) && c in t.prefixes && o < |t.prefixes[c].bitmap|
    requires !t.prefixes[c].bitmap[o] && p !in t.podToPrefix
    ensures Ok(Put(t, p, c, o))
  {
    assert !Holds(t, c, p);
    PutInfo(c, t.prefixes[c], p, o);
    PutLinked(t, p, c, o);
  }

  lemma AllocateOk(t: Table, p: Pod)
    requires Ok(t)
    ensures Ok(Allocate(t, p))
  {
    if p !in t.podToPrefix && Choice(t.prefixes).Some? {
      var c := Choice(t.prefixes).value;
      PutOk(t, p, c, LowestClear(t.prefixes[c].bitmap));
    }
  }

  lemma ReleaseInfo(c: Cidr, info: Info, p: Pod)
    requires InfoOk(c, info) && p in info.held
    ensures InfoOk(c, Info(info.bitmap[info.held[p] := false], info.held - {p}, info.status))
  {
    var o, held := info.held[p], info.held - {p};
    forall x: nat ensures x in held.Values <==> x in info.held.Values && x != o {
      if x in info.held.Values && x != o {
        var q :| q in info.held && info.held[q] == x;
        assert held[q] == x;
      }
    }
  }

  lemma ReleaseOk(t: Table, p: Pod)
    requires Ok(t)
    ensures Ok(Release(t, p))
    ensures !Held(Release(t, p), p)
  {
    if Held(t, p) {
      var c := t.podToPrefix[p];
      ReleaseInfo(c, t.prefixes[c], p);
      var u := Release(t, p);
      forall q, d ensures Holds(u, d, q) <==> Holds(t, d, q) && q != p {
      }
    }
  }

  lemma ReleaseUndoesPut(t: Table, p: Pod, c: Cidr, o: nat)
    requires c in t.prefixes && o < |t.prefixes[c].bitmap| && !t.prefixes[c].bitmap[o]
    requires p !in t.prefixes[c].held && p !in t.podToPrefix
    ensures Release(Put(t, p, c, o), p) == t
  {
    var info := t.prefixes[c];
    var given := Info(info.bitmap[o := true], info.held[p := o], info.status);
    assert given.bitmap[o := false] == info.bitmap && given.held - {p} == info.held;
    assert t.podToPrefix[p := c] - {p} == t.podToPrefix;
    assert t.prefixes[c := given][c := info] == t.prefixes;
  }

  /** Releasing a pod that was just given an address puts back exactly what was there. */
  lemma ReleaseUndoesAllocate(t: Table, p: Pod)
    requires Ok(t) && p !in t.podToPrefix
    ensures Release(Allocate(t, p), p) == t
  {
    if Choice(t.prefixes).Some? {
      var c := Choice(t.prefixes).value;
      assert !Holds(t, c, p);
      ReleaseUndoesPut(t, p, c, LowestClear(t.prefixes[c].bitmap));
    }
  }

  lemma PutAgain(t: Table, p: Pod, c: Cidr, o: nat)
    requires c in t.prefixes && o < |t.prefixes[c].bitmap| && t.prefixes[c].bitmap[o]
    requires p in t.prefixes[c].held && t.prefixes[c].held[p] == o && p in t.podToPrefix && t.podToPrefix[p] == c
    ensures Put(t, p, c, o) == t
  {
    var info := t.prefixes[c];
    assert info.bitmap[o := true] == info.bitmap && info.held[p := o] == info.held;
    assert t.prefixes[c := info] == t.prefixes && t.podToPrefix[p := c] == t.podToPrefix;
  }

  lemma RestoreAtOk(t: Table, p: Pod, ip: Bytes, c: Cidr, o: nat)
    requires Ok(t) && ConflictFree(t, p, ip) && Finds(t.prefixes, ip, c, o)
    ensures Ok(Put(t, p, c, o))
  {
    var info := t.prefixes[c];
    if p in t.podToPrefix {
      assert Holds(t, c, p) && info.held[p] == o;
      assert o in info.held.Values;
      PutAgain(t, p, c, o);
    } else {
      if info.bitmap[o] {
        assert Holds(t, c, Holder(info.held, o));
      }
      PutOk(t, p, c, o);
    }
  }

  lemma RestoreOk(t: Table, p: Pod, ip: Bytes)
    requires Ok(t) && ConflictFree(t, p, ip)
    ensures Ok(Restore(t, p, ip))
  {
    var found := Find(t.prefixes, ip);
    if found.Some? {
      RestoreAtOk(t, p, ip, found.value.0, found.value.1);
    }
  }

  lemma BlankOk(c: Cidr, status: Status)
    ensures InfoOk(c, Blank(c, status))
  {
  }

  /** Prefix updates change no pod's prefix or offset. */
  lemma UpdateHolds(t: Table, list: seq<Entry>, c: Cidr, p: Pod)
    ensures Holds(Update(t, list), c, p) <==> Holds(t, c, p)
    ensures Holds(t, c, p) ==>
              && Update(t, list).prefixes[c].bitmap == t.prefixes[c].bitmap
              && Update(t, list).prefixes[c].held == t.prefixes[c].held
  {
  }

  lemma UpdateOk(t: Table, list: seq<Entry>)
    requires Ok(t)
    ensures Ok(Update(t, list))
  {
    var u := Update(t, list);
    forall c | c in u.prefixes ensures InfoOk(c, u.prefixes[c]) {
      if c !in t.prefixes {
        BlankOk(c, Listed(list)[c]);
      }
    }
    forall c, p ensures Holds(u, c, p) <==> Holds(t, c, p) {
      UpdateHolds(t, list, c, p);
    }
  }

  lemma BuildOk(list: seq<Entry>)
    ensures Ok(Build(list))
  {
    forall c | c in Build(list).prefixes ensures InfoOk(c, Build(list).prefixes[c]) {
      BlankOk(c, Usable(list)[c]);
    }
  }

  // Runs.

  datatype Event =
    | Alloc(pod: Pod)
    | GiveBack(pod: Pod)
    | Sync(list: seq<Entry>)
    | Recover(pod: Pod, ip: Bytes)

  ghost function Step(t: Table, e: Event): Table {
    match e
    case Alloc(p) => Allocate(t, p)
    case GiveBack(p) => Release(t, p)
    case Sync(list) => Update(t, list)
    case Recover(p, ip) => Restore(t, p, ip)
  }

  predicate ListIn(list: seq<Entry>, all: set<Cidr>) {
    forall e :: e in list ==> e.cidr in all
  }

  /** Lists come from the node's CIDRs, and restored records do not clash. */
  ghost predicate Legal(t: Table, e: Event, all: set<Cidr>) {
    && (e.Sync? ==> ListIn(e.list, all))
    && (e.Recover? ==> ConflictFree(t, e.pod, e.ip))
  }

  ghost predicate Run(t: Table, es: seq<Event>, all: set<Cidr>)
    decreases |es|
  {
    es == [] || (Legal(t, es[0], all) && Run(Step(t, es[0]), es[1..], all))
  }

  ghost function Exec(t: Table, es: seq<Event>): Table
    decreases |es|
  {
    if es == [] then t else Exec(Step(t, es[0]), es[1..])
  }

  lemma {:induction false} ListedIn(list: seq<Entry>, all: set<Cidr>)
    requires ListIn(list, all)
    ensures Listed(list).Keys <= all && Usable(list).Keys <= all
  {
    if list != [] {
      ListedIn(list[..|list| - 1], all);
    }
  }

  lemma StepOk(t: Table, e: Event, all: set<Cidr>)
    requires Ok(t) && t.prefixes.Keys <= all && Legal(t, e, all)
    ensures Ok(Step(t, e)) && Step(t, e).prefixes.Keys <= all
  {
    match e
    case Alloc(p) => AllocateOk(t, p);
    case GiveBack(p) => ReleaseOk(t, p);
    case Sync(list) => UpdateOk(t, list); ListedIn(list, all);
    case Recover(p, ip) => RestoreOk(t, p, ip);
  }

  lemma {:induction false} RunOk(t: Table, es: seq<Event>, all: set<Cidr>)
    requires Ok(t) && t.prefixes.Keys <= all && Run(t, es, all)
    ensures Ok(Exec(t, es)) && Exec(t, es).prefixes.Keys <= all
    decreases |es|
  {
    if es != [] {
      StepOk(t, es[0], all);
      RunOk(Step(t, es[0]), es[1..], all);
    }
  }

  /** Distinct pods hold distinct addresses. */
  ghost predicate DistinctAddresses(t: Table) {
    forall p, q :: Held(t, p) && Held(t, q) && p != q ==> AddressOf(t, p) != AddressOf(t, q)
  }

  lemma OkIsDistinct(t: Table, all: set<Cidr>)
    requires Universe(all) && Ok(t) && t.prefixes.Keys <= all
    ensures DistinctAddresses(t)
  {
    forall p, q | Held(t, p) && Held(t, q) && p != q ensures AddressOf(t, p) != AddressOf(t, q) {
      var c, d := t.podToPrefix[p], t.podToPrefix[q];
      AddressesDiffer(c, t.prefixes[c].held[p], d, t.prefixes[d].held[q]);
    }
  }

  /**
   In every state that a run of allocations, releases, prefix updates and conflict-free restores reaches from a
   fresh table: the bitmap, the offsets and the pod-to-prefix map agree, distinct pods hold distinct addresses,
   and the count of remaining addresses does not underflow.
   */
  lemma AgreementOverRuns(list: seq<Entry>, es: seq<Event>, all: set<Cidr>)
    requires Universe(all) && ListIn(list, all) && Run(Build(list), es, all)
    ensures var t := Exec(Build(list), es);
            && Ok(t) && DistinctAddresses(t)
            && forall c :: c in t.prefixes ==> Remaining(t.prefixes[c]) >= 0
  {
    BuildOk(list);
    ListedIn(list, all);
    RunOk(Build(list), es, all);
    var t := Exec(Build(list), es);
    OkIsDistinct(t, all);
    forall c | c in t.prefixes ensures Remaining(t.prefixes[c]) >= 0 {
      RemainingIs(c, t.prefixes[c]);
    }
  }
}
