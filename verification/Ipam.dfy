/** The prefix allocator of one ENI (ENILocalIPAM in pkg/eni/eni_local_ipam.go). */
module Ipam {
  import opened Util
  import opened Bytes
  import opened PrefixAddr
  import opened PrefixTable
  import opened PrefixRuns
  import opened IpamLoops

  /** What an allocator knows, as a value. */
  datatype View = View(eni: string, unschedulable: bool, v4: Table, v6: Table)

  ghost predicate NoClash(t: Table, p: Pod, ip: Option<Bytes>) {
    ip.Some? ==> ConflictFree(t, p, ip.value)
  }

  ghost function Recovered(t: Table, p: Pod, ip: Option<Bytes>): Table {
    if ip.Some? then Restore(t, p, ip.value) else t
  }

  method RestoreSome(t: Table, p: Pod, ip: Option<Bytes>, ghost all: set<Cidr>) returns (u: Table)
    requires Universe(all) && t.prefixes.Keys <= all
    ensures u == Recovered(t, p, ip) && u.prefixes.Keys <= all
    ensures Ok(t) && NoClash(t, p, ip) ==> Ok(u)
  {
    u := t;
    if ip.Some? {
      u := RestoreIn(t, p, ip.value, all);
      if Ok(t) && NoClash(t, p, ip) {
        RestoreOk(t, p, ip.value);
      }
    }
  }

  class ENILocalIPAM {
    const eni: string
    var unschedulable: bool
    var v4: Table
    var v6: Table
    /** The CIDRs of the node. */
    ghost const all: set<Cidr>

    ghost predicate Keyed()
      reads this
    {
      Universe(all) && v4.prefixes.Keys <= all && v6.prefixes.Keys <= all
    }

    ghost predicate Valid()
      reads this
    {
      Keyed() && Ok(v4) && Ok(v6)
    }

    function State(): View
      reads this
    {
      View(eni, unschedulable, v4, v6)
    }

    constructor (eni: string, unschedulable: bool, list4: seq<Entry>, list6: seq<Entry>, ghost all: set<Cidr>)
      requires Universe(all) && ListIn(list4, all) && ListIn(list6, all)
      ensures Valid() && this.all == all && State() == View(eni, unschedulable, Build(list4), Build(list6))
    {
      var t4 := BuildTable(list4);
      var t6 := BuildTable(list6);
      this.eni, this.unschedulable, v4, v6, this.all := eni, unschedulable, t4, t6, all;
      BuildOk(list4);
      BuildOk(list6);
      ListedIn(list4, all);
      ListedIn(list6, all);
    }

    method SetUnschedulable(v: bool)
      modifies this`unschedulable
      ensures State() == old(State()).(unschedulable := v)
    {
      unschedulable := v;
    }

    /** A pod gets its address again, or the lowest free offset of the best prefix, or nothing if all are full. */
    method AllocateIPv4(p: Pod) returns (r: Option<Bytes>)
      requires Valid()
      modifies this`v4
      ensures Valid() && Answers(old(v4), p, v4, r)
    {
      v4, r := AllocateIn(v4, p, all);
    }

    method AllocateIPv6(p: Pod) returns (r: Option<Bytes>)
      requires Valid()
      modifies this`v6
      ensures Valid() && Answers(old(v6), p, v6, r)
    {
      v6, r := AllocateIn(v6, p, all);
    }

    method ReleaseIPv4(p: Pod)
      requires Valid()
      modifies this`v4
      ensures Valid() && v4 == Release(old(v4), p)
    {
      ReleaseOk(v4, p);
      v4 := Release(v4, p);
    }

    method ReleaseIPv6(p: Pod)
      requires Valid()
      modifies this`v6
      ensures Valid() && v6 == Release(old(v6), p)
    {
      ReleaseOk(v6, p);
      v6 := Release(v6, p);
    }

    /** Addresses that do not parse are None. Agreement is kept if the records do not clash. */
    method RestorePod(p: Pod, ip4: Option<Bytes>, ip6: Option<Bytes>, eniId: string)
      requires Keyed()
      modifies this`v4, this`v6
      ensures Keyed()
      ensures v4 == if eniId == eni then Recovered(old(v4), p, ip4) else old(v4)
      ensures v6 == if eniId == eni then Recovered(old(v6), p, ip6) else old(v6)
      ensures old(Valid() && NoClash(v4, p, ip4) && NoClash(v6, p, ip6)) ==> Valid()
    {
      if eniId != eni {
        return;
      }
      v4 := RestoreSome(v4, p, ip4, all);
      v6 := RestoreSome(v6, p, ip6, all);
    }

    method UpdatePrefixes(list: seq<Entry>, isIPv6: bool)
      requires Valid() && ListIn(list, all)
      modifies this`v4, this`v6
      ensures Valid()
      ensures State() == if isIPv6 then old(State()).(v6 := Update(old(v6), list))
                         else old(State()).(v4 := Update(old(v4), list))
    {
      ListedIn(list, all);
      if isIPv6 {
        UpdateOk(v6, list);
        v6 := UpdateIn(v6, list);
      } else {
        UpdateOk(v4, list);
        v4 := UpdateIn(v4, list);
      }
    }

    predicate IsEmpty()
      reads this
    {
      v4.prefixes == map[] && v6.prefixes == map[]
    }
  }
}
