/** Shared vocabulary: options, small arithmetic, queues with removals, and set-cardinality facts. */
module Util {

  datatype Option<+T> = None | Some(value: T)

  function Max(x: int, y: int): int {
    if x >= y then x else y
  }

  function Min(x: int, y: int): int {
    if x <= y then x else y
  }

  /** The queue `q` without the members of `gone`, order kept. */
  function Drop<T(==)>(q: seq<T>, gone: set<T>): seq<T> {
    if q == [] then []
    else if q[0] in gone then Drop(q[1..], gone)
    else [q[0]] + Drop(q[1..], gone)
  }

  /** Dropping removes every occurrence of a dropped member and no occurrence of any other. */
  lemma {:induction false} DropCount<T>(q: seq<T>, gone: set<T>, x: T)
    ensures multiset(Drop(q, gone))[x] == if x in gone then 0 else multiset(q)[x]
  {
    if q != [] {
      assert q == [q[0]] + q[1..];
      DropCount(q[1..], gone, x);
    }
  }

  lemma DropCounts<T>(q: seq<T>, gone: set<T>)
    ensures forall x :: multiset(Drop(q, gone))[x] == if x in gone then 0 else multiset(q)[x]
    ensures forall x :: x in Drop(q, gone) <==> x in q && x !in gone
    ensures |Drop(q, gone)| <= |q|
  {
    forall x ensures multiset(Drop(q, gone))[x] == if x in gone then 0 else multiset(q)[x] {
      DropCount(q, gone, x);
    }
    forall x ensures x in Drop(q, gone) <==> x in q && x !in gone {
      assert x in Drop(q, gone) <==> x in multiset(Drop(q, gone));
      assert x in q <==> x in multiset(q);
    }
    DropLength(q, gone);
  }

  lemma {:induction false} DropLength<T>(q: seq<T>, gone: set<T>)
    ensures |Drop(q, gone)| <= |q|
  {
    if q != [] {
      DropLength(q[1..], gone);
    }
  }

  /** Dropping distributes over an appended element, as a loop over the queue needs. */
  lemma {:induction false} DropAppend<T>(q: seq<T>, x: T, gone: set<T>)
    ensures Drop(q + [x], gone) == Drop(q, gone) + if x in gone then [] else [x]
  {
    if q != [] {
      assert (q + [x])[1..] == q[1..] + [x];
      DropAppend(q[1..], x, gone);
    }
  }

  lemma SubsetCard<T>(a: set<T>, b: set<T>)
    requires a <= b
    ensures |a| <= |b|
  {
    assert b == a + (b - a);
  }

  /** A map that is injective into `range` has no more keys than `range` has members. */
  lemma {:induction false} InjectiveCard<K, V>(m: map<K, V>, range: set<V>)
    requires forall k :: k in m ==> m[k] in range
    requires forall k, l :: k in m && l in m && m[k] == m[l] ==> k == l
    ensures |m| <= |range|
    decreases |m|
  {
    if m.Keys != {} {
      var k :| k in m.Keys;
      var rest := m - {k};
      assert rest.Keys == m.Keys - {k};
      assert |m| == |rest| + 1 by {
        assert m.Keys == rest.Keys + {k};
      }
      InjectiveCard(rest, range - {m[k]});
    }
  }

  /** An order in which a map with these keys may be visited. */
  ghost predicate Enumerates<K(!new)>(order: seq<K>, keys: set<K>) {
    (forall k :: k in order <==> k in keys) && forall i, j :: 0 <= i < j < |order| ==> order[i] != order[j]
  }
}
