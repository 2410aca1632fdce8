/**
 The notifier that wakes allocation waiters (pkg/eni/notify.go). Sending on a closed channel and closing a
 channel twice panic in Go; here they are preconditions that every method of the notifier meets.
 */
module Notify {

  /** A Go channel of empty structs: how many are buffered, and whether it is closed. */
  class Channel {
    const capacity: nat
    var buffered: nat
    var closed: bool

    constructor (capacity: nat)
      ensures this.capacity == capacity && buffered == 0 && !closed
    {
      this.capacity, buffered, closed := capacity, 0, false;
    }

    /** A send that gives up when the buffer is full. */
    method TrySend()
      requires !closed
      modifies this`buffered
      ensures buffered == if old(buffered) < capacity then old(buffered) + 1 else old(buffered)
    {
      if buffered < capacity {
        buffered := buffered + 1;
      }
    }

    method Close()
      requires !closed
      modifies this`closed
      ensures closed
    {
      closed := true;
    }
  }

  class Notifier {
    var subscribers: seq<Channel>
    var closed: bool

    /** The subscribers are distinct open channels of one slot; a closed notifier has none. */
    ghost predicate Valid()
      reads this, subscribers
    {
      && (closed ==> subscribers == [])
      && (forall i :: 0 <= i < |subscribers| ==>
                        !subscribers[i].closed && subscribers[i].capacity == 1 && subscribers[i].buffered <= 1)
      && (forall i, j :: 0 <= i < j < |subscribers| ==> subscribers[i] != subscribers[j])
    }

    constructor ()
      ensures Valid() && subscribers == [] && !closed
    {
      subscribers, closed := [], false;
    }

    /** A fresh empty channel among the subscribers, or a closed one from a closed notifier. */
    method Subscribe() returns (ch: Channel)
      requires Valid()
      modifies this`subscribers
      ensures Valid() && fresh(ch) && ch.buffered == 0 && ch.closed == closed
      ensures subscribers == if closed then old(subscribers) else old(subscribers) + [ch]
    {
      if closed {
        ch := new Channel(0);
        ch.Close();
        return;
      }
      ch := new Channel(1);
      subscribers := subscribers + [ch];
    }

    /** Afterwards every subscriber has a token, and no channel was closed or sent on after its close. */
    method Notify()
      requires Valid()
      modifies subscribers
      ensures Valid()
      ensures forall ch :: ch in subscribers ==> ch.buffered == 1
    {
      if closed || |subscribers| == 0 {
        return;
      }
      for i := 0 to |subscribers|
        invariant Valid()
        invariant forall j :: 0 <= j < i ==> subscribers[j].buffered == 1
      {
        subscribers[i].TrySend();
      }
    }

    /** A subscriber is removed and closed; any other channel is left alone. */
    method Unsubscribe(ch: Channel)
      requires Valid()
      modifies this`subscribers, ch`closed
      ensures Valid() && ch !in subscribers
      ensures ch.closed == old(ch.closed || ch in subscribers)
      ensures forall c :: c in subscribers <==> c in old(subscribers) && c != ch
      ensures multiset(subscribers) + (if ch in old(subscribers) then multiset{ch} else multiset{}) == multiset(old(subscribers))
    {
      if closed {
        return;
      }
      for i := 0 to |subscribers|
        invariant subscribers == old(subscribers) && ch.closed == old(ch.closed)
        invariant forall j :: 0 <= j < i ==> subscribers[j] != ch
      {
        if subscribers[i] == ch {
          Removed(subscribers, i);
          subscribers := subscribers[..i] + subscribers[i + 1..];
          ch.Close();
          return;
        }
      }
    }

    lemma Removed(s: seq<Channel>, i: nat)
      requires i < |s| && forall j, k :: 0 <= j < k < |s| ==> s[j] != s[k]
      ensures forall c :: c in s[..i] + s[i + 1..] <==> c in s && c != s[i]
      ensures multiset(s[..i] + s[i + 1..]) + multiset{s[i]} == multiset(s)
    {
      assert s == s[..i] + [s[i]] + s[i + 1..];
      forall c | c in s && c != s[i] ensures c in s[..i] + s[i + 1..] {
      }
    }

    /** All subscribers are closed, once each. */
    method Close()
      requires Valid()
      modifies this, subscribers
      ensures Valid() && closed
      ensures forall ch :: ch in old(subscribers) ==> ch.closed
    {
      if closed {
        return;
      }
      closed := true;
      for i := 0 to |subscribers|
        invariant closed && subscribers == old(subscribers)
        invariant forall j :: 0 <= j < i ==> subscribers[j].closed
        invariant forall j :: i <= j < |subscribers| ==> !subscribers[j].closed
      {
        subscribers[i].Close();
      }
      subscribers := [];
    }
  }
}
