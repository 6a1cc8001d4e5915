/**
 * The two counter factories of closures.js: `Outer`, whose closure `Inner`
 * increments `count` and shows it, and `counter2`, whose anonymous closure
 * increments `num` and returns it. Each factory call is one object here; the
 * captured variable is its field.
 */
module Counters {

  /** The state created by one call of `Outer()`. */
  class Outer {
    var count: int

    constructor ()
      ensures count == 0
    {
      count := 0;
    }

    /** One call of `Inner`: `count` grows by one and `shown` is the value it shows. */
    method Inner() returns (shown: int)
      modifies this
      ensures count == old(count) + 1
      ensures shown == count
    {
      count := count + 1;
      shown := count;
    }
  }

  /** The state created by one call of `counter2()`. */
  class Counter2 {
    var num: int

    constructor ()
      ensures num == 0
    {
      num := 0;
    }

    /** One call of the returned closure: `num` grows by one and the new value is returned. */
    method Call() returns (r: int)
      modifies this
      ensures num == old(num) + 1
      ensures r == num
    {
      num := num + 1;
      r := num;
    }
  }

  /** `k` calls of one `counter2` closure; `results[i]` is what the (i+1)-th call returned. */
  method CallMany(c: Counter2, k: nat) returns (results: seq<int>)
    modifies c
    ensures c.num == old(c.num) + k
    ensures |results| == k
    ensures forall i :: 0 <= i < k ==> results[i] == old(c.num) + i + 1
  {
    results := [];
    while |results| < k
      invariant |results| <= k
      invariant c.num == old(c.num) + |results|
      invariant forall i :: 0 <= i < |results| ==> results[i] == old(c.num) + i + 1
    {
      var r := c.Call();
      results := results + [r];
    }
  }

  /** `k` calls of one `Inner` closure; `shown[i]` is what the (i+1)-th call showed. */
  method InnerMany(o: Outer, k: nat) returns (shown: seq<int>)
    modifies o
    ensures o.count == old(o.count) + k
    ensures |shown| == k
    ensures forall i :: 0 <= i < k ==> shown[i] == old(o.count) + i + 1
  {
    shown := [];
    while |shown| < k
      invariant |shown| <= k
      invariant o.count == old(o.count) + |shown|
      invariant forall i :: 0 <= i < |shown| ==> shown[i] == old(o.count) + i + 1
    {
      var s := o.Inner();
      shown := shown + [s];
    }
  }

  /** On a fresh `counter2()` closure the k-th call returns k. */
  method FreshCounterCalls(k: nat) returns (results: seq<int>)
    ensures |results| == k
    ensures forall i :: 0 <= i < k ==> results[i] == i + 1
  {
    var c := new Counter2();
    results := CallMany(c, k);
  }

  /** On a fresh `Outer()` counter the k-th call of `Inner` shows k. */
  method FreshOuterCalls(k: nat) returns (shown: seq<int>)
    ensures |shown| == k
    ensures forall i :: 0 <= i < k ==> shown[i] == i + 1
  {
    var o := new Outer();
    shown := InnerMany(o, k);
  }

  /**
   * Two `counter2()` closures share nothing: `c1` is called `n` times, then a
   * second counter `c2` is created and called once, then `c1` once more.
   * `c2` starts from scratch and `c1` carries on where it left off.
   */
  method TwoCounters(n: nat) returns (fromFirst: seq<int>, firstOfSecond: int, nextOfFirst: int)
    ensures |fromFirst| == n
    ensures forall i :: 0 <= i < n ==> fromFirst[i] == i + 1
    ensures firstOfSecond == 1
    ensures nextOfFirst == n + 1
  {
    var c1 := new Counter2();
    fromFirst := CallMany(c1, n);
    var c2 := new Counter2();
    firstOfSecond := c2.Call();
    nextOfFirst := c1.Call();
  }
}
