// The state that the `all` and `any` combinators keep in their closures
// (`promiseCount`, `results`) and the updates their callbacks make to it.
// The runtime keeps one such record per combinator call; the lemmas here
// say what a run of callbacks does to it, whatever the order they run in.

module Aggregates {
  import opened Values

  /** The captured state of one `P.all` call: the promise it settles, the
      input length, `promiseCount` and the sparse array `results`. */
  datatype AllState = AllState(target: nat, length: nat, count: nat, results: map<nat, Value>)

  /** The state of an `any` call: the promise it settles, the input length
      and `promiseCount`, which counts rejections. */
  datatype AnyState = AnyState(target: nat, length: nat, count: nat)

  function AllStart(target: nat, length: nat): AllState
  {
    AllState(target, length, 0, map[])
  }

  /** The fulfilment callback for input `index`:
      `results[index] = result; promiseCount++`. */
  function AllRecord(a: AllState, index: nat, v: Value): AllState
  {
    a.(results := a.results[index := v], count := a.count + 1)
  }

  /** `promiseCount === promises.length`: the moment `all` resolves. */
  predicate AllComplete(a: AllState)
  {
    a.count == a.length
  }

  /** The array `results` as handed to `resolve`: a JavaScript array of the
      input's length whose holes read as `undefined`. */
  function Densify(results: map<nat, Value>, n: nat): (s: seq<Value>)
    ensures |s| == n
    ensures forall i | 0 <= i < n :: s[i] == if i in results then results[i] else Undef
  {
    seq(n, i requires 0 <= i < n => if i in results then results[i] else Undef)
  }

  function AnyStart(target: nat, length: nat): AnyState
  {
    AnyState(target, length, 0)
  }

  /** The rejection callback of `any`: `promiseCount++`. */
  function AnyRecordRejection(a: AnyState): AnyState
  {
    a.(count := a.count + 1)
  }

  /** `promiseCount === promises.length`: the moment `any` gives up. */
  predicate AnyExhausted(a: AnyState)
  {
    a.count == a.length
  }

  // ---------------------------------------------------------------------
  // Replaying the fulfilment callbacks of `all` in the order they ran.
  // An observation (i, v) is "input i fulfilled with v".

  function AllReplay(a: AllState, obs: seq<(nat, Value)>): AllState
  {
    if obs == [] then a
    else AllRecord(AllReplay(a, obs[..|obs| - 1]), obs[|obs| - 1].0, obs[|obs| - 1].1)
  }

  /** Each input's reaction runs once, so no index is observed twice. */
  predicate DistinctIndices(obs: seq<(nat, Value)>)
  {
    forall j1, j2 | 0 <= j1 < j2 < |obs| :: obs[j1].0 != obs[j2].0
  }

  function Indices(obs: seq<(nat, Value)>): set<nat>
  {
    set j | 0 <= j < |obs| :: obs[j].0
  }

  /** The indices 0 .. n-1. */
  function Range(n: nat): (r: set<nat>)
    ensures forall i: nat :: i in r <==> i < n
  {
    if n == 0 then {} else Range(n - 1) + {n - 1}
  }

  lemma {:induction false} RangeCard(n: nat)
    ensures |Range(n)| == n
  {
    if n > 0 {
      RangeCard(n - 1);
      assert n - 1 !in Range(n - 1);
    }
  }

  lemma {:induction false} IndicesCard(obs: seq<(nat, Value)>)
    requires DistinctIndices(obs)
    ensures |Indices(obs)| == |obs|
  {
    if obs != [] {
      var init := obs[..|obs| - 1];
      IndicesCard(init);
      assert Indices(obs) == Indices(init) + {obs[|obs| - 1].0};
      assert obs[|obs| - 1].0 !in Indices(init);
    }
  }

  lemma {:induction false} SubsetOfSameSize(a: set<nat>, b: set<nat>)
    requires a <= b && |a| == |b|
    ensures a == b
  {
    if a != b {
      assert b - a != {} by {
        if b - a == {} {
          forall x | x in b
            ensures x in a
          {
            assert x !in b - a;
          }
        }
      }
      var x :| x in b - a;
      assert a <= b - {x};
      assert |b - {x}| == |b| - 1;
      SubsetCard(a, b - {x});
    }
  }

  lemma {:induction false} SubsetCard(a: set<nat>, b: set<nat>)
    requires a <= b
    ensures |a| <= |b|
  {
    assert b == a + (b - a);
  }

  /** Replaying distinct observations from a fresh state: the counter is
      the number of callbacks that ran and slot i holds the value input i
      fulfilled with, whatever the order of the callbacks. */
  lemma {:induction false} AllReplayRecords(t: nat, n: nat, obs: seq<(nat, Value)>)
    requires DistinctIndices(obs)
    ensures AllReplay(AllStart(t, n), obs).target == t
    ensures AllReplay(AllStart(t, n), obs).length == n
    ensures AllReplay(AllStart(t, n), obs).count == |obs|
    ensures AllReplay(AllStart(t, n), obs).results.Keys == Indices(obs)
    ensures forall j | 0 <= j < |obs| :: AllReplay(AllStart(t, n), obs).results[obs[j].0] == obs[j].1
  {
    if obs != [] {
      var init := obs[..|obs| - 1];
      assert DistinctIndices(init);
      AllReplayRecords(t, n, init);
      assert Indices(obs) == Indices(init) + {obs[|obs| - 1].0};
      var a := AllReplay(AllStart(t, n), obs);
      forall j | 0 <= j < |obs|
        ensures a.results[obs[j].0] == obs[j].1
      {
        if j < |obs| - 1 {
          assert obs[j] == init[j];
        }
      }
    }
  }

  /** `all` resolves exactly when every input has fulfilled, and then slot
      i of the array it resolves with holds input i's value: the result is
      in input order, not completion order. */
  lemma AllCompletesInIndexOrder(t: nat, n: nat, obs: seq<(nat, Value)>)
    requires DistinctIndices(obs)
    requires forall j | 0 <= j < |obs| :: obs[j].0 < n
    ensures AllComplete(AllReplay(AllStart(t, n), obs)) <==> Indices(obs) == Range(n)
    ensures AllComplete(AllReplay(AllStart(t, n), obs)) ==>
      forall j | 0 <= j < |obs| :: Densify(AllReplay(AllStart(t, n), obs).results, n)[obs[j].0] == obs[j].1
  {
    AllReplayRecords(t, n, obs);
    IndicesCard(obs);
    RangeCard(n);
    assert Indices(obs) <= Range(n);
    if |obs| == n {
      SubsetOfSameSize(Indices(obs), Range(n));
    }
  }

  /** Every proper prefix of a run that completes leaves `all` incomplete:
      it resolves on the last fulfilment and not before. */
  lemma AllCompletesOnlyAtTheEnd(t: nat, n: nat, obs: seq<(nat, Value)>, m: nat)
    requires DistinctIndices(obs) && m < |obs|
    requires AllComplete(AllReplay(AllStart(t, n), obs))
    ensures !AllComplete(AllReplay(AllStart(t, n), obs[..m]))
  {
    AllReplayRecords(t, n, obs);
    assert DistinctIndices(obs[..m]);
    AllReplayRecords(t, n, obs[..m]);
  }

  /** Three inputs fulfilling out of order still give `[v0, v1, v2]`. */
  lemma AllOutOfOrderExample(t: nat, v0: Value, v1: Value, v2: Value)
    ensures var a := AllReplay(AllStart(t, 3), [(2, v2), (0, v0), (1, v1)]);
      AllComplete(a) && Densify(a.results, 3) == [v0, v1, v2]
  {
    var obs := [(2, v2), (0, v0), (1, v1)];
    AllReplayRecords(t, 3, obs);
    var a := AllReplay(AllStart(t, 3), obs);
    assert a.results[0] == v0 && a.results[1] == v1 && a.results[2] == v2 by {
      assert obs[0].0 == 2 && obs[1].0 == 0 && obs[2].0 == 1;
    }
  }

  function AnyReplay(a: AnyState, rejections: nat): AnyState
  {
    if rejections == 0 then a else AnyRecordRejection(AnyReplay(a, rejections - 1))
  }

  /** `any` gives up exactly when the number of rejection callbacks that
      have run equals the input length, never earlier. */
  lemma {:induction false} AnyExhaustedExactly(t: nat, n: nat, k: nat)
    ensures AnyReplay(AnyStart(t, n), k).count == k
    ensures AnyReplay(AnyStart(t, n), k).target == t && AnyReplay(AnyStart(t, n), k).length == n
    ensures AnyExhausted(AnyReplay(AnyStart(t, n), k)) <==> k == n
  {
    if k > 0 {
      AnyExhaustedExactly(t, n, k - 1);
    }
  }
}
