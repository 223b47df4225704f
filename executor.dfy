// What the `Promise` constructor makes of an executor: the executor is
// known by the calls it makes to `resolve` and `reject`, in order, and by
// whether it then throws (a throw is caught and becomes one more `_reject`).
// The settlement these calls produce is the first one that settles; every
// later call finds the promise settled and changes nothing.

module Executors {
  import opened Values

  datatype ExecutorCall = CallResolve(v: Value) | CallReject(v: Value)

  datatype Executor = Executor(calls: seq<ExecutorCall>, throws: Option<Value>)

  /** The state a call asks for: `_resolve` fulfils, `_reject` rejects. */
  function CallStatus(c: ExecutorCall): (st: Status)
    ensures st != Pending
    ensures c.CallResolve? <==> st == Fulfilled
  {
    if c.CallResolve? then Fulfilled else Rejected
  }

  /** What one call does to a pending promise: a promise instance is adopted
      and the promise stays pending; any other value settles it. */
  function Settles(c: ExecutorCall): Option<(Status, Value)>
  {
    if c.v.PromiseRef? then None else Some((CallStatus(c), c.v))
  }

  /** The calls `_resolve`/`_reject` receive during construction, in order:
      the executor's own, then `_reject(e)` from the constructor's `catch`. */
  function ConstructorCalls(ex: Executor): (cs: seq<ExecutorCall>)
    ensures |cs| == |ex.calls| + (if ex.throws.Some? then 1 else 0)
    ensures cs[..|ex.calls|] == ex.calls
    ensures ex.throws.Some? ==> cs[|ex.calls|] == CallReject(ex.throws.value)
  {
    ex.calls + (if ex.throws.Some? then [CallReject(ex.throws.value)] else [])
  }

  /** The settlement after `calls` have run one after the other on a fresh
      promise: the latest call only matters while the earlier ones settled
      nothing. */
  function Outcome(calls: seq<ExecutorCall>): (o: Option<(Status, Value)>)
    ensures o.Some? ==> o.value.0 != Pending
  {
    if calls == [] then None
    else
      var earlier := Outcome(calls[..|calls| - 1]);
      if earlier.Some? then earlier else Settles(calls[|calls| - 1])
  }

  /** The outcome is the settlement of the first call that settles, and
      there is none exactly when every call passed an instance. */
  lemma {:induction false} OutcomeIsFirstSettling(calls: seq<ExecutorCall>)
    ensures Outcome(calls).None? <==> forall j | 0 <= j < |calls| :: Settles(calls[j]).None?
    ensures Outcome(calls).Some? ==>
      exists j | 0 <= j < |calls| ::
        Outcome(calls) == Settles(calls[j]) && forall k | 0 <= k < j :: Settles(calls[k]).None?
  {
    if calls != [] {
      var init := calls[..|calls| - 1];
      OutcomeIsFirstSettling(init);
      assert forall j | 0 <= j < |init| :: init[j] == calls[j];
      if Outcome(init).Some? {
        var j :| 0 <= j < |init| &&
          Outcome(init) == Settles(init[j]) && forall k | 0 <= k < j :: Settles(init[k]).None?;
        assert Outcome(calls) == Settles(calls[j]);
      } else {
        assert Outcome(calls) == Settles(calls[|calls| - 1]);
      }
    }
  }

  /** At-most-once settlement: once a prefix of the calls has settled the
      promise, the remaining calls (and a later throw) change nothing. */
  lemma {:induction false} OutcomeIsFinal(calls: seq<ExecutorCall>, m: nat)
    requires m <= |calls| && Outcome(calls[..m]).Some?
    ensures Outcome(calls) == Outcome(calls[..m])
    decreases |calls|
  {
    if m < |calls| {
      var init := calls[..|calls| - 1];
      assert init[..m] == calls[..m];
      OutcomeIsFinal(init, m);
    } else {
      assert calls[..m] == calls;
    }
  }

  /** `new P((resolve, reject) => { resolve(x); reject(y); throw e; })`
      fulfils with `x` when `x` is not a promise instance. */
  lemma ResolveThenRejectThenThrow(x: Value, y: Value, e: Value)
    requires !x.PromiseRef?
    ensures Outcome(ConstructorCalls(Executor([CallResolve(x), CallReject(y)], Some(e)))) == Some((Fulfilled, x))
  {
    var cs := ConstructorCalls(Executor([CallResolve(x), CallReject(y)], Some(e)));
    assert cs[..1] == [CallResolve(x)];
    assert Outcome(cs[..1]) == Some((Fulfilled, x)) by {
      assert cs[..1][..0] == [];
    }
    OutcomeIsFinal(cs, 1);
  }

  /** `new P(resolve => { resolve(p); resolve(x); })` with `p` an instance:
      the adoption does not settle, so the later call still does. */
  lemma AdoptionDoesNotSettle(p: nat, x: Value)
    requires !x.PromiseRef?
    ensures Outcome([CallResolve(PromiseRef(p)), CallResolve(x)]) == Some((Fulfilled, x))
  {
    var cs := [CallResolve(PromiseRef(p)), CallResolve(x)];
    assert cs[..|cs| - 1] == [CallResolve(PromiseRef(p))];
    assert Outcome(cs[..|cs| - 1]) == None by {
      assert cs[..|cs| - 1][..0] == [];
    }
  }
}
