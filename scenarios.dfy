// Runs of the library on a fresh `Runtime`, following the test cases of
// test/index.test.js: the synchronous calls the test makes, then the tasks
// the host takes off the `invokeAsync` queue, one `Step` at a time.

module Scenarios {
  import opened Values
  import opened PromiseState
  import opened Transitions
  import opened Engine

  /** `result => result * 2` on numbers. */
  function Double(x: Value): Completion
  {
    if x.Num? then Return(Num(2 * x.n)) else Throw(x)
  }

  /** `error => 'recovered'`. */
  function Recover(x: Value): Completion
  {
    Return(Str("recovered"))
  }

  /** The synchronous part of `new P(resolve => resolve(2)).then(result
      => result * 2)`: the source fulfilled and handled, the derived promise
      pending, and two drain tasks queued (the constructor's, empty, and
      then's). */
  method ChainThenSetup() returns (rt: Runtime)
    ensures fresh(rt) && rt.Valid()
    ensures rt.promises == [PromiseObj(Fulfilled, Num(2), true, []), Fresh()]
    ensures rt.tasks == [RunHandlers(0, []), RunHandlers(0, [Reaction(User(Double), Rethrow, 1)])]
  {
    rt := new Runtime();
    var p := rt.Try(Num(2));
    assert rt.promises == [PromiseObj(Fulfilled, Num(2), false, [])];
    assert rt.tasks == [RunHandlers(p, [])];
    ghost var h1 := rt.Snapshot();
    ghost var rx := Reaction(User(Double), Rethrow, 1);
    SubscribedWf(h1, p, rx);
    var d := rt.Then(p, Some(User(Double)), None);
    assert d == 1;
    assert Reaction(SuccessOrDefault(Some(User(Double))), FailOrDefault(None), d) == rx;
    assert rt.Snapshot() == Subscribed(h1, p, rx);
    assert h1.promises[p].handlers + [rx] == [rx];
  }

  /** The first task, the drain `try` queued when it fulfilled, has no
      reactions to run; the one `then` queued is left. */
  method ChainThenFirstStep() returns (rt: Runtime)
    ensures fresh(rt) && rt.Valid()
    ensures rt.promises == [PromiseObj(Fulfilled, Num(2), true, []), Fresh()]
    ensures rt.tasks == [RunHandlers(0, [Reaction(User(Double), Rethrow, 1)])]
  {
    rt := ChainThenSetup();
    rt.Step();
  }

  /** `new P(resolve => resolve(2)).then(result => result * 2)`: once the
      two drain tasks have run, the derived promise holds 4. */
  method ChainThen() returns (st: Status, v: Value)
    ensures st == Fulfilled && v == Num(4)
  {
    var rt := ChainThenFirstStep();
    ghost var rx := Reaction(User(Double), Rethrow, 1);
    ghost var h := rt.Snapshot().(tasks := []);
    assert FiredAll(h, 0, [rx]) == Fired(h, 0, rx) by {
      assert [rx][..0] == [];
    }
    rt.Step();
    FiredPure(h, 0, rx);
    ResolvedWf(h.(fired := h.fired + [Firing(0, User(Double), Num(2), 1)]), 1, Fulfilled, Num(4));
    st, v := rt.promises[1].state, rt.promises[1].value;
  }

  /** `P.reject('Error')` with no handler: the unhandled-rejection task,
      first in the queue, throws the reason on the host. */
  method UnhandledRejection() returns (thrown: seq<Value>)
    ensures thrown == [Str("Error")]
  {
    var rt := new Runtime();
    var p := rt.StaticReject(Str("Error"));
    assert rt.tasks[0] == UnhandledCheck(p);
    rt.Step();
    thrown := rt.uncaught;
  }

  /** `P.reject('Error').catch(...)`: the handler is attached before the
      host runs the unhandled-rejection task, so that task finds the
      promise handled and throws nothing. */
  method CaughtRejection() returns (thrown: seq<Value>)
    ensures thrown == []
  {
    var rt := new Runtime();
    var p := rt.StaticReject(Str("Error"));
    assert rt.tasks[0] == UnhandledCheck(p);
    var d := rt.Catch(p, Some(User(Recover)));
    assert rt.tasks[0] == UnhandledCheck(p) && rt.promises[p].handled;
    rt.Step();
    thrown := rt.uncaught;
  }
}
