// The promise library as it runs: one `Runtime` object holds every promise
// instance (an id is an index into `promises`), the `invokeAsync` queue,
// the closure state of the `all` and `any` calls, the trace of reaction
// invocations and the values the unhandled-rejection check threw on the
// host. Each method performs one operation of src/promise.js in place and
// is proved to leave the state the transition functions of Transitions
// describe.

module Engine {
  import opened Values
  import opened Aggregates
  import opened PromiseState
  import opened Transitions
  import opened Executors
  import opened Combinators

  /** The values an executor passes to `resolve` and `reject`. */
  function CallValues(cs: seq<ExecutorCall>): (vs: seq<Value>)
    ensures |vs| == |cs| && forall i | 0 <= i < |cs| :: vs[i] == cs[i].v
  {
    seq(|cs|, i requires 0 <= i < |cs| => cs[i].v)
  }

  /** The promise reached the settlement `o`, or is still PENDING when
      there is none. */
  predicate Reached(p: PromiseObj, o: Option<(Status, Value)>)
  {
    if o.None? then p.state == Pending else p.state == o.value.0 && p.value == o.value.1
  }

  /** The heap after the calls `cs` reach `_resolve`/`_reject` of the
      promise `id`, one after the other: a fold of `_updateResult`. */
  ghost function Constructed(h: Heap, id: nat, cs: seq<ExecutorCall>): (r: Heap)
    requires Wf(h) && id < |h.promises|
    ensures Wf(r) && Extends(h, r) && KeepsOthers(h.promises, r.promises, id)
    ensures r.alls == h.alls && r.anys == h.anys && r.fired == h.fired && r.uncaught == h.uncaught
    decreases |cs|
  {
    if cs == [] then h
    else
      var m := Constructed(h, id, cs[..|cs| - 1]);
      var c := Last(cs);
      ResolvedWf(m, id, CallStatus(c), c.v);
      ExtendsTransitive(h, m, Resolved(m, id, CallStatus(c), c.v));
      KeepsOthersTransitive(h.promises, m.promises, Resolved(m, id, CallStatus(c), c.v).promises, id);
      Resolved(m, id, CallStatus(c), c.v)
  }

  /** One more call of the fold. */
  lemma ConstructedSnoc(h: Heap, id: nat, cs: seq<ExecutorCall>, i: nat)
    requires Wf(h) && id < |h.promises| && i < |cs|
    ensures var m := Constructed(h, id, cs[..i]);
      id < |m.promises| && Constructed(h, id, cs[..i + 1]) == Resolved(m, id, CallStatus(cs[i]), cs[i].v)
  {
    assert cs[..i + 1][..i] == cs[..i];
  }

  /** Starting from a pending promise, the fold ends with the settlement of
      the first call that settles, and PENDING when every call passed an
      instance (allocated before `id`, so the adoption test sees it). */
  lemma {:induction false} ConstructedReaches(h: Heap, id: nat, cs: seq<ExecutorCall>)
    requires Wf(h) && id < |h.promises| && h.promises[id].state == Pending
    requires AllAllocated(CallValues(cs), id)
    ensures Reached(Constructed(h, id, cs).promises[id], Outcome(cs))
    decreases |cs|
  {
    if cs != [] {
      var init := cs[..|cs| - 1];
      assert AllAllocated(CallValues(init), id) by {
        forall j | 0 <= j < |init| ensures CallValues(init)[j] == CallValues(cs)[j] {
          assert init[j] == cs[j];
        }
      }
      ConstructedReaches(h, id, init);
      var m := Constructed(h, id, init);
      var c := Last(cs);
      assert CallValues(cs)[|cs| - 1] == c.v;
      assert c.v.PromiseRef? <==> IsThenable(c.v, |m.promises|);
      ResolvedWf(m, id, CallStatus(c), c.v);
    }
  }

  class Runtime {
    var promises: seq<PromiseObj>
    var tasks: seq<Task>
    var alls: seq<AllState>
    var anys: seq<AnyState>
    ghost var fired: seq<Firing>
    var uncaught: seq<Value>

    ghost function Snapshot(): Heap
      reads this
    {
      Heap(promises, tasks, alls, anys, fired, uncaught)
    }

    ghost predicate Valid()
      reads this
    {
      Wf(Snapshot())
    }

    constructor ()
      ensures Valid() && Snapshot() == EmptyHeap()
    {
      promises, tasks, alls, anys := [], [], [], [];
      fired, uncaught := [], [];
    }

    /** The allocation in `new P(...)`: `state = PENDING`, `_handled =
        false`, `handlers = []`, at the next id. */
    method Allocate() returns (id: nat)
      requires Valid()
      modifies this
      ensures Valid() && Extends(old(Snapshot()), Snapshot())
      ensures id == old(|promises|) && Snapshot() == Allocated(old(Snapshot()))
    {
      AllocatedWf(Snapshot());
      id := |promises|;
      promises := promises + [Fresh()];
    }

    /** `_executeHandlers`. */
    method ExecuteHandlers(id: nat)
      requires Valid() && id < |promises|
      modifies this
      ensures Valid() && Snapshot() == Drained(old(Snapshot()), id)
    {
      DrainedWf(Snapshot(), id);
      var self := promises[id];
      if self.state == Pending {
        return;
      }
      ghost var before := tasks;
      if self.state == Rejected && !self.handled {
        tasks := tasks + [UnhandledCheck(id)];
      }
      var handlers := self.handlers;
      promises := promises[id := self.(handlers := [])];
      tasks := tasks + [RunHandlers(id, handlers)];
      assert tasks == before + Dispatch(id, self);
    }

    /** `_updateResult(state, value)`. */
    method UpdateResult(id: nat, st: Status, v: Value)
      requires Valid() && id < |promises| && st != Pending
      modifies this
      ensures Valid() && Snapshot() == Resolved(old(Snapshot()), id, st, v)
      ensures Extends(old(Snapshot()), Snapshot()) && KeepsOthers(old(promises), promises, id)
      ensures alls == old(alls) && anys == old(anys) && fired == old(fired) && uncaught == old(uncaught)
    {
      ResolvedWf(Snapshot(), id, st, v);
      if promises[id].state != Pending {
        return;
      }
      if IsThenable(v, |promises|) {
        var _ := Then(v.id, Some(ResolveWith(id)), Some(RejectWith(id)));
        return;
      }
      WrittenWf(Snapshot(), id, st, v);
      promises := promises[id := promises[id].(state := st, value := v)];
      ExecuteHandlers(id);
    }

    /** `_resolve(value)`. */
    method Resolve(id: nat, v: Value)
      requires Valid() && id < |promises|
      modifies this
      ensures Valid() && Snapshot() == Resolved(old(Snapshot()), id, Fulfilled, v)
      ensures Extends(old(Snapshot()), Snapshot()) && KeepsOthers(old(promises), promises, id)
      ensures alls == old(alls) && anys == old(anys) && fired == old(fired) && uncaught == old(uncaught)
    {
      UpdateResult(id, Fulfilled, v);
    }

    /** `_reject(value)`: the same path as `_resolve`, adoption included. */
    method Reject(id: nat, v: Value)
      requires Valid() && id < |promises|
      modifies this
      ensures Valid() && Snapshot() == Resolved(old(Snapshot()), id, Rejected, v)
      ensures Extends(old(Snapshot()), Snapshot()) && KeepsOthers(old(promises), promises, id)
      ensures alls == old(alls) && anys == old(anys) && fired == old(fired) && uncaught == old(uncaught)
    {
      UpdateResult(id, Rejected, v);
    }

    /** `then(onSuccess, onFail)`; `None` stands for an argument that is
        not a function. */
    method Then(src: nat, onSuccess: Option<Callback>, onFail: Option<Callback>) returns (d: nat)
      requires Valid() && src < |promises|
      requires OptionWf(onSuccess, BoundsOf(Snapshot())) && OptionWf(onFail, BoundsOf(Snapshot()))
      modifies this
      ensures Valid() && d == old(|promises|)
      ensures Snapshot() == Subscribed(old(Snapshot()), src, Reaction(SuccessOrDefault(onSuccess), FailOrDefault(onFail), d))
      ensures Extends(old(Snapshot()), Snapshot()) && KeepsOthers(old(promises), promises, -1)
      ensures alls == old(alls) && anys == old(anys) && fired == old(fired) && uncaught == old(uncaught)
    {
      ghost var h := Snapshot();
      var success := SuccessOrDefault(onSuccess);
      var fail := FailOrDefault(onFail);
      promises := promises[src := promises[src].(handled := true)];
      d := |promises|;
      promises := promises + [Fresh()];
      var rx := Reaction(success, fail, d);
      promises := promises[src := promises[src].(handlers := promises[src].handlers + [rx])];
      assert Snapshot() == Enqueued(h, src, rx);
      EnqueuedWf(h, src, rx);
      SubscribedWf(h, src, rx);
      ExecuteHandlers(src);
    }

    /** `catch(onFail)`, which is `then(0, onFail)`. */
    method Catch(src: nat, onFail: Option<Callback>) returns (d: nat)
      requires Valid() && src < |promises| && OptionWf(onFail, BoundsOf(Snapshot()))
      modifies this
      ensures Valid() && d == old(|promises|)
      ensures Snapshot() == Subscribed(old(Snapshot()), src, Reaction(Identity, FailOrDefault(onFail), d))
      ensures Extends(old(Snapshot()), Snapshot()) && KeepsOthers(old(promises), promises, -1)
      ensures alls == old(alls) && anys == old(anys) && fired == old(fired) && uncaught == old(uncaught)
    {
      d := Then(src, None, onFail);
    }

    /** `finally(callback)`: both branches run the callback; the flag says
        which way the source settled. */
    method Finally(src: nat, callback: Completion) returns (d: nat)
      requires Valid() && src < |promises|
      modifies this
      ensures Valid() && d == old(|promises|)
      ensures Snapshot() == Subscribed(old(Snapshot()), src,
        Reaction(FinallyRun(callback, false), FinallyRun(callback, true), d))
      ensures Extends(old(Snapshot()), Snapshot()) && KeepsOthers(old(promises), promises, -1)
      ensures alls == old(alls) && anys == old(anys) && fired == old(fired) && uncaught == old(uncaught)
    {
      d := Then(src, Some(FinallyRun(callback, false)), Some(FinallyRun(callback, true)));
    }
  
    // -------------------------------------------------------------------
    // Construction and the static factories.

    /** `new P(executor)`: a fresh instance, the executor's calls to
        `resolve`/`reject` in order, then `_reject(e)` if it threw `e`. The
        promise ends with the settlement of the first call that settles. */
    method New(ex: Executor) returns (id: nat)
      requires Valid() && AllAllocated(CallValues(ConstructorCalls(ex)), |promises|)
      modifies this
      ensures Valid() && id == old(|promises|)
      ensures Snapshot() == Constructed(Allocated(old(Snapshot())), id, ConstructorCalls(ex))
      ensures id < |promises| && Reached(promises[id], Outcome(ConstructorCalls(ex)))
    {
      var cs := ConstructorCalls(ex);
      id := Allocate();
      ghost var a := Snapshot();
      var i := 0;
      while i < |ex.calls|
        invariant 0 <= i <= |ex.calls|
        invariant Valid() && id < |promises| && Snapshot() == Constructed(a, id, cs[..i])
      {
        ConstructedSnoc(a, id, cs, i);
        ApplyCall(id, cs[i]);
        i := i + 1;
      }
      if ex.throws.Some? {
        ConstructedSnoc(a, id, cs, i);
        ApplyCall(id, cs[i]);
        i := i + 1;
      }
      assert cs[..i] == cs;
      ConstructedReaches(a, id, cs);
    }

    /** One call of the executor reaching the promise `id`: `resolve(v)` or
        `reject(v)`. */
    method ApplyCall(id: nat, c: ExecutorCall)
      requires Valid() && id < |promises|
      modifies this
      ensures Valid() && Snapshot() == Resolved(old(Snapshot()), id, CallStatus(c), c.v)
    {
      match c {
        case CallResolve(v) => Resolve(id, v);
        case CallReject(v) => Reject(id, v);
      }
    }

    /** `P.resolve(value)`: an instance is returned as it is; anything else
        goes to a new promise through `new P(resolve => resolve(value))`. */
    method StaticResolve(v: Value) returns (id: nat)
      requires Valid()
      modifies this
      ensures Valid() && Extends(old(Snapshot()), Snapshot()) && KeepsOthers(old(promises), promises, -1)
      ensures alls == old(alls) && anys == old(anys) && fired == old(fired) && uncaught == old(uncaught)
      ensures id < |promises| && (Snapshot(), id) == StaticResolved(old(Snapshot()), v)
      ensures IsThenable(v, old(|promises|)) ==> id == v.id && Snapshot() == old(Snapshot())
      ensures !IsThenable(v, old(|promises|)) ==>
        id == old(|promises|) && Snapshot() == Resolved(Allocated(old(Snapshot())), id, Fulfilled, v)
      ensures !v.PromiseRef? ==>
        promises == old(promises) + [PromiseObj(Fulfilled, v, false, [])] &&
        tasks == old(tasks) + [RunHandlers(id, [])]
    {
      if IsThenable(v, |promises|) {
        id := v.id;
        return;
      }
      id := New1(CallResolve(v));
    }

    /** `P.reject(value)`: `new P((_, reject) => reject(value))`, which also
        adopts an instance. */
    method StaticReject(v: Value) returns (id: nat)
      requires Valid()
      modifies this
      ensures Valid() && Extends(old(Snapshot()), Snapshot()) && KeepsOthers(old(promises), promises, -1)
      ensures alls == old(alls) && anys == old(anys) && fired == old(fired) && uncaught == old(uncaught)
      ensures id == old(|promises|) && id < |promises|
      ensures Snapshot() == Resolved(Allocated(old(Snapshot())), id, Rejected, v)
      ensures !v.PromiseRef? ==>
        promises == old(promises) + [PromiseObj(Rejected, v, false, [])] &&
        tasks == old(tasks) + [UnhandledCheck(id), RunHandlers(id, [])]
      ensures IsThenable(v, old(|promises|)) ==>
        promises[id].state == Pending &&
        Queued(Snapshot(), v.id, Reaction(ResolveWith(id), RejectWith(id), id + 1))
    {
      id := New1(CallReject(v));
    }

    /** `P.try(value)`: `new P(resolve => resolve(value))`; the argument is
        never called, and an instance is adopted rather than returned. */
    method Try(v: Value) returns (id: nat)
      requires Valid()
      modifies this
      ensures Valid() && Extends(old(Snapshot()), Snapshot()) && KeepsOthers(old(promises), promises, -1)
      ensures alls == old(alls) && anys == old(anys) && fired == old(fired) && uncaught == old(uncaught)
      ensures id == old(|promises|) && id < |promises|
      ensures Snapshot() == Resolved(Allocated(old(Snapshot())), id, Fulfilled, v)
      ensures !v.PromiseRef? ==>
        promises == old(promises) + [PromiseObj(Fulfilled, v, false, [])] &&
        tasks == old(tasks) + [RunHandlers(id, [])]
      ensures IsThenable(v, old(|promises|)) ==>
        promises[id].state == Pending &&
        Queued(Snapshot(), v.id, Reaction(ResolveWith(id), RejectWith(id), id + 1))
    {
      id := New1(CallResolve(v));
    }

    /** A new promise whose executor makes the single call `c`. */
    method New1(c: ExecutorCall) returns (id: nat)
      requires Valid()
      modifies this
      ensures Valid() && Extends(old(Snapshot()), Snapshot()) && KeepsOthers(old(promises), promises, -1)
      ensures alls == old(alls) && anys == old(anys) && fired == old(fired) && uncaught == old(uncaught)
      ensures id == old(|promises|) && id < |promises|
      ensures Snapshot() == Resolved(Allocated(old(Snapshot())), id, CallStatus(c), c.v)
      ensures !c.v.PromiseRef? ==>
        promises == old(promises) + [PromiseObj(CallStatus(c), c.v, false, [])] &&
        tasks == old(tasks) + Dispatch(id, PromiseObj(CallStatus(c), c.v, false, []))
      ensures IsThenable(c.v, old(|promises|)) ==>
        promises[id].state == Pending &&
        Queued(Snapshot(), c.v.id, Reaction(ResolveWith(id), RejectWith(id), id + 1))
    {
      ghost var h := Snapshot();
      id := Allocate();
      ghost var a := Snapshot();
      ResolvedWf(a, id, CallStatus(c), c.v);
      KeepsOthersTransitive(h.promises, a.promises, Resolved(a, id, CallStatus(c), c.v).promises, id);
      match c {
        case CallResolve(v) => Resolve(id, v);
        case CallReject(v) => Reject(id, v);
      }
      ExtendsTransitive(h, a, Snapshot());
      if !c.v.PromiseRef? {
        SettledWf(a, id, CallStatus(c), c.v);
      }
    }

    /** `P.withResolvers()`: a pending promise with its bound `_resolve`
        and `_reject`. */
    method WithResolvers() returns (id: nat, resolve: Callback, reject: Callback)
      requires Valid()
      modifies this
      ensures Valid() && Extends(old(Snapshot()), Snapshot())
      ensures id == old(|promises|) && Snapshot() == Allocated(old(Snapshot()))
      ensures resolve == ResolveWith(id) && reject == RejectWith(id)
      ensures CallbackWf(resolve, BoundsOf(Snapshot())) && CallbackWf(reject, BoundsOf(Snapshot()))
    {
      id := Allocate();
      resolve, reject := ResolveWith(id), RejectWith(id);
    }
  
    // -------------------------------------------------------------------
    // Running reactions: the tasks `invokeAsync` runs later.

    /** Calls `cb` with `v`, the way a reaction branch calls its callback. */
    method Call(cb: Callback, v: Value) returns (out: Completion)
      requires Valid() && CallbackWf(cb, BoundsOf(Snapshot()))
      modifies this
      ensures Valid() && (Snapshot(), out) == Called(old(Snapshot()), cb, v)
      ensures Extends(old(Snapshot()), Snapshot()) && fired == old(fired) && uncaught == old(uncaught)
    {
      ghost var h := Snapshot();
      CalledWf(h, cb, v);
      match cb {
        case ResolveWith(t) =>
          Resolve(t, v);
          out := Return(Undef);
        case RejectWith(t) =>
          Reject(t, v);
          out := Return(Undef);
        case AllSlot(k, index) =>
          FillSlot(k, index, v);
          out := Return(Undef);
        case AnyFail(k) =>
          CountRejection(k);
          out := Return(Undef);
        case FinallyRun(c, failed) =>
          if c.Throw? {
            out := c;
          } else {
            var d := FinallyChain(c.result, v, failed);
            out := Return(PromiseRef(d));
          }
        case FinallyPass(result, failed) =>
          if failed {
            var q := StaticReject(result);
            out := Return(PromiseRef(q));
          } else {
            out := Return(result);
          }
        case _ =>
          out := Apply(cb, v);
      }
    }

    /** all's fulfilment callback for input `index`: `results[index] =
        result; promiseCount++`, then `resolve(results)` when the count
        reaches the length. */
    method FillSlot(k: nat, index: nat, v: Value)
      requires Valid() && k < |alls|
      modifies this
      ensures Valid() && Snapshot() == SlotFilled(old(Snapshot()), k, index, v)
    {
      SlotFilledWf(Snapshot(), k, index, v);
      var a := AllRecord(alls[k], index, v);
      alls := alls[k := a];
      if AllComplete(a) {
        Resolve(a.target, Array(Densify(a.results, a.length)));
      }
    }

    /** any's rejection callback: `promiseCount++`, then the AggregateError
        rejection when the count reaches the length. */
    method CountRejection(k: nat)
      requires Valid() && k < |anys|
      modifies this
      ensures Valid() && Snapshot() == RejectionCounted(old(Snapshot()), k)
    {
      RejectionCountedWf(Snapshot(), k);
      var a := AnyRecordRejection(anys[k]);
      anys := anys[k := a];
      if AnyExhausted(a) {
        Reject(a.target, NewAggregateError(AllRejectedMessage));
      }
    }

    /** finally's `call(result, failed)` once `callback()` returned `x`:
        `P.resolve(x).then(() => failed ? P.reject(result) : result)`. */
    method FinallyChain(x: Value, result: Value, failed: bool) returns (d: nat)
      requires Valid()
      modifies this
      ensures Valid() && d < |promises|
      ensures var s := StaticResolved(old(Snapshot()), x);
        d == |s.0.promises| && Snapshot() == Subscribed(s.0, s.1, Reaction(FinallyPass(result, failed), Rethrow, d))
    {
      var q := StaticResolve(x);
      d := Then(q, Some(FinallyPass(result, failed)), None);
    }

    /** `onSuccessHandler(value)` or `onFailHandler(value)` of reaction `rx`
        on promise `src`: `try { resolve(cb(value)) } catch (e) { reject(e) }`. */
    method Fire(src: nat, rx: Reaction)
      requires Valid() && src < |promises| && ReactionWf(rx, BoundsOf(Snapshot()))
      modifies this
      ensures Valid() && Snapshot() == Fired(old(Snapshot()), src, rx)
    {
      ghost var h := Snapshot();
      var p := promises[src];
      var cb := Branch(p, rx);
      fired := fired + [Firing(src, cb, p.value, rx.derived)];
      assert Valid() by {
        assert BoundsOf(Snapshot()) == BoundsOf(h);
      }
      var c := Call(cb, p.value);
      match c {
        case Return(x) => Resolve(rx.derived, x);
        case Throw(e) => Reject(rx.derived, e);
      }
    }

    /** The drain task: `handlers.forEach(...)` over the queue taken at
        dispatch, each on the branch the (final) settlement selects. */
    method Drain(src: nat, handlers: seq<Reaction>)
      requires Valid() && src < |promises| && promises[src].state != Pending
      requires ReactionsWf(handlers, BoundsOf(Snapshot()))
      modifies this
      ensures Valid() && Snapshot() == FiredAll(old(Snapshot()), src, handlers)
    {
      ghost var h := Snapshot();
      var i := 0;
      while i < |handlers|
        invariant 0 <= i <= |handlers|
        invariant ReactionsWf(handlers[..i], BoundsOf(h))
        invariant Valid() && Snapshot() == FiredAll(h, src, handlers[..i])
      {
        ghost var before := Snapshot();
        ExtendsWithin(h, before);
        assert ReactionWf(handlers[i], BoundsOf(h));
        Fire(src, handlers[i]);
        FiredAllSnoc(h, src, handlers, i);
        i := i + 1;
      }
      assert handlers[..i] == handlers;
    }

    /** The unhandled-rejection task: `if (!self._handled) throw self.value`,
        the throw landing on the host. The flag is read when the task runs. */
    method CheckUnhandled(src: nat)
      requires Valid() && src < |promises|
      modifies this
      ensures Valid()
      ensures Snapshot() == old(Snapshot()).(uncaught := old(uncaught) +
        if old(promises[src].handled) then [] else [old(promises[src].value)])
    {
      ghost var h := Snapshot();
      if !promises[src].handled {
        uncaught := uncaught + [promises[src].value];
      }
      assert Valid() by {
        assert BoundsOf(Snapshot()) == BoundsOf(h);
      }
    }

    /** The host runs the oldest task handed to `invokeAsync`. */
    method Step()
      requires Valid() && tasks != []
      modifies this
      ensures Valid() && Extends(old(Snapshot()).(tasks := old(tasks[1..])), Snapshot())
      ensures old(tasks[0]).RunHandlers? ==>
        var t := old(tasks[0]);
        t.source < old(|promises|) && old(promises[t.source].state) != Pending &&
        ReactionsWf(t.handlers, old(BoundsOf(Snapshot()))) &&
        Snapshot() == FiredAll(old(Snapshot()).(tasks := old(tasks[1..])), t.source, t.handlers)
      ensures old(tasks[0]).UnhandledCheck? ==>
        var s := old(tasks[0]).source;
        Snapshot() == old(Snapshot()).(tasks := old(tasks[1..]), uncaught := old(uncaught) +
          if old(promises[s].handled) then [] else [old(promises[s].value)])
    {
      ghost var h := Snapshot();
      var t := tasks[0];
      PoppedWf(h);
      assert TaskWf(t, promises, BoundsOf(h));
      tasks := tasks[1..];
      match t {
        case RunHandlers(s, rs) => Drain(s, rs);
        case UnhandledCheck(s) => CheckUnhandled(s);
      }
    }
  
    // -------------------------------------------------------------------
    // The combinators.

    /** `q.then(onSuccess).catch(onFail)`: the forEach body of `P.all`
        (the slot callback, then `reject`) and the tail of `Forward`. */
    method Chain(q: nat, onSuccess: Callback, onFail: Callback)
      requires Valid() && q < |promises|
      requires CallbackWf(onSuccess, BoundsOf(Snapshot())) && CallbackWf(onFail, BoundsOf(Snapshot()))
      modifies this
      ensures Valid() && Snapshot() == Chained(old(Snapshot()), q, onSuccess, onFail)
    {
      ghost var h := Snapshot();
      var d := Then(q, Some(onSuccess), None);
      ExtendsWithin(h, Snapshot());
      CallbackWfWithin(onFail, BoundsOf(h), BoundsOf(Snapshot()));
      var _ := Catch(d, Some(onFail));
    }

    /** The forEach of `P.all` over `items`: every element is joined in
        order until one is no instance, whose `.then` lookup throws; the
        executor's `catch` rejects `p` with that TypeError. */
    method JoinAllItems(items: seq<Value>, k: nat, p: nat)
      requires Valid() && k < |alls| && p < |promises| && AllAllocated(items, |promises|)
      modifies this
      ensures Valid() && Snapshot() == JoinedItems(old(Snapshot()), items, k, p)
      ensures Instances(items, old(|promises|)) ==> Joins(Snapshot(), Ids(items, old(|promises|)), old(|promises|), k, p)
    {
      ghost var h := Snapshot();
      var i := 0;
      while i < |items|
        invariant 0 <= i <= |items| && Instances(items[..i], |h.promises|)
        invariant Valid() && Snapshot() == JoinedAll(h, Ids(items[..i], |h.promises|), k, p)
        invariant Joins(Snapshot(), Ids(items[..i], |h.promises|), |h.promises|, k, p)
      {
        var item := items[i];
        if !IsThenable(item, |promises|) {
          FirstNonInstanceAt(items, |h.promises|, i);
          Reject(p, ThenLookupError(item));
          return;
        }
        JoinedAllSnoc(h, items, i, k, p);
        Chain(item.id, AllSlot(k, i), RejectWith(p));
        i := i + 1;
      }
      assert items[..i] == items;
    }

    /** `P.all(promises)`. Each element gets `.then(slot callback)` and the
        derived promise `.catch(reject)`; `.then` is called on the element
        itself, so an element that is no instance makes the executor throw
        a TypeError, which rejects the result and ends the loop. */
    method All(input: Value) returns (p: nat)
      requires Valid() && (IsArray(input) ==> AllAllocated(input.items, |promises|))
      modifies this
      ensures Valid() && (Snapshot(), p) == AllOf(old(Snapshot()), input)
    {
      p := Allocate();
      if !IsArray(input) {
        Reject(p, NewTypeError(ArrayRequiredMessage));
        return;
      }
      var items := input.items;
      if |items| == 0 {
        Resolve(p, Array([]));
        return;
      }
      var k := |alls|;
      AllAddedWf(Snapshot(), AllStart(p, |items|));
      alls := alls + [AllStart(p, |items|)];
      JoinAllItems(items, k, p);
    }

    /** The forEach body of `P.any` and `P.race` and the map callback of
        `P.allSettled`: `P.resolve(item).then(onSuccess).catch(onFail)`.
        `q` is the promise `P.resolve` gave and `d` the one `then` made. */
    method Forward(item: Value, onSuccess: Callback, onFail: Callback) returns (q: nat, d: nat)
      requires Valid() && AllAllocated([item], |promises|)
      requires CallbackWf(onSuccess, BoundsOf(Snapshot())) && CallbackWf(onFail, BoundsOf(Snapshot()))
      modifies this
      ensures Valid() && (Snapshot(), q, d) == Forwarded(old(Snapshot()), item, onSuccess, onFail)
    {
      ghost var h := Snapshot();
      q := StaticResolve(item);
      ExtendsWithin(h, Snapshot());
      CallbackWfWithin(onSuccess, BoundsOf(h), BoundsOf(Snapshot()));
      CallbackWfWithin(onFail, BoundsOf(h), BoundsOf(Snapshot()));
      d := |promises|;
      Chain(q, onSuccess, onFail);
    }

    /** The forEach of `P.any` and `P.race` (and the map of
        `P.allSettled`): every element forwarded in order. `refs` lists
        what `Forward` returned for each. */
    method ForwardEach(items: seq<Value>, onSuccess: Callback, onFail: Callback) returns (refs: seq<(nat, nat)>)
      requires Valid() && AllAllocated(items, |promises|)
      requires CallbackWf(onSuccess, BoundsOf(Snapshot())) && CallbackWf(onFail, BoundsOf(Snapshot()))
      modifies this
      ensures ForwardedPrefix(old(Snapshot()), items, |items|, onSuccess, onFail, Snapshot(), refs)
      ensures Forwards(Snapshot(), items, refs, onSuccess, onFail)
    {
      ghost var h := Snapshot();
      refs := [];
      var i := 0;
      assert items[..0] == [];
      while i < |items|
        invariant i <= |items| && ForwardedPrefix(h, items, i, onSuccess, onFail, Snapshot(), refs)
        invariant Forwards(Snapshot(), items[..i], refs, onSuccess, onFail)
      {
        refs := ForwardNext(h, items, i, onSuccess, onFail, refs);
        i := i + 1;
      }
      assert items[..i] == items;
    }

    /** One turn of the forEach: the item at `i` forwarded after the
        ones before it. */
    method ForwardNext(ghost h: Heap, items: seq<Value>, i: nat, onSuccess: Callback, onFail: Callback, refs: seq<(nat, nat)>)
      returns (next: seq<(nat, nat)>)
      requires i < |items| && ForwardedPrefix(h, items, i, onSuccess, onFail, Snapshot(), refs)
      modifies this
      ensures ForwardedPrefix(h, items, i + 1, onSuccess, onFail, Snapshot(), next)
      ensures Forwards(Snapshot(), items[..i + 1], next, onSuccess, onFail)
    {
      ForwardedPrefixStep(h, items, i, onSuccess, onFail, Snapshot(), refs);
      var q, d := Forward(items[i], onSuccess, onFail);
      next := refs + [(q, d)];
      ForwardedAllWaits(h, items[..i + 1], onSuccess, onFail);
    }

    /** `P.any(promises)`: an empty array rejects at once with an
        AggregateError; otherwise the first fulfilment wins and the
        rejection counter gives up after `promises.length` rejections. */
    method Any(input: Value) returns (p: nat)
      requires Valid() && (IsArray(input) ==> AllAllocated(input.items, |promises|))
      modifies this
      ensures Valid() && var r := AnyOf(old(Snapshot()), input); Snapshot() == r.0 && p == r.1
    {
      p := Allocate();
      if !IsArray(input) {
        Reject(p, NewTypeError(ArrayRequiredMessage));
        return;
      }
      var items := input.items;
      if |items| == 0 {
        Reject(p, NewAggregateError(AllRejectedMessage));
        return;
      }
      var k := |anys|;
      AnyAddedWf(Snapshot(), AnyStart(p, |items|));
      anys := anys + [AnyStart(p, |items|)];
      ghost var h := Snapshot();
      var refs := ForwardEach(items, ResolveWith(p), AnyFail(k));
      ForwardedPrefixAll(h, items, ResolveWith(p), AnyFail(k), Snapshot(), refs);
    }

    /** `P.race(promises)`: the first element to settle decides; an empty
        array leaves the result PENDING for ever. */
    method Race(input: Value) returns (p: nat)
      requires Valid() && (IsArray(input) ==> AllAllocated(input.items, |promises|))
      modifies this
      ensures Valid() && var r := RaceOf(old(Snapshot()), input); Snapshot() == r.0 && p == r.1
    {
      p := Allocate();
      if !IsArray(input) {
        Reject(p, NewTypeError(ArrayRequiredMessage));
        return;
      }
      ghost var h := Snapshot();
      var refs := ForwardEach(input.items, ResolveWith(p), RejectWith(p));
      ForwardedPrefixAll(h, input.items, ResolveWith(p), RejectWith(p), Snapshot(), refs);
    }

    /** `P.allSettled(promises)`: a non-array is refused through
        `P.reject`; otherwise every element is mapped to its record promise
        and the result is `P.all` of those, which are all instances. */
    method AllSettled(input: Value) returns (p: nat)
      requires Valid() && (IsArray(input) ==> AllAllocated(input.items, |promises|))
      modifies this
      ensures Valid() && var r := AllSettledOf(old(Snapshot()), input); Snapshot() == r.0 && p == r.1
    {
      if !IsArray(input) {
        p := StaticReject(NewTypeError(ArrayRequiredMessage));
        return;
      }
      ghost var h := Snapshot();
      var refs := ForwardEach(input.items, Record(Fulfilled), Record(Rejected));
      ForwardedPrefixAll(h, input.items, Record(Fulfilled), Record(Rejected), Snapshot(), refs);
      p := All(Array(CatchRefs(refs)));
    }
  }
}
