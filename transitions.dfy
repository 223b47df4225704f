// The heap transitions of the promise state machine, as functions: what
// `_executeHandlers`, `_updateResult` and `then` leave behind. The class in
// engine.dfy performs the same steps in place and is proved to agree with
// them; the lemmas here say what each transition keeps and changes.

module Transitions {
  import opened Values
  import opened Aggregates
  import opened PromiseState

  /** `value instanceof Promise` on a heap of `count` instances. A reference
      past the end of the heap cannot be produced by a program and counts as
      a plain value. For a value that references only allocated instances
      the test is the same as `PromiseRef?`, which is why it is written
      that way where the allocation is known. */
  predicate IsThenable(v: Value, count: nat): (b: bool)
    ensures b ==> AllAllocated([v], count)
    ensures AllAllocated([v], count) ==> (b <==> v.PromiseRef?)
  {
    assert [v][0] == v;
    v.PromiseRef? && v.id < count
  }

  function Last<T>(s: seq<T>): T
    requires s != []
  {
    s[|s| - 1]
  }

  /** The tasks `_executeHandlers` hands to `invokeAsync`, in order: the
      unhandled-rejection check first, when one is due, then the drain. */
  function Dispatch(id: nat, p: PromiseObj): (ts: seq<Task>)
    ensures p.state == Pending <==> ts == []
    ensures p.state != Pending ==>
      |ts| <= 2 && Last(ts) == RunHandlers(id, p.handlers) &&
      (|ts| == 2 <==> p.state == Rejected && !p.handled) &&
      (|ts| == 2 ==> ts[0] == UnhandledCheck(id))
  {
    if p.state == Pending then []
    else (if p.state == Rejected && !p.handled then [UnhandledCheck(id)] else []) + [RunHandlers(id, p.handlers)]
  }

  /** then's `onSuccess` when no function is given: the identity. */
  function SuccessOrDefault(c: Option<Callback>): Callback
  {
    if c.Some? then c.value else Identity
  }

  /** then's `onFail` when no function is given: rethrow. */
  function FailOrDefault(c: Option<Callback>): Callback
  {
    if c.Some? then c.value else Rethrow
  }

  predicate OptionWf(c: Option<Callback>, b: Bounds)
  {
    c.Some? ==> CallbackWf(c.value, b)
  }

  /** The reaction `rx` waits on promise `src`: it is the last one queued on
      `src`, or the last one in the drain task just scheduled for `src`. */
  ghost predicate Queued(h: Heap, src: nat, rx: Reaction)
  {
    src < |h.promises| &&
    ((h.promises[src].handlers != [] && Last(h.promises[src].handlers) == rx) ||
     (h.tasks != [] && Last(h.tasks).RunHandlers? && Last(h.tasks).source == src &&
      Last(h.tasks).handlers != [] && Last(Last(h.tasks).handlers) == rx))
  }

  // ---------------------------------------------------------------------
  // The transitions.

  /** `_executeHandlers`: nothing while pending; once settled, the queue is
      taken whole into one drain task and the instance keeps none. */
  function Drained(h: Heap, id: nat): Heap
    requires id < |h.promises|
  {
    var p := h.promises[id];
    if p.state == Pending then h
    else h.(promises := h.promises[id := p.(handlers := [])], tasks := h.tasks + Dispatch(id, p))
  }

  /** `new P(...)` before its executor runs: a fresh instance at the next id. */
  function Allocated(h: Heap): Heap
  {
    h.(promises := h.promises + [Fresh()])
  }

  /** `self.state = state; self.value = value`. */
  function Written(h: Heap, id: nat, st: Status, v: Value): Heap
    requires id < |h.promises|
  {
    h.(promises := h.promises[id := h.promises[id].(state := st, value := v)])
  }

  /** The settling branch of `_updateResult`: state and value are written,
      then `_executeHandlers` runs. */
  function Settled(h: Heap, id: nat, st: Status, v: Value): Heap
    requires id < |h.promises|
  {
    Drained(Written(h, id, st, v), id)
  }

  /** The synchronous part of `src.then(...)` before the dispatch:
      `self._handled = true`, the derived promise allocated at the next id,
      and `self._addHandlers(rx)`. */
  function Enqueued(h: Heap, src: nat, rx: Reaction): Heap
    requires src < |h.promises|
  {
    var p := h.promises[src];
    h.(promises := h.promises[src := p.(handled := true, handlers := p.handlers + [rx])] + [Fresh()])
  }

  /** `src.then(...)` with reaction `rx`: the enqueueing, then
      `self._executeHandlers()`. */
  function Subscribed(h: Heap, src: nat, rx: Reaction): Heap
    requires src < |h.promises|
  {
    Drained(Enqueued(h, src, rx), src)
  }

  /** `_updateResult(state, value)`, the body of `_resolve` and `_reject`:
      a settled promise is left alone, an instance is adopted through
      `value.then(self._resolve, self._reject)`, and anything else settles. */
  function Resolved(h: Heap, id: nat, st: Status, v: Value): Heap
    requires id < |h.promises|
  {
    if h.promises[id].state != Pending then h
    else if IsThenable(v, |h.promises|) then
      Subscribed(h, v.id, Reaction(ResolveWith(id), RejectWith(id), |h.promises|))
    else Settled(h, id, st, v)
  }

  /** A reaction branch feeding a callback's completion to the derived
      promise: `resolve(result)` on a return, `reject(e)` on a throw. */
  function Fed(h: Heap, id: nat, c: Completion): Heap
    requires id < |h.promises|
  {
    match c
    case Return(x) => Resolved(h, id, Fulfilled, x)
    case Throw(e) => Resolved(h, id, Rejected, e)
  }

  // ---------------------------------------------------------------------
  // What the transitions keep.

  /** Draining keeps the heap well formed, settles nothing and only appends
      to the task queue. */
  lemma DrainedWf(h: Heap, id: nat)
    requires Wf(h) && id < |h.promises|
    ensures var r := Drained(h, id);
      Wf(r) && Extends(h, r) && KeepsOthers(h.promises, r.promises, -1) &&
      |r.promises| == |h.promises| && r.alls == h.alls && r.anys == h.anys &&
      r.fired == h.fired && r.uncaught == h.uncaught
  {
    var p := h.promises[id];
    if p.state != Pending {
      var r := Drained(h, id);
      var b := BoundsOf(h);
      assert BoundsOf(r) == b;
      assert r.tasks[..|h.tasks|] == h.tasks;
      forall i | 0 <= i < |r.promises|
        ensures ReactionsWf(r.promises[i].handlers, b)
      {
        if i != id {
          assert r.promises[i] == h.promises[i];
        }
      }
      forall j | 0 <= j < |r.tasks|
        ensures TaskWf(r.tasks[j], r.promises, b)
      {
        if j < |h.tasks| {
          assert r.tasks[j] == h.tasks[j];
          TaskWfWithin(h.tasks[j], h.promises, r.promises, b, b);
        } else {
          assert ReactionsWf(p.handlers, b);
        }
      }
    }
  }

  /** Allocation keeps the heap well formed and changes nothing else. */
  lemma AllocatedWf(h: Heap)
    requires Wf(h)
    ensures Wf(Allocated(h)) && Extends(h, Allocated(h)) && KeepsOthers(h.promises, Allocated(h).promises, -1)
  {
    var r := Allocated(h);
    var b, b' := BoundsOf(h), BoundsOf(r);
    assert Within(b, b');
    forall i | 0 <= i < |r.promises|
      ensures ReactionsWf(r.promises[i].handlers, b')
    {
      if i < |h.promises| {
        ReactionsWfWithin(h.promises[i].handlers, b, b');
      }
    }
    forall j | 0 <= j < |r.tasks|
      ensures TaskWf(r.tasks[j], r.promises, b')
    {
      TaskWfWithin(h.tasks[j], h.promises, r.promises, b, b');
    }
  }

  /** Writing the settlement of a pending promise keeps the heap well
      formed and is the only change of state. */
  lemma WrittenWf(h: Heap, id: nat, st: Status, v: Value)
    requires Wf(h) && id < |h.promises| && h.promises[id].state == Pending && st != Pending
    ensures Wf(Written(h, id, st, v)) && Extends(h, Written(h, id, st, v))
    ensures KeepsOthers(h.promises, Written(h, id, st, v).promises, id)
  {
    var s := Written(h, id, st, v);
    var b := BoundsOf(h);
    assert BoundsOf(s) == b;
    assert Evolves(h.promises, s.promises);
    forall i | 0 <= i < |s.promises|
      ensures ReactionsWf(s.promises[i].handlers, b)
    {
      assert s.promises[i].handlers == h.promises[i].handlers;
    }
    forall j | 0 <= j < |s.tasks|
      ensures TaskWf(s.tasks[j], s.promises, b)
    {
      TaskWfWithin(h.tasks[j], h.promises, s.promises, b, b);
    }
  }

  /** Settling a pending promise: it takes the state and value, keeps its
      `_handled` flag, hands its whole queue to the scheduler, and no other
      promise changes. */
  lemma SettledWf(h: Heap, id: nat, st: Status, v: Value)
    requires Wf(h) && id < |h.promises| && h.promises[id].state == Pending && st != Pending
    ensures var r := Settled(h, id, st, v);
      Wf(r) && Extends(h, r) && KeepsOthers(h.promises, r.promises, id) &&
      r.alls == h.alls && r.anys == h.anys && r.fired == h.fired && r.uncaught == h.uncaught &&
      r.promises == h.promises[id := PromiseObj(st, v, h.promises[id].handled, [])] &&
      r.tasks == h.tasks + Dispatch(id, h.promises[id].(state := st, value := v))
  {
    var s := Written(h, id, st, v);
    WrittenWf(h, id, st, v);
    DrainedWf(s, id);
    ExtendsTransitive(h, s, Drained(s, id));
  }

  /** The enqueueing part of `then` keeps the heap well formed when the
      reaction's ids exist once the derived promise is allocated: the
      source is marked handled and gets `rx` appended as its last handler,
      the derived promise is a fresh instance at the next id, and nothing
      else changes. */
  lemma EnqueuedWf(h: Heap, src: nat, rx: Reaction)
    requires Wf(h) && src < |h.promises|
    requires ReactionWf(rx, Bounds(|h.promises| + 1, |h.alls|, |h.anys|))
    ensures Wf(Enqueued(h, src, rx)) && Extends(h, Enqueued(h, src, rx))
    ensures KeepsOthers(h.promises, Enqueued(h, src, rx).promises, -1)
    ensures var r := Enqueued(h, src, rx); var p := h.promises[src];
      |r.promises| == |h.promises| + 1 && r.promises[|h.promises|] == Fresh() &&
      r.promises[src] == PromiseObj(p.state, p.value, true, p.handlers + [rx]) &&
      (forall i | 0 <= i < |h.promises| && i != src :: r.promises[i] == h.promises[i]) &&
      r.tasks == h.tasks && r.alls == h.alls && r.anys == h.anys && r.fired == h.fired && r.uncaught == h.uncaught
  {
    var p := h.promises[src];
    var s := Enqueued(h, src, rx);
    var b, b' := BoundsOf(h), BoundsOf(s);
    assert Within(b, b');
    assert Evolves(h.promises, s.promises);
    forall i | 0 <= i < |s.promises|
      ensures ReactionsWf(s.promises[i].handlers, b')
    {
      if i == src {
        ReactionsWfWithin(p.handlers, b, b');
        assert s.promises[i].handlers == p.handlers + [rx];
      } else if i < |h.promises| {
        assert s.promises[i] == h.promises[i];
        ReactionsWfWithin(h.promises[i].handlers, b, b');
      }
    }
    forall j | 0 <= j < |s.tasks|
      ensures TaskWf(s.tasks[j], s.promises, b')
    {
      TaskWfWithin(h.tasks[j], h.promises, s.promises, b, b');
    }
  }

  /** `then` on a well-formed heap: the source is marked handled and keeps
      its state and value, the derived promise is fresh at the next id, the
      reaction waits on the source, no promise settles and no callback runs.
      A settled source gets a drain task but never an unhandled check. */
  lemma SubscribedWf(h: Heap, src: nat, rx: Reaction)
    requires Wf(h) && src < |h.promises|
    requires ReactionWf(rx, Bounds(|h.promises| + 1, |h.alls|, |h.anys|))
    ensures var r := Subscribed(h, src, rx);
      Wf(r) && Extends(h, r) && KeepsOthers(h.promises, r.promises, -1) &&
      r.alls == h.alls && r.anys == h.anys && r.fired == h.fired && r.uncaught == h.uncaught &&
      |r.promises| == |h.promises| + 1 && r.promises[|h.promises|] == Fresh() &&
      r.promises[src].handled && Queued(r, src, rx) &&
      (forall i | 0 <= i < |h.promises| && i != src :: r.promises[i] == h.promises[i]) &&
      (h.promises[src].state == Pending ==> r.tasks == h.tasks) &&
      (h.promises[src].state != Pending ==> r.tasks == h.tasks + [RunHandlers(src, h.promises[src].handlers + [rx])])
  {
    var p := h.promises[src];
    var s := Enqueued(h, src, rx);
    EnqueuedWf(h, src, rx);
    DrainedWf(s, src);
    ExtendsTransitive(h, s, Drained(s, src));
    var r := Drained(s, src);
    assert r.promises[src].handled;
    if p.state != Pending {
      assert Dispatch(src, s.promises[src]) == [RunHandlers(src, p.handlers + [rx])];
    }
  }

  /** `_updateResult` on a well-formed heap: a settled promise is left
      exactly as it was; an instance is adopted, leaving the promise PENDING
      with its `_resolve`/`_reject` waiting on the instance; anything else
      settles the promise with that state and value. Only the promise
      itself can change state. */
  lemma ResolvedWf(h: Heap, id: nat, st: Status, v: Value)
    requires Wf(h) && id < |h.promises| && st != Pending
    ensures var r := Resolved(h, id, st, v);
      Wf(r) && Extends(h, r) && KeepsOthers(h.promises, r.promises, id) &&
      r.alls == h.alls && r.anys == h.anys && r.fired == h.fired && r.uncaught == h.uncaught
    ensures h.promises[id].state != Pending ==> Resolved(h, id, st, v) == h
    ensures h.promises[id].state == Pending && IsThenable(v, |h.promises|) ==>
      var r := Resolved(h, id, st, v);
      r.promises[id].state == Pending && KeepsOthers(h.promises, r.promises, -1) &&
      |r.promises| == |h.promises| + 1 &&
      (forall i | 0 <= i < |h.promises| && i != v.id :: r.promises[i] == h.promises[i]) &&
      Queued(r, v.id, Reaction(ResolveWith(id), RejectWith(id), |h.promises|))
    ensures h.promises[id].state == Pending && !IsThenable(v, |h.promises|) ==>
      var r := Resolved(h, id, st, v);
      r.promises[id].state == st && r.promises[id].value == v && r.promises[id].handlers == [] &&
      |r.promises| == |h.promises|
  {
    if h.promises[id].state == Pending {
      if IsThenable(v, |h.promises|) {
        SubscribedWf(h, v.id, Reaction(ResolveWith(id), RejectWith(id), |h.promises|));
      } else {
        SettledWf(h, id, st, v);
      }
    }
  }

  /** A completion fed to a promise: a return resolves it, a throw rejects
      it, and the same guarantees as `_updateResult` hold. */
  lemma FedWf(h: Heap, id: nat, c: Completion)
    requires Wf(h) && id < |h.promises|
    ensures var r := Fed(h, id, c);
      Wf(r) && Extends(h, r) && KeepsOthers(h.promises, r.promises, id) &&
      r.alls == h.alls && r.anys == h.anys && r.fired == h.fired && r.uncaught == h.uncaught
    ensures c.Return? ==> Fed(h, id, c) == Resolved(h, id, Fulfilled, c.result)
    ensures c.Throw? ==> Fed(h, id, c) == Resolved(h, id, Rejected, c.error)
  {
    match c
    case Return(x) => ResolvedWf(h, id, Fulfilled, x);
    case Throw(e) => ResolvedWf(h, id, Rejected, e);
  }

  // ---------------------------------------------------------------------
  // Running reactions.

  /** The branch a drain task takes for a reaction: `onSuccessHandler` iff
      the source is FULFILLED. */
  function Branch(p: PromiseObj, rx: Reaction): Callback
  {
    if p.state == Fulfilled then rx.onSuccess else rx.onFail
  }

  /** The trace a drain of `rs` leaves: one firing per reaction, in
      registration order, each on the branch the settlement selects. */
  function Firings(src: nat, p: PromiseObj, rs: seq<Reaction>): (fs: seq<Firing>)
    ensures |fs| == |rs|
    ensures forall j | 0 <= j < |rs| :: fs[j] == Firing(src, Branch(p, rs[j]), p.value, rs[j].derived)
  {
    seq(|rs|, j requires 0 <= j < |rs| => Firing(src, Branch(p, rs[j]), p.value, rs[j].derived))
  }

  /** The callbacks that touch no promise: user callbacks, then's defaults,
      allSettled's record builders, and finally's callback when it throws
      or when it passes a fulfilment through. */
  predicate IsPure(cb: Callback)
  {
    match cb
    case User(_) => true
    case Identity => true
    case Rethrow => true
    case Record(st) => st != Pending
    case FinallyRun(c, _) => c.Throw?
    case FinallyPass(_, failed) => !failed
    case _ => false
  }

  /** What a pure callback returns or throws. */
  function Apply(cb: Callback, v: Value): (c: Completion)
    requires IsPure(cb)
    ensures cb.Identity? ==> c == Return(v)
    ensures cb.Rethrow? ==> c == Throw(v)
    ensures cb.Record? ==> c.Return? && Get(c.result, "status") == Some(Str(StatusTag(cb.status)))
    ensures cb.FinallyPass? ==> c == Return(cb.result)
  {
    match cb
    case User(f) => f(v)
    case Identity => Return(v)
    case Rethrow => Throw(v)
    case Record(st) => Return(SettledRecord(st, v))
    case FinallyRun(c, _) => c
    case FinallyPass(result, _) => Return(result)
  }

  /** all's fulfilment callback for input `index`:
      `results[index] = result; promiseCount++`, and `resolve(results)` once
      the count reaches the input length. */
  function SlotFilled(h: Heap, k: nat, index: nat, v: Value): Heap
    requires k < |h.alls| && h.alls[k].target < |h.promises|
  {
    var a := AllRecord(h.alls[k], index, v);
    var h1 := h.(alls := h.alls[k := a]);
    if AllComplete(a) then Resolved(h1, a.target, Fulfilled, Array(Densify(a.results, a.length))) else h1
  }

  /** any's rejection callback: `promiseCount++`, and the AggregateError
      rejection once the count reaches the input length. */
  function RejectionCounted(h: Heap, k: nat): Heap
    requires k < |h.anys| && h.anys[k].target < |h.promises|
  {
    var a := AnyRecordRejection(h.anys[k]);
    var h1 := h.(anys := h.anys[k := a]);
    if AnyExhausted(a) then Resolved(h1, a.target, Rejected, NewAggregateError(AllRejectedMessage)) else h1
  }

  /** The callback of input `index` records its value in slot `index` and
      bumps the count; `all`'s promise settles only when the count reaches
      the length, and then fulfils with the dense results array. */
  lemma SlotFilledWf(h: Heap, k: nat, index: nat, v: Value)
    requires Wf(h) && k < |h.alls|
    ensures Wf(h.(alls := h.alls[k := AllRecord(h.alls[k], index, v)]))
    ensures var r := SlotFilled(h, k, index, v);
      Wf(r) && Extends(h, r) && KeepsOthers(h.promises, r.promises, h.alls[k].target) &&
      r.anys == h.anys && r.fired == h.fired && r.uncaught == h.uncaught &&
      r.alls == h.alls[k := AllRecord(h.alls[k], index, v)]
    ensures var a := AllRecord(h.alls[k], index, v);
      !AllComplete(a) ==> SlotFilled(h, k, index, v).promises == h.promises
    ensures var a := AllRecord(h.alls[k], index, v);
      AllComplete(a) && h.promises[a.target].state == Pending ==>
      SlotFilled(h, k, index, v).promises[a.target].state == Fulfilled &&
      SlotFilled(h, k, index, v).promises[a.target].value == Array(Densify(a.results, a.length))
  {
    var a := AllRecord(h.alls[k], index, v);
    var h1 := h.(alls := h.alls[k := a]);
    assert Wf(h1) by {
      assert BoundsOf(h1) == BoundsOf(h);
      forall j | 0 <= j < |h1.alls|
        ensures h1.alls[j].target < |h1.promises|
      {
      }
    }
    ResolvedWf(h1, a.target, Fulfilled, Array(Densify(a.results, a.length)));
  }

  /** any's rejection callback bumps the count; the promise of `any` is
      rejected with an AggregateError only when the count reaches the
      length. */
  lemma RejectionCountedWf(h: Heap, k: nat)
    requires Wf(h) && k < |h.anys|
    ensures Wf(h.(anys := h.anys[k := AnyRecordRejection(h.anys[k])]))
    ensures var r := RejectionCounted(h, k);
      Wf(r) && Extends(h, r) && KeepsOthers(h.promises, r.promises, h.anys[k].target) &&
      r.alls == h.alls && r.fired == h.fired && r.uncaught == h.uncaught &&
      r.anys == h.anys[k := AnyRecordRejection(h.anys[k])]
    ensures !AnyExhausted(AnyRecordRejection(h.anys[k])) ==> RejectionCounted(h, k).promises == h.promises
    ensures var t := h.anys[k].target;
      AnyExhausted(AnyRecordRejection(h.anys[k])) && h.promises[t].state == Pending ==>
      RejectionCounted(h, k).promises[t].state == Rejected &&
      RejectionCounted(h, k).promises[t].value == NewAggregateError(AllRejectedMessage)
  {
    var a := AnyRecordRejection(h.anys[k]);
    var h1 := h.(anys := h.anys[k := a]);
    assert Wf(h1) by {
      assert BoundsOf(h1) == BoundsOf(h);
      forall j | 0 <= j < |h1.anys|
        ensures h1.anys[j].target < |h1.promises|
      {
      }
    }
    ResolvedWf(h1, a.target, Rejected, NewAggregateError(AllRejectedMessage));
  }

  lemma ExtendsWithin(h: Heap, r: Heap)
    requires Extends(h, r)
    ensures Within(BoundsOf(h), BoundsOf(r))
  {
  }

  /** Taking the oldest task off the queue keeps the heap well formed. */
  lemma PoppedWf(h: Heap)
    requires Wf(h) && h.tasks != []
    ensures Wf(h.(tasks := h.tasks[1..]))
  {
    var r := h.(tasks := h.tasks[1..]);
    forall j | 0 <= j < |r.tasks|
      ensures TaskWf(r.tasks[j], r.promises, BoundsOf(r))
    {
      assert r.tasks[j] == h.tasks[j + 1];
      TaskWfWithin(h.tasks[j + 1], h.promises, r.promises, BoundsOf(h), BoundsOf(r));
    }
  }

  /** A new `all` closure state for an existing promise keeps the heap well
      formed. */
  lemma AllAddedWf(h: Heap, a: AllState)
    requires Wf(h) && a.target < |h.promises|
    ensures Wf(h.(alls := h.alls + [a])) && Extends(h, h.(alls := h.alls + [a]))
  {
    var r := h.(alls := h.alls + [a]);
    var b, b' := BoundsOf(h), BoundsOf(r);
    assert Within(b, b');
    forall i | 0 <= i < |r.promises|
      ensures ReactionsWf(r.promises[i].handlers, b')
    {
      ReactionsWfWithin(h.promises[i].handlers, b, b');
    }
    forall j | 0 <= j < |r.tasks|
      ensures TaskWf(r.tasks[j], r.promises, b')
    {
      TaskWfWithin(h.tasks[j], h.promises, r.promises, b, b');
    }
    assert r.tasks[..|h.tasks|] == h.tasks;
  }

  /** A new `any` closure state for an existing promise keeps the heap well
      formed. */
  lemma AnyAddedWf(h: Heap, a: AnyState)
    requires Wf(h) && a.target < |h.promises|
    ensures Wf(h.(anys := h.anys + [a])) && Extends(h, h.(anys := h.anys + [a]))
  {
    var r := h.(anys := h.anys + [a]);
    var b, b' := BoundsOf(h), BoundsOf(r);
    assert Within(b, b');
    forall i | 0 <= i < |r.promises|
      ensures ReactionsWf(r.promises[i].handlers, b')
    {
      ReactionsWfWithin(h.promises[i].handlers, b, b');
    }
    forall j | 0 <= j < |r.tasks|
      ensures TaskWf(r.tasks[j], r.promises, b')
    {
      TaskWfWithin(h.tasks[j], h.promises, r.promises, b, b');
    }
    assert r.tasks[..|h.tasks|] == h.tasks;
  }

  // ---------------------------------------------------------------------
  // Calling a callback, and one reaction branch.

  /** `P.resolve(value)`: the instance itself, or a new promise (the next
      id) resolved with the value. */
  ghost function StaticResolved(h: Heap, v: Value): (r: (Heap, nat))
    requires Wf(h)
    ensures Wf(r.0) && Extends(h, r.0) && KeepsOthers(h.promises, r.0.promises, -1)
    ensures r.0.alls == h.alls && r.0.anys == h.anys && r.0.fired == h.fired && r.0.uncaught == h.uncaught
    ensures r.1 < |r.0.promises|
    ensures IsThenable(v, |h.promises|) ==> r.1 == v.id
    ensures !IsThenable(v, |h.promises|) ==> r.1 == |h.promises|
    ensures !v.PromiseRef? ==> r.0.promises[r.1].state == Fulfilled && r.0.promises[r.1].value == v
  {
    if IsThenable(v, |h.promises|) then (h, v.id)
    else
      var a := Allocated(h);
      AllocatedWf(h);
      ResolvedWf(a, |h.promises|, Fulfilled, v);
      ExtendsTransitive(h, a, Resolved(a, |h.promises|, Fulfilled, v));
      (Resolved(a, |h.promises|, Fulfilled, v), |h.promises|)
  }

  /** What calling `cb` with argument `v` leaves behind, and what the call
      returns or throws. The library's own closures act on the heap: the
      bound `_resolve`/`_reject`, the bookkeeping callbacks of `all` and
      `any`, and finally's `call`, which chains on `P.resolve(callback())`
      and returns that chain's promise (or `P.reject(result)` after a
      rejection). */
  ghost function Called(h: Heap, cb: Callback, v: Value): (Heap, Completion)
    requires Wf(h) && CallbackWf(cb, BoundsOf(h))
  {
    match cb
    case ResolveWith(t) => (Resolved(h, t, Fulfilled, v), Return(Undef))
    case RejectWith(t) => (Resolved(h, t, Rejected, v), Return(Undef))
    case AllSlot(k, index) => (SlotFilled(h, k, index, v), Return(Undef))
    case AnyFail(k) => (RejectionCounted(h, k), Return(Undef))
    case FinallyRun(c, failed) =>
      if c.Throw? then (h, Apply(cb, v))
      else
        var s := StaticResolved(h, c.result);
        var d := |s.0.promises|;
        SubscribedWf(s.0, s.1, Reaction(FinallyPass(v, failed), Rethrow, d));
        (Subscribed(s.0, s.1, Reaction(FinallyPass(v, failed), Rethrow, d)), Return(PromiseRef(d)))
    case FinallyPass(result, failed) =>
      if !failed then (h, Apply(cb, v))
      else
        var a := Allocated(h);
        AllocatedWf(h);
        ResolvedWf(a, |h.promises|, Rejected, result);
        (Resolved(a, |h.promises|, Rejected, result), Return(PromiseRef(|h.promises|)))
    case _ => (h, Apply(cb, v))
  }

  /** Calls keep the heap well formed, only extend it, and leave the trace
      and the uncaught values alone. */
  lemma CalledWf(h: Heap, cb: Callback, v: Value)
    requires Wf(h) && CallbackWf(cb, BoundsOf(h))
    ensures var r := Called(h, cb, v).0;
      Wf(r) && Extends(h, r) && r.fired == h.fired && r.uncaught == h.uncaught
    ensures IsPure(cb) ==> Called(h, cb, v).0 == h
    ensures cb.ResolveWith? || cb.RejectWith? || cb.AllSlot? || cb.AnyFail? ==> Called(h, cb, v).1 == Return(Undef)
    ensures (cb.FinallyRun? && cb.callback.Return?) || (cb.FinallyPass? && cb.failed) ==>
      var r := Called(h, cb, v);
      r.1.Return? && r.1.result.PromiseRef? && |h.promises| <= r.1.result.id < |r.0.promises|
  {
    match cb
    case ResolveWith(t) => ResolvedWf(h, t, Fulfilled, v);
    case RejectWith(t) => ResolvedWf(h, t, Rejected, v);
    case AllSlot(k, index) => SlotFilledWf(h, k, index, v);
    case AnyFail(k) => RejectionCountedWf(h, k);
    case FinallyRun(c, failed) =>
      if c.Return? {
        var s := StaticResolved(h, c.result);
        var d := |s.0.promises|;
        SubscribedWf(s.0, s.1, Reaction(FinallyPass(v, failed), Rethrow, d));
        ExtendsTransitive(h, s.0, Called(h, cb, v).0);
      }
    case FinallyPass(result, failed) =>
      if failed {
        AllocatedWf(h);
        ResolvedWf(Allocated(h), |h.promises|, Rejected, result);
        ExtendsTransitive(h, Allocated(h), Called(h, cb, v).0);
      }
    case _ =>
  }

  /** One reaction branch as a drain runs it: the firing is recorded, the
      branch the settlement selects is called with the settled value, and
      its completion is fed to the derived promise (`resolve(result)` or
      `reject(e)`). */
  ghost function Fired(h: Heap, src: nat, rx: Reaction): (r: Heap)
    requires Wf(h) && src < |h.promises| && ReactionWf(rx, BoundsOf(h))
    ensures Wf(r) && Extends(h, r) && r.uncaught == h.uncaught
    ensures r.fired == h.fired + [Firing(src, Branch(h.promises[src], rx), h.promises[src].value, rx.derived)]
  {
    var p := h.promises[src];
    var cb := Branch(p, rx);
    var h1 := h.(fired := h.fired + [Firing(src, cb, p.value, rx.derived)]);
    assert Wf(h1) by {
      assert BoundsOf(h1) == BoundsOf(h);
    }
    CalledWf(h1, cb, p.value);
    var c := Called(h1, cb, p.value);
    FedWf(c.0, rx.derived, c.1);
    ExtendsTransitive(h1, c.0, Fed(c.0, rx.derived, c.1));
    assert h1.fired[..|h.fired|] == h.fired;
    ExtendsTransitive(h, h1, Fed(c.0, rx.derived, c.1));
    Fed(c.0, rx.derived, c.1)
  }

  /** A branch that calls a pure callback settles nothing but the derived
      promise, which follows the callback's completion. */
  lemma FiredPure(h: Heap, src: nat, rx: Reaction)
    requires Wf(h) && src < |h.promises| && ReactionWf(rx, BoundsOf(h))
    requires IsPure(Branch(h.promises[src], rx))
    ensures var p := h.promises[src];
      Fired(h, src, rx) == Fed(h.(fired := h.fired + [Firing(src, Branch(p, rx), p.value, rx.derived)]),
                               rx.derived, Apply(Branch(p, rx), p.value))
  {
  }

  /** A drain task run to its end: the reactions fire one after the other,
      in registration order. The trace then holds one firing per reaction,
      each on the branch of the source's final settlement. */
  ghost function FiredAll(h: Heap, src: nat, rs: seq<Reaction>): (r: Heap)
    requires Wf(h) && src < |h.promises| && h.promises[src].state != Pending
    requires ReactionsWf(rs, BoundsOf(h))
    ensures Wf(r) && Extends(h, r) && r.uncaught == h.uncaught
    ensures r.fired == h.fired + Firings(src, h.promises[src], rs)
    decreases |rs|
  {
    if rs == [] then h
    else
      var init := rs[..|rs| - 1];
      assert ReactionsWf(init, BoundsOf(h));
      var m := FiredAll(h, src, init);
      ExtendsWithin(h, m);
      assert ReactionWf(Last(rs), BoundsOf(h));
      var r := Fired(m, src, Last(rs));
      ExtendsTransitive(h, m, r);
      assert Firings(src, h.promises[src], rs) ==
        Firings(src, h.promises[src], init) + [Firing(src, Branch(m.promises[src], Last(rs)), m.promises[src].value, Last(rs).derived)];
      r
  }

  /** Firing the reactions up to `i + 1` fires those up to `i`, then
      reaction `i`. */
  lemma FiredAllSnoc(h: Heap, src: nat, rs: seq<Reaction>, i: nat)
    requires Wf(h) && src < |h.promises| && h.promises[src].state != Pending
    requires ReactionsWf(rs, BoundsOf(h)) && i < |rs|
    ensures ReactionsWf(rs[..i], BoundsOf(h)) && ReactionsWf(rs[..i + 1], BoundsOf(h))
    ensures var m := FiredAll(h, src, rs[..i]);
      Within(BoundsOf(h), BoundsOf(m)) && ReactionWf(rs[i], BoundsOf(m)) &&
      FiredAll(h, src, rs[..i + 1]) == Fired(m, src, rs[i])
  {
    assert rs[..i + 1][..i] == rs[..i];
    ExtendsWithin(h, FiredAll(h, src, rs[..i]));
  }

  /** Adoption follows the inner promise: when `o` adopted `src` (the
      reaction `src.then(o._resolve, o._reject)`) and `src` has settled
      with a plain value, firing that reaction gives `o` the same state and
      value. */
  lemma AdoptionFollows(h: Heap, src: nat, o: nat, d: nat)
    requires Wf(h) && src < |h.promises| && o < |h.promises| && d < |h.promises| && d != o
    requires h.promises[src].state != Pending && !IsThenable(h.promises[src].value, |h.promises|)
    requires h.promises[o].state == Pending
    ensures var r := Fired(h, src, Reaction(ResolveWith(o), RejectWith(o), d));
      r.promises[o].state == h.promises[src].state && r.promises[o].value == h.promises[src].value
  {
    var p := h.promises[src];
    var cb := Branch(p, Reaction(ResolveWith(o), RejectWith(o), d));
    var h1 := h.(fired := h.fired + [Firing(src, cb, p.value, d)]);
    assert Wf(h1) by {
      assert BoundsOf(h1) == BoundsOf(h);
    }
    ResolvedWf(h1, o, p.state, p.value);
    var h2 := Resolved(h1, o, p.state, p.value);
    assert Called(h1, cb, p.value) == (h2, Return(Undef));
    FedWf(h2, d, Return(Undef));
  }

  /** finally's inner callback after `callback()` has settled: a
      fulfilment passes the original value through unchanged; a rejection
      is re-raised through `P.reject(result)`, a new promise rejected with
      the original reason. */
  lemma FinallyPassesThrough(h: Heap, result: Value, failed: bool, arg: Value)
    requires Wf(h)
    ensures !failed ==> Called(h, FinallyPass(result, false), arg) == (h, Return(result))
    ensures failed && !result.PromiseRef? ==>
      var r := Called(h, FinallyPass(result, true), arg);
      r.1 == Return(PromiseRef(|h.promises|)) && |h.promises| < |r.0.promises| &&
      r.0.promises[|h.promises|].state == Rejected && r.0.promises[|h.promises|].value == result
  {
    if failed && !result.PromiseRef? {
      AllocatedWf(h);
      ResolvedWf(Allocated(h), |h.promises|, Rejected, result);
    }
  }
}
