// What the reactions registered by `then`, `catch` and the combinators do
// when a drain task fires them: then's defaults pass a settlement down a
// chain, the bound `_resolve`/`_reject` hand it to another promise, and
// the callbacks of `all`, `any` and `allSettled` record, count and build
// records. Each lemma is about one firing (`Fired`); the two-step ones
// let any number of other operations happen between the two firings, as
// long as they only extend the heap.

module Reactions {
  import opened Values
  import opened Aggregates
  import opened PromiseState
  import opened Transitions

  /** The state a completion gives the promise it is fed to. */
  function FedStatus(c: Completion): (st: Status)
    ensures st != Pending && (st == Fulfilled <==> c.Return?)
  {
    if c.Return? then Fulfilled else Rejected
  }

  /** The value a completion carries. */
  function Carried(c: Completion): Value
  {
    if c.Return? then c.result else c.error
  }

  // ---------------------------------------------------------------------
  // One firing.

  /** A branch calling a pure callback settles the derived promise with the
      callback's completion (a return fulfils it, a throw rejects it) and
      leaves every other promise, and the state of `all` and `any`, alone. */
  lemma PureBranchSettles(h: Heap, src: nat, rx: Reaction)
    requires Wf(h) && src < |h.promises| && ReactionWf(rx, BoundsOf(h))
    requires IsPure(Branch(h.promises[src], rx)) && h.promises[rx.derived].state == Pending
    requires !IsThenable(Carried(Apply(Branch(h.promises[src], rx), h.promises[src].value)), |h.promises|)
    ensures var r := Fired(h, src, rx);
      var c := Apply(Branch(h.promises[src], rx), h.promises[src].value);
      r.promises[rx.derived].state == FedStatus(c) && r.promises[rx.derived].value == Carried(c) &&
      KeepsOthers(h.promises, r.promises, rx.derived) && r.alls == h.alls && r.anys == h.anys
  {
    var p := h.promises[src];
    var cb := Branch(p, rx);
    var c := Apply(cb, p.value);
    var h1 := h.(fired := h.fired + [Firing(src, cb, p.value, rx.derived)]);
    assert Wf(h1) by {
      assert BoundsOf(h1) == BoundsOf(h);
    }
    FiredPure(h, src, rx);
    FedWf(h1, rx.derived, c);
    ResolvedWf(h1, rx.derived, FedStatus(c), Carried(c));
  }

  /** A branch calling the bound `_resolve` or `_reject` of a pending
      promise `t` settles `t` with the source's value: fulfilled through
      `_resolve`, rejected through `_reject`. */
  lemma BoundFires(h: Heap, src: nat, rx: Reaction)
    requires Wf(h) && src < |h.promises| && ReactionWf(rx, BoundsOf(h))
    requires var cb := Branch(h.promises[src], rx);
      (cb.ResolveWith? || cb.RejectWith?) && cb.target != rx.derived && h.promises[cb.target].state == Pending
    requires !IsThenable(h.promises[src].value, |h.promises|)
    ensures var cb := Branch(h.promises[src], rx); var r := Fired(h, src, rx);
      r.promises[cb.target].state == (if cb.ResolveWith? then Fulfilled else Rejected) &&
      r.promises[cb.target].value == h.promises[src].value
  {
    var p := h.promises[src];
    var cb := Branch(p, rx);
    var st := if cb.ResolveWith? then Fulfilled else Rejected;
    var h1 := h.(fired := h.fired + [Firing(src, cb, p.value, rx.derived)]);
    assert Wf(h1) by {
      assert BoundsOf(h1) == BoundsOf(h);
    }
    ResolvedWf(h1, cb.target, st, p.value);
    var h2 := Resolved(h1, cb.target, st, p.value);
    assert Called(h1, cb, p.value) == (h2, Return(Undef));
    FedWf(h2, rx.derived, Return(Undef));
  }

  /** then's defaults pass a settlement down the chain: firing
      `Reaction(Identity, Rethrow, d)` on a settled source gives `d` the
      source's state and value. */
  lemma DefaultsPassThrough(h: Heap, src: nat, d: nat)
    requires Wf(h) && src < |h.promises| && d < |h.promises|
    requires h.promises[src].state != Pending && !IsThenable(h.promises[src].value, |h.promises|)
    requires h.promises[d].state == Pending
    ensures var r := Fired(h, src, Reaction(Identity, Rethrow, d));
      r.promises[d].state == h.promises[src].state && r.promises[d].value == h.promises[src].value
  {
    PureBranchSettles(h, src, Reaction(Identity, Rethrow, d));
  }

  /** A rejection skips the success callback: with then's default `onFail`,
      the derived promise is rejected with the source's reason, whatever
      the success callback is. */
  lemma RejectionSkipsSuccess(h: Heap, src: nat, s: Callback, d: nat)
    requires Wf(h) && src < |h.promises| && ReactionWf(Reaction(s, Rethrow, d), BoundsOf(h))
    requires h.promises[src].state == Rejected && !IsThenable(h.promises[src].value, |h.promises|)
    requires h.promises[d].state == Pending
    ensures var r := Fired(h, src, Reaction(s, Rethrow, d));
      r.promises[d].state == Rejected && r.promises[d].value == h.promises[src].value &&
      KeepsOthers(h.promises, r.promises, d) && r.alls == h.alls && r.anys == h.anys
  {
    PureBranchSettles(h, src, Reaction(s, Rethrow, d));
  }

  /** A fulfilment skips `catch`'s callback: with then's default
      `onSuccess`, the derived promise is fulfilled with the source's value,
      whatever the failure callback is. */
  lemma FulfilmentSkipsCatch(h: Heap, src: nat, f: Callback, d: nat)
    requires Wf(h) && src < |h.promises| && ReactionWf(Reaction(Identity, f, d), BoundsOf(h))
    requires h.promises[src].state == Fulfilled && !IsThenable(h.promises[src].value, |h.promises|)
    requires h.promises[d].state == Pending
    ensures var r := Fired(h, src, Reaction(Identity, f, d));
      r.promises[d].state == Fulfilled && r.promises[d].value == h.promises[src].value
  {
    PureBranchSettles(h, src, Reaction(Identity, f, d));
  }

  // ---------------------------------------------------------------------
  // P.all

  /** all's fulfilment callback for element `j`: the value is recorded in
      slot `j` and counted; once every element has reported, all's promise
      is fulfilled with the results in index order, and before that it
      stays as it was. The callback returns, so a pending derived promise
      is fulfilled with `undefined`. */
  lemma AllSlotFires(h: Heap, q: nat, k: nat, j: nat, d: nat)
    requires Wf(h) && q < |h.promises| && ReactionWf(Reaction(AllSlot(k, j), Rethrow, d), BoundsOf(h))
    requires h.promises[q].state == Fulfilled && d != h.alls[k].target
    ensures var r := Fired(h, q, Reaction(AllSlot(k, j), Rethrow, d));
      var a := AllRecord(h.alls[k], j, h.promises[q].value);
      r.alls[k] == a &&
      (!AllComplete(a) ==>
        r.promises[a.target].state == h.promises[a.target].state &&
        r.promises[a.target].value == h.promises[a.target].value) &&
      (AllComplete(a) && h.promises[a.target].state == Pending ==>
        r.promises[a.target].state == Fulfilled && r.promises[a.target].value == Array(Densify(a.results, a.length))) &&
      (h.promises[d].state == Pending ==> r.promises[d].state == Fulfilled && r.promises[d].value == Undef)
  {
    var v := h.promises[q].value;
    var h1 := h.(fired := h.fired + [Firing(q, AllSlot(k, j), v, d)]);
    assert Wf(h1) by {
      assert BoundsOf(h1) == BoundsOf(h);
    }
    SlotFilledWf(h1, k, j, v);
    var h2 := SlotFilled(h1, k, j, v);
    assert Called(h1, AllSlot(k, j), v) == (h2, Return(Undef));
    FedWf(h2, d, Return(Undef));
    ResolvedWf(h2, d, Fulfilled, Undef);
  }

  /** all rejects with the first rejection: element `q` rejected with `e`
      makes its slot reaction reject the derived promise `d` with `e`, and
      when the drain of `d` later runs all's `catch(reject)`, all's promise
      `p`, if still PENDING, is rejected with `e`. */
  lemma AllRejectsOnRejection(h: Heap, q: nat, k: nat, j: nat, d: nat, g: Heap, p: nat)
    requires Wf(h) && q < |h.promises| && ReactionWf(Reaction(AllSlot(k, j), Rethrow, d), BoundsOf(h))
    requires h.promises[q].state == Rejected && !h.promises[q].value.PromiseRef? && h.promises[d].state == Pending
    requires Wf(g) && Extends(Fired(h, q, Reaction(AllSlot(k, j), Rethrow, d)), g)
    requires p < |g.promises| && d + 1 < |g.promises| && p != d + 1 && g.promises[p].state == Pending
    ensures var r := Fired(h, q, Reaction(AllSlot(k, j), Rethrow, d));
      r.promises[d].state == Rejected && r.promises[d].value == h.promises[q].value
    ensures var r := Fired(g, d, Reaction(Identity, RejectWith(p), d + 1));
      r.promises[p].state == Rejected && r.promises[p].value == h.promises[q].value
  {
    RejectionSkipsSuccess(h, q, AllSlot(k, j), d);
    BoundFires(g, d, Reaction(Identity, RejectWith(p), d + 1));
  }

  // ---------------------------------------------------------------------
  // P.race and P.any

  /** race takes the first settlement: element `q` (after `P.resolve`)
      fulfilled with `v` fulfils race's promise `p` with `v` at once;
      rejected with `e`, it rejects the derived promise `d`, whose drain
      later rejects `p` with `e` through race's `catch(reject)`. */
  lemma RaceTakesFirstSettlement(h: Heap, q: nat, d: nat, g: Heap, p: nat)
    requires Wf(h) && q < |h.promises| && ReactionWf(Reaction(ResolveWith(p), Rethrow, d), BoundsOf(h))
    requires h.promises[q].state != Pending && !h.promises[q].value.PromiseRef?
    requires h.promises[d].state == Pending && h.promises[p].state == Pending && d != p
    requires Wf(g) && Extends(Fired(h, q, Reaction(ResolveWith(p), Rethrow, d)), g)
    requires d + 1 < |g.promises| && p != d + 1 && g.promises[p].state == Pending
    ensures var r := Fired(h, q, Reaction(ResolveWith(p), Rethrow, d));
      h.promises[q].state == Fulfilled ==>
        r.promises[p].state == Fulfilled && r.promises[p].value == h.promises[q].value
    ensures h.promises[q].state == Rejected ==>
      var r := Fired(g, d, Reaction(Identity, RejectWith(p), d + 1));
      r.promises[p].state == Rejected && r.promises[p].value == h.promises[q].value
  {
    if h.promises[q].state == Fulfilled {
      BoundFires(h, q, Reaction(ResolveWith(p), Rethrow, d));
    } else {
      RejectionSkipsSuccess(h, q, ResolveWith(p), d);
      BoundFires(g, d, Reaction(Identity, RejectWith(p), d + 1));
    }
  }

  /** any fulfils with the first fulfilment: element `q` (after
      `P.resolve`) fulfilled with `v` fulfils any's promise `p` with `v`. */
  lemma AnyFulfilsWithFirst(h: Heap, q: nat, d: nat, p: nat)
    requires Wf(h) && q < |h.promises| && ReactionWf(Reaction(ResolveWith(p), Rethrow, d), BoundsOf(h))
    requires h.promises[q].state == Fulfilled && !h.promises[q].value.PromiseRef?
    requires h.promises[p].state == Pending && d != p
    ensures var r := Fired(h, q, Reaction(ResolveWith(p), Rethrow, d));
      r.promises[p].state == Fulfilled && r.promises[p].value == h.promises[q].value
  {
    BoundFires(h, q, Reaction(ResolveWith(p), Rethrow, d));
  }

  /** any's rejection callback, fired on the rejected promise `d`: one
      more rejection is counted in any's state `k`; the count reaching the
      length rejects any's promise with the AggregateError, and before that
      no promise but the derived `d2` changes. */
  lemma AnyFailFires(g: Heap, d: nat, k: nat, d2: nat)
    requires Wf(g) && d < |g.promises| && ReactionWf(Reaction(Identity, AnyFail(k), d2), BoundsOf(g))
    requires g.promises[d].state == Rejected && d2 != g.anys[k].target
    ensures var r := Fired(g, d, Reaction(Identity, AnyFail(k), d2));
      var a := AnyRecordRejection(g.anys[k]);
      r.anys[k] == a &&
      (!AnyExhausted(a) ==> KeepsOthers(g.promises, r.promises, d2)) &&
      (AnyExhausted(a) && g.promises[a.target].state == Pending ==>
        r.promises[a.target].state == Rejected && r.promises[a.target].value == NewAggregateError(AllRejectedMessage))
  {
    var e := g.promises[d].value;
    var g1 := g.(fired := g.fired + [Firing(d, AnyFail(k), e, d2)]);
    assert Wf(g1) by {
      assert BoundsOf(g1) == BoundsOf(g);
    }
    RejectionCountedWf(g1, k);
    var g2 := RejectionCounted(g1, k);
    assert Called(g1, AnyFail(k), e) == (g2, Return(Undef));
    FedWf(g2, d2, Return(Undef));
  }

  /** any counts rejections: element `q` (after `P.resolve`) rejected makes
      its reaction reject the derived promise `d`, and the drain of `d`
      later counts one rejection in any's state `k`, rejecting any's
      promise with the AggregateError once every element has. */
  lemma AnyCountsRejection(h: Heap, q: nat, d: nat, p: nat, g: Heap, k: nat)
    requires Wf(h) && q < |h.promises| && ReactionWf(Reaction(ResolveWith(p), Rethrow, d), BoundsOf(h))
    requires h.promises[q].state == Rejected && !h.promises[q].value.PromiseRef? && h.promises[d].state == Pending
    requires Wf(g) && Extends(Fired(h, q, Reaction(ResolveWith(p), Rethrow, d)), g)
    requires k < |g.anys| && d + 1 < |g.promises| && d + 1 != g.anys[k].target
    ensures var r := Fired(h, q, Reaction(ResolveWith(p), Rethrow, d));
      r.promises[d].state == Rejected && r.promises[d].value == h.promises[q].value
    ensures var r := Fired(g, d, Reaction(Identity, AnyFail(k), d + 1));
      var a := AnyRecordRejection(g.anys[k]);
      r.anys[k] == a &&
      (AnyExhausted(a) && g.promises[a.target].state == Pending ==>
        r.promises[a.target].state == Rejected && r.promises[a.target].value == NewAggregateError(AllRejectedMessage))
  {
    RejectionSkipsSuccess(h, q, ResolveWith(p), d);
    AnyFailFires(g, d, k, d + 1);
  }

  // ---------------------------------------------------------------------
  // P.allSettled

  /** allSettled's map callback always fulfils: element `q` (after
      `P.resolve`) settled with `v` gives the promise `catch` derived
      (`d + 1`) the record `{status, value}` or `{status, reason}` of that
      settlement, once both reactions have fired, with any other operations
      between the two. */
  lemma SettlementAlwaysFulfils(h: Heap, q: nat, d: nat, g: Heap)
    requires Wf(h) && q < |h.promises| && ReactionWf(Reaction(Record(Fulfilled), Rethrow, d), BoundsOf(h))
    requires h.promises[q].state != Pending && !h.promises[q].value.PromiseRef? && h.promises[d].state == Pending
    requires Wf(g) && Extends(Fired(h, q, Reaction(Record(Fulfilled), Rethrow, d)), g)
    requires d + 1 < |g.promises| && g.promises[d + 1].state == Pending
    ensures var r := Fired(g, d, Reaction(Identity, Record(Rejected), d + 1));
      r.promises[d + 1].state == Fulfilled &&
      r.promises[d + 1].value == SettledRecord(h.promises[q].state, h.promises[q].value)
  {
    var st := h.promises[q].state;
    var v := h.promises[q].value;
    var r1 := Fired(h, q, Reaction(Record(Fulfilled), Rethrow, d));
    PureBranchSettles(h, q, Reaction(Record(Fulfilled), Rethrow, d));
    if st == Fulfilled {
      assert r1.promises[d].value == SettledRecord(Fulfilled, v);
    }
    PureBranchSettles(g, d, Reaction(Identity, Record(Rejected), d + 1));
  }
}
