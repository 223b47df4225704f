// The combinators `P.all`, `P.any`, `P.race` and `P.allSettled` as heap
// transitions: which reactions each input element gets and on which
// promise they wait, and what those reactions do to the combinator's
// promise when a drain task fires them. The methods in engine.dfy are
// proved to leave exactly the heaps described here.

module Combinators {
  import opened Values
  import opened Aggregates
  import opened PromiseState
  import opened Transitions

  // ---------------------------------------------------------------------
  // Reactions that are still to fire.

  /** A drain task that will call `rx` for `src`. */
  ghost predicate Drains(t: Task, src: nat, rx: Reaction)
  {
    t.RunHandlers? && t.source == src && rx in t.handlers
  }

  /** The reaction `rx` will still fire for `src`: it is queued on `src`,
      or sits in a drain task already scheduled for `src`. */
  ghost predicate Waiting(h: Heap, src: nat, rx: Reaction)
  {
    src < |h.promises| &&
    (rx in h.promises[src].handlers || exists j | 0 <= j < |h.tasks| :: Drains(h.tasks[j], src, rx))
  }

  /** Every reaction waiting in `h` still waits in `r`: no synchronous
      operation drops a reaction. */
  ghost predicate KeepsWaiting(h: Heap, r: Heap)
  {
    forall src: nat, rx: Reaction | Waiting(h, src, rx) :: Waiting(r, src, rx)
  }

  lemma KeepsWaitingTransitive(a: Heap, b: Heap, c: Heap)
    requires KeepsWaiting(a, b) && KeepsWaiting(b, c)
    ensures KeepsWaiting(a, c)
  {
  }

  lemma QueuedWaiting(h: Heap, src: nat, rx: Reaction)
    requires Queued(h, src, rx)
    ensures Waiting(h, src, rx)
  {
    var hs := h.promises[src].handlers;
    if hs != [] && Last(hs) == rx {
      assert hs[|hs| - 1] == rx;
    } else {
      var t := h.tasks[|h.tasks| - 1];
      assert t.handlers[|t.handlers| - 1] == rx;
      assert Drains(t, src, rx);
    }
  }

  /** A step that only appends, to each handler queue and to the task
      queue, keeps every waiting reaction waiting. */
  lemma GrowsKeepsWaiting(h: Heap, r: Heap)
    requires |h.promises| <= |r.promises| && Prefix(h.tasks, r.tasks)
    requires forall i | 0 <= i < |h.promises| :: Prefix(h.promises[i].handlers, r.promises[i].handlers)
    ensures KeepsWaiting(h, r)
  {
    forall src: nat, rx: Reaction | Waiting(h, src, rx)
      ensures Waiting(r, src, rx)
    {
      var hs := h.promises[src].handlers;
      if rx in hs {
        var j :| 0 <= j < |hs| && hs[j] == rx;
        assert r.promises[src].handlers[..|hs|][j] == rx;
      } else {
        var j :| 0 <= j < |h.tasks| && Drains(h.tasks[j], src, rx);
        assert r.tasks[..|h.tasks|][j] == h.tasks[j];
      }
    }
  }

  /** `_executeHandlers` moves a settled promise's queue into a drain task,
      where its reactions still wait. */
  lemma DrainedKeepsWaiting(h: Heap, id: nat)
    requires id < |h.promises|
    ensures KeepsWaiting(h, Drained(h, id))
  {
    var r := Drained(h, id);
    var p := h.promises[id];
    forall src: nat, rx: Reaction | Waiting(h, src, rx)
      ensures Waiting(r, src, rx)
    {
      if rx in h.promises[src].handlers {
        if src == id && p.state != Pending {
          var ts := Dispatch(id, p);
          assert r.tasks[|r.tasks| - 1] == Last(ts) == RunHandlers(id, p.handlers);
          assert Drains(r.tasks[|r.tasks| - 1], src, rx);
        }
      } else {
        var j :| 0 <= j < |h.tasks| && Drains(h.tasks[j], src, rx);
        assert r.tasks[j] == h.tasks[j];
      }
    }
  }

  lemma SubscribedKeepsWaiting(h: Heap, src: nat, rx: Reaction)
    requires src < |h.promises|
    ensures KeepsWaiting(h, Subscribed(h, src, rx))
  {
    var e := Enqueued(h, src, rx);
    forall i | 0 <= i < |h.promises|
      ensures Prefix(h.promises[i].handlers, e.promises[i].handlers)
    {
      if i == src {
        assert (h.promises[i].handlers + [rx])[..|h.promises[i].handlers|] == h.promises[i].handlers;
      }
    }
    GrowsKeepsWaiting(h, e);
    DrainedKeepsWaiting(e, src);
  }

  lemma ResolvedKeepsWaiting(h: Heap, id: nat, st: Status, v: Value)
    requires id < |h.promises|
    ensures KeepsWaiting(h, Resolved(h, id, st, v))
  {
    if h.promises[id].state == Pending {
      if IsThenable(v, |h.promises|) {
        SubscribedKeepsWaiting(h, v.id, Reaction(ResolveWith(id), RejectWith(id), |h.promises|));
      } else {
        var w := Written(h, id, st, v);
        GrowsKeepsWaiting(h, w);
        DrainedKeepsWaiting(w, id);
      }
    }
  }

  lemma StaticResolvedKeepsWaiting(h: Heap, v: Value)
    requires Wf(h)
    ensures KeepsWaiting(h, StaticResolved(h, v).0)
  {
    if !IsThenable(v, |h.promises|) {
      var a := Allocated(h);
      GrowsKeepsWaiting(h, a);
      ResolvedKeepsWaiting(a, |h.promises|, Fulfilled, v);
    }
  }

  // ---------------------------------------------------------------------
  // The forEach bodies.

  /** `q.then(onSuccess).catch(onFail)`: `onSuccess` (with then's default
      rethrow) waits on `q` and derives the next id `d`; `onFail` (with
      then's default identity) waits on `d` and derives `d + 1`. Both
      derived promises are still PENDING. */
  ghost function Chained(h: Heap, q: nat, onSuccess: Callback, onFail: Callback): (r: Heap)
    requires Wf(h) && q < |h.promises|
    requires CallbackWf(onSuccess, BoundsOf(h)) && CallbackWf(onFail, BoundsOf(h))
    ensures Wf(r) && Extends(h, r) && KeepsOthers(h.promises, r.promises, -1) && KeepsWaiting(h, r)
    ensures r.alls == h.alls && r.anys == h.anys && r.fired == h.fired && r.uncaught == h.uncaught
    ensures |r.promises| == |h.promises| + 2 && r.promises[q].handled
    ensures r.promises[|h.promises|].state == Pending && r.promises[|h.promises| + 1] == Fresh()
    ensures Queued(r, q, Reaction(onSuccess, Rethrow, |h.promises|))
    ensures Queued(r, |h.promises|, Reaction(Identity, onFail, |h.promises| + 1))
  {
    var d := |h.promises|;
    CallbackWfWithin(onSuccess, BoundsOf(h), Bounds(d + 1, |h.alls|, |h.anys|));
    var rx1 := Reaction(onSuccess, Rethrow, d);
    SubscribedWf(h, q, rx1);
    SubscribedKeepsWaiting(h, q, rx1);
    var h1 := Subscribed(h, q, rx1);
    CallbackWfWithin(onFail, BoundsOf(h), Bounds(d + 2, |h.alls|, |h.anys|));
    var rx2 := Reaction(Identity, onFail, d + 1);
    SubscribedWf(h1, d, rx2);
    SubscribedKeepsWaiting(h1, d, rx2);
    var h2 := Subscribed(h1, d, rx2);
    ExtendsTransitive(h, h1, h2);
    KeepsOthersTransitive(h.promises, h1.promises, h2.promises, -1);
    KeepsWaitingTransitive(h, h1, h2);
    h2
  }

  /** `P.resolve(item).then(onSuccess).catch(onFail)`: the forEach body of
      `P.any` (`onSuccess` resolves the result, `onFail` counts a
      rejection) and of `P.race` (`resolve` and `reject`), and the map
      callback of `P.allSettled` (the two record builders). The result
      names the promise `P.resolve` gave (`q`: the element itself, or a
      new promise fulfilled with it) and the promise `then` derived (`d`);
      `catch` derives `d + 1`. */
  ghost function Forwarded(h: Heap, item: Value, onSuccess: Callback, onFail: Callback): (r: (Heap, nat, nat))
    requires Wf(h) && AllAllocated([item], |h.promises|)
    requires CallbackWf(onSuccess, BoundsOf(h)) && CallbackWf(onFail, BoundsOf(h))
    ensures Wf(r.0) && Extends(h, r.0) && KeepsOthers(h.promises, r.0.promises, -1) && KeepsWaiting(h, r.0)
    ensures r.0.alls == h.alls && r.0.anys == h.anys && r.0.fired == h.fired && r.0.uncaught == h.uncaught
    ensures r.1 < r.2 && |h.promises| <= r.2 && |r.0.promises| == r.2 + 2
    ensures item.PromiseRef? ==> r.1 == item.id
    ensures !item.PromiseRef? ==>
      r.1 == |h.promises| && r.0.promises[r.1].state == Fulfilled && r.0.promises[r.1].value == item
    ensures r.0.promises[r.2].state == Pending && r.0.promises[r.2 + 1] == Fresh()
    ensures Queued(r.0, r.1, Reaction(onSuccess, Rethrow, r.2))
    ensures Queued(r.0, r.2, Reaction(Identity, onFail, r.2 + 1))
  {
    assert [item][0] == item;
    var s := StaticResolved(h, item);
    StaticResolvedKeepsWaiting(h, item);
    ExtendsWithin(h, s.0);
    CallbackWfWithin(onSuccess, BoundsOf(h), BoundsOf(s.0));
    CallbackWfWithin(onFail, BoundsOf(h), BoundsOf(s.0));
    var r := Chained(s.0, s.1, onSuccess, onFail);
    ExtendsTransitive(h, s.0, r);
    KeepsOthersTransitive(h.promises, s.0.promises, r.promises, -1);
    KeepsWaitingTransitive(h, s.0, r);
    (r, s.1, |s.0.promises|)
  }

  /** `new P(...)` whose executor settles at once: `reject(...)` or
      `resolve(...)` on the fresh promise at the next id. */
  ghost function SettledNew(h: Heap, st: Status, v: Value): (r: Heap)
    requires Wf(h) && st != Pending && !v.PromiseRef?
    ensures Wf(r) && Extends(h, r) && KeepsOthers(h.promises, r.promises, -1) && KeepsWaiting(h, r)
    ensures r.alls == h.alls && r.anys == h.anys && r.fired == h.fired && r.uncaught == h.uncaught
    ensures |r.promises| == |h.promises| + 1
    ensures r.promises[|h.promises|].state == st && r.promises[|h.promises|].value == v
  {
    var a := Allocated(h);
    AllocatedWf(h);
    GrowsKeepsWaiting(h, a);
    ResolvedWf(a, |h.promises|, st, v);
    ResolvedKeepsWaiting(a, |h.promises|, st, v);
    var r := Resolved(a, |h.promises|, st, v);
    ExtendsTransitive(h, a, r);
    KeepsWaitingTransitive(h, a, r);
    r
  }

  // ---------------------------------------------------------------------
  // The loops over the input.

  /** Every element is a promise instance of a heap of `count`. */
  predicate Instances(items: seq<Value>, count: nat)
  {
    forall j | 0 <= j < |items| :: IsThenable(items[j], count)
  }

  /** Where all's forEach stops: the index of the first element that is no
      promise instance (its `.then(...)` throws), or the length. */
  function FirstNonInstance(items: seq<Value>, count: nat): (n: nat)
    ensures n <= |items| && Instances(items[..n], count)
    ensures n < |items| ==> !IsThenable(items[n], count)
    ensures Instances(items, count) <==> n == |items|
    decreases |items|
  {
    if items == [] || !IsThenable(items[0], count) then 0
    else
      var n := 1 + FirstNonInstance(items[1..], count);
      assert items[..n] == [items[0]] + items[1..][..n - 1];
      assert n < |items| ==> items[n] == items[1..][n - 1];
      assert Instances(items, count) ==> Instances(items[1..], count);
      n
  }

  /** With every reference allocated, growing the heap does not change
      which elements are instances. */
  lemma {:induction false} FirstNonInstanceStable(items: seq<Value>, a: nat, b: nat)
    requires AllAllocated(items, a) && a <= b
    ensures FirstNonInstance(items, a) == FirstNonInstance(items, b)
    decreases |items|
  {
    if items != [] {
      assert AllAllocated(items[1..], a) by {
        forall j | 0 <= j < |items[1..]| ensures items[1..][j].PromiseRef? ==> items[1..][j].id < a {
          assert items[1..][j] == items[j + 1];
        }
      }
      FirstNonInstanceStable(items[1..], a, b);
    }
  }

  /** The reaction pair `q.then(onSuccess).catch(onFail)` leaves: `onSuccess`
      waits on `q` deriving `d`, and `onFail` waits on `d` deriving `d + 1`. */
  ghost predicate Chains(h: Heap, q: nat, d: nat, onSuccess: Callback, onFail: Callback)
  {
    Waiting(h, q, Reaction(onSuccess, Rethrow, d)) && Waiting(h, d, Reaction(Identity, onFail, d + 1))
  }

  /** Element `j` of all's elements `ids` has the slot callback of index `j`
      waiting on it, deriving the id `2 * j` past `base`, and that derived
      promise has the `_reject` of all's promise `p` waiting on it. */
  ghost predicate SlotJoined(h: Heap, ids: seq<nat>, base: nat, k: nat, p: nat, j: int)
  {
    0 <= j < |ids| && Chains(h, ids[j], base + 2 * j, AllSlot(k, j), RejectWith(p))
  }

  /** Every element of `ids` joined as `SlotJoined` says. */
  ghost predicate Joins(h: Heap, ids: seq<nat>, base: nat, k: nat, p: nat)
  {
    forall j | 0 <= j < |ids| :: SlotJoined(h, ids, base, k, p, j)
  }

  /** `q` is what `P.resolve(item)` gave: the instance itself, or a promise
      fulfilled with the plain value. */
  ghost predicate ResolvesTo(h: Heap, item: Value, q: nat)
  {
    q < |h.promises| &&
    (item.PromiseRef? ==> q == item.id) &&
    (!item.PromiseRef? ==> h.promises[q].state == Fulfilled && h.promises[q].value == item)
  }

  /** The instance ids of elements that are all instances. */
  function Ids(items: seq<Value>, count: nat): (ids: seq<nat>)
    requires Instances(items, count)
    ensures |ids| == |items| && forall j | 0 <= j < |items| :: ids[j] == items[j].id && ids[j] < count
  {
    seq(|items|, j requires 0 <= j < |items| => items[j].id)
  }

  /** Ids below `count`. */
  predicate Below(ids: seq<nat>, count: nat)
  {
    forall j | 0 <= j < |ids| :: ids[j] < count
  }

  /** all's forEach over elements that are all instances, given by their
      ids: element `j` is joined with the slot callback of index `j`. */
  ghost function JoinedAll(h: Heap, ids: seq<nat>, k: nat, p: nat): (r: Heap)
    requires Wf(h) && k < |h.alls| && p < |h.promises| && Below(ids, |h.promises|)
    ensures Wf(r) && Extends(h, r) && KeepsOthers(h.promises, r.promises, -1) && KeepsWaiting(h, r)
    ensures r.alls == h.alls && r.anys == h.anys && r.fired == h.fired && r.uncaught == h.uncaught
    ensures |r.promises| == |h.promises| + 2 * |ids|
    ensures Joins(r, ids, |h.promises|, k, p)
    decreases |ids|
  {
    if ids == [] then h
    else
      var init := ids[..|ids| - 1];
      var m := JoinedAll(h, init, k, p);
      var r := Chained(m, Last(ids), AllSlot(k, |ids| - 1), RejectWith(p));
      ExtendsTransitive(h, m, r);
      KeepsOthersTransitive(h.promises, m.promises, r.promises, -1);
      KeepsWaitingTransitive(h, m, r);
      AllSlotsStep(m, r, ids, init, |h.promises|, k, p);
      r
  }

  lemma ChainsKept(h: Heap, r: Heap, q: nat, d: nat, onSuccess: Callback, onFail: Callback)
    requires Chains(h, q, d, onSuccess, onFail) && KeepsWaiting(h, r)
    ensures Chains(r, q, d, onSuccess, onFail)
  {
  }

  /** One step of the fold: the slots already joined stay joined across the
      next element's step, which joins the last one. */
  lemma AllSlotsStep(m: Heap, r: Heap, ids: seq<nat>, init: seq<nat>, base: nat, k: nat, p: nat)
    requires ids != [] && init == ids[..|ids| - 1]
    requires |m.promises| == base + 2 * |init| && KeepsWaiting(m, r)
    requires Joins(m, init, base, k, p)
    requires Queued(r, Last(ids), Reaction(AllSlot(k, |ids| - 1), Rethrow, |m.promises|))
    requires Queued(r, |m.promises|, Reaction(Identity, RejectWith(p), |m.promises| + 1))
    ensures Joins(r, ids, base, k, p)
  {
    var n := |ids| - 1;
    QueuedWaiting(r, Last(ids), Reaction(AllSlot(k, n), Rethrow, |m.promises|));
    QueuedWaiting(r, |m.promises|, Reaction(Identity, RejectWith(p), |m.promises| + 1));
    assert SlotJoined(r, ids, base, k, p, n);
    forall j | 0 <= j < n
      ensures SlotJoined(r, ids, base, k, p, j)
    {
      assert SlotJoined(m, init, base, k, p, j);
      assert ids[j] == init[j];
      ChainsKept(m, r, ids[j], base + 2 * j, AllSlot(k, j), RejectWith(p));
    }
  }

  /** all's forEach in full: the elements are joined in order until one is
      no instance, whose `.then(...)` throws a TypeError that the
      constructor's `catch` turns into the rejection of `p`. */
  ghost function JoinedItems(h: Heap, items: seq<Value>, k: nat, p: nat): (r: Heap)
    requires Wf(h) && k < |h.alls| && p < |h.promises| && AllAllocated(items, |h.promises|)
    ensures Wf(r) && Extends(h, r) && KeepsOthers(h.promises, r.promises, p) && KeepsWaiting(h, r)
    ensures r.alls == h.alls && r.anys == h.anys && r.fired == h.fired && r.uncaught == h.uncaught
    ensures Instances(items, |h.promises|) ==> r == JoinedAll(h, Ids(items, |h.promises|), k, p)
    ensures Instances(items, |h.promises|) && h.promises[p].state == Pending ==> r.promises[p].state == Pending
    ensures var n := FirstNonInstance(items, |h.promises|);
      n < |items| && h.promises[p].state == Pending ==>
      r.promises[p].state == Rejected && r.promises[p].value == ThenLookupError(items[n])
  {
    var n := FirstNonInstance(items, |h.promises|);
    var m := JoinedAll(h, Ids(items[..n], |h.promises|), k, p);
    if n == |items| then
      assert items[..n] == items;
      m
    else
      assert !items[n].PromiseRef?;
      ResolvedWf(m, p, Rejected, ThenLookupError(items[n]));
      ResolvedKeepsWaiting(m, p, Rejected, ThenLookupError(items[n]));
      var r := Resolved(m, p, Rejected, ThenLookupError(items[n]));
      ExtendsTransitive(h, m, r);
      KeepsOthersTransitive(h.promises, m.promises, r.promises, p);
      KeepsWaitingTransitive(h, m, r);
      r
  }

  /** The forEach of `P.any` and `P.race` (and the map of `P.allSettled`):
      each element forwarded in order. The result lists, per element, the
      promise `P.resolve` gave and the one `then` derived. */
  ghost function ForwardedAll(h: Heap, items: seq<Value>, onSuccess: Callback, onFail: Callback): (r: (Heap, seq<(nat, nat)>))
    requires Wf(h) && AllAllocated(items, |h.promises|)
    requires CallbackWf(onSuccess, BoundsOf(h)) && CallbackWf(onFail, BoundsOf(h))
    ensures Wf(r.0) && Extends(h, r.0) && KeepsOthers(h.promises, r.0.promises, -1) && KeepsWaiting(h, r.0)
    ensures r.0.alls == h.alls && r.0.anys == h.anys && r.0.fired == h.fired && r.0.uncaught == h.uncaught
    ensures |r.1| == |items| && Derived(r.1, |h.promises|, |r.0.promises|)
    decreases |items|
  {
    if items == [] then (h, [])
    else
      var init := items[..|items| - 1];
      AllocatedPrefix(items, |items| - 1, |h.promises|);
      var m := ForwardedAll(h, init, onSuccess, onFail);
      ExtendsWithin(h, m.0);
      CallbackWfWithin(onSuccess, BoundsOf(h), BoundsOf(m.0));
      CallbackWfWithin(onFail, BoundsOf(h), BoundsOf(m.0));
      assert AllAllocated([Last(items)], |m.0.promises|);
      var f := Forwarded(m.0, Last(items), onSuccess, onFail);
      ExtendsTransitive(h, m.0, f.0);
      KeepsOthersTransitive(h.promises, m.0.promises, f.0.promises, -1);
      KeepsWaitingTransitive(h, m.0, f.0);
      DerivedSnoc(m.1, |h.promises|, |m.0.promises|, f.1, f.2, |f.0.promises|);
      (f.0, m.1 + [(f.1, f.2)])
  }

  /** Every promise a forEach derived (and the one its `catch` derived) lies
      in the range `[lo, hi)`: allocated, and past the heap it started on. */
  ghost predicate Derived(refs: seq<(nat, nat)>, lo: nat, hi: nat)
  {
    forall j | 0 <= j < |refs| :: lo <= refs[j].1 && refs[j].1 + 1 < hi
  }

  lemma DerivedSnoc(refs: seq<(nat, nat)>, lo: nat, mid: nat, q: nat, d: nat, hi: nat)
    requires Derived(refs, lo, mid) && lo <= mid <= d && d + 1 < hi
    ensures Derived(refs + [(q, d)], lo, hi)
  {
    var next := refs + [(q, d)];
    forall j | 0 <= j < |next| ensures lo <= next[j].1 && next[j].1 + 1 < hi {
      if j < |refs| {
        assert next[j] == refs[j];
      }
    }
  }

  lemma ResolvesToKept(h: Heap, r: Heap, item: Value, q: nat)
    requires ResolvesTo(h, item, q) && KeepsOthers(h.promises, r.promises, -1)
    ensures ResolvesTo(r, item, q)
  {
  }

  /** The last element's step of the forEach of `P.any` and `P.race`:
      forwarding `Last(items)` from the heap `m` the earlier elements left. */
  lemma ForwardedLast(m: Heap, mrefs: seq<(nat, nat)>, items: seq<Value>, onSuccess: Callback, onFail: Callback, r: (Heap, seq<(nat, nat)>))
    requires Wf(m) && items != [] && |mrefs| == |items| - 1 && AllAllocated([Last(items)], |m.promises|)
    requires CallbackWf(onSuccess, BoundsOf(m)) && CallbackWf(onFail, BoundsOf(m))
    requires var f := Forwarded(m, Last(items), onSuccess, onFail); r == (f.0, mrefs + [(f.1, f.2)])
    ensures KeepsWaiting(m, r.0) && KeepsOthers(m.promises, r.0.promises, -1)
    ensures |r.1| == |items| && r.1[..|items| - 1] == mrefs
    ensures ItemForwarded(r.0, items, r.1, onSuccess, onFail, |items| - 1)
  {
    var f := Forwarded(m, Last(items), onSuccess, onFail);
    assert r.1[..|items| - 1] == mrefs;
    QueuedWaiting(f.0, f.1, Reaction(onSuccess, Rethrow, f.2));
    QueuedWaiting(f.0, f.2, Reaction(Identity, onFail, f.2 + 1));
  }

  /** Element `j` of `items` went through `P.resolve` to `refs[j].0`, which
      has `onSuccess` waiting on it deriving `refs[j].1`, which has
      `onFail` waiting on it. */
  ghost predicate ItemForwarded(h: Heap, items: seq<Value>, refs: seq<(nat, nat)>, onSuccess: Callback, onFail: Callback, j: int)
  {
    0 <= j < |items| && j < |refs| &&
    ResolvesTo(h, items[j], refs[j].0) && Chains(h, refs[j].0, refs[j].1, onSuccess, onFail)
  }

  /** Every element of `items` forwarded as `ItemForwarded` says. */
  ghost predicate Forwards(h: Heap, items: seq<Value>, refs: seq<(nat, nat)>, onSuccess: Callback, onFail: Callback)
  {
    forall j | 0 <= j < |items| :: ItemForwarded(h, items, refs, onSuccess, onFail, j)
  }

  /** One step of the forEach: the elements already forwarded stay so
      across the last element's step, which forwards the last one. */
  lemma ForwardsStep(m: Heap, r: Heap, items: seq<Value>, init: seq<Value>, mrefs: seq<(nat, nat)>, refs: seq<(nat, nat)>, onSuccess: Callback, onFail: Callback)
    requires items != [] && init == items[..|items| - 1] && |refs| == |items| && refs[..|items| - 1] == mrefs
    requires KeepsWaiting(m, r) && KeepsOthers(m.promises, r.promises, -1)
    requires Forwards(m, init, mrefs, onSuccess, onFail)
    requires ItemForwarded(r, items, refs, onSuccess, onFail, |items| - 1)
    ensures Forwards(r, items, refs, onSuccess, onFail)
  {
    forall j | 0 <= j < |items| - 1
      ensures ItemForwarded(r, items, refs, onSuccess, onFail, j)
    {
      assert ItemForwarded(m, init, mrefs, onSuccess, onFail, j);
      assert items[j] == init[j];
      assert refs[j] == mrefs[j];
      ResolvesToKept(m, r, items[j], refs[j].0);
      ChainsKept(m, r, refs[j].0, refs[j].1, onSuccess, onFail);
    }
  }

  /** After the forEach, element `j`'s `P.resolve` promise has `onSuccess`
      waiting on it, and the promise that reaction derives has `onFail`
      waiting on it. */
  lemma {:induction false} ForwardedAllWaits(h: Heap, items: seq<Value>, onSuccess: Callback, onFail: Callback)
    requires Wf(h) && AllAllocated(items, |h.promises|)
    requires CallbackWf(onSuccess, BoundsOf(h)) && CallbackWf(onFail, BoundsOf(h))
    ensures var r := ForwardedAll(h, items, onSuccess, onFail); Forwards(r.0, items, r.1, onSuccess, onFail)
    decreases |items|
  {
    if items != [] {
      var init := items[..|items| - 1];
      AllocatedPrefix(items, |items| - 1, |h.promises|);
      ForwardedAllWaits(h, init, onSuccess, onFail);
      var m := ForwardedAll(h, init, onSuccess, onFail);
      var r := ForwardedAll(h, items, onSuccess, onFail);
      ForwardedAllSnoc(h, items, init, onSuccess, onFail);
      ForwardedLast(m.0, m.1, items, onSuccess, onFail, r);
      ForwardsStep(m.0, r.0, items, init, m.1, r.1, onSuccess, onFail);
    }
  }

  /** The reactions of a forEach over `items` survive later steps that keep
      every waiting reaction and every settlement. */
  lemma ForwardsKept(m: Heap, r: Heap, items: seq<Value>, refs: seq<(nat, nat)>, onSuccess: Callback, onFail: Callback)
    requires KeepsWaiting(m, r) && KeepsOthers(m.promises, r.promises, -1)
    requires Forwards(m, items, refs, onSuccess, onFail)
    ensures Forwards(r, items, refs, onSuccess, onFail)
  {
    forall j | 0 <= j < |items|
      ensures ItemForwarded(r, items, refs, onSuccess, onFail, j)
    {
      assert ItemForwarded(m, items, refs, onSuccess, onFail, j);
      ResolvesToKept(m, r, items[j], refs[j].0);
      ChainsKept(m, r, refs[j].0, refs[j].1, onSuccess, onFail);
    }
  }

  // ---------------------------------------------------------------------
  // The combinators.

  /** What every combinator call does to the heap it runs on: it stays
      well formed, only grows, settles nothing that was there (but may
      add reactions and mark promises handled), and keeps every reaction
      still waiting; no reaction is fired and no rejection reported. */
  ghost predicate Steps(h: Heap, r: Heap)
  {
    Wf(h) && Wf(r) && Extends(h, r) && KeepsOthers(h.promises, r.promises, -1) && KeepsWaiting(h, r) &&
    r.fired == h.fired && r.uncaught == h.uncaught
  }

  lemma StepsTransitive(a: Heap, b: Heap, c: Heap)
    requires Steps(a, b) && Steps(b, c)
    ensures Steps(a, c)
  {
    ExtendsTransitive(a, b, c);
    KeepsOthersTransitive(a.promises, b.promises, c.promises, -1);
    KeepsWaitingTransitive(a, b, c);
  }

  /** A promise settled past the end of `a` leaves all of `a` alone. */
  lemma KeepsOthersPast(a: seq<PromiseObj>, b: seq<PromiseObj>, c: seq<PromiseObj>, id: int)
    requires KeepsOthers(a, b, -1) && KeepsOthers(b, c, id) && id >= |a|
    ensures KeepsOthers(a, c, -1)
  {
  }

  /** A fresh promise at the next id: what `new P(...)` leaves before its
      executor runs. */
  ghost function Started(h: Heap): (r: Heap)
    requires Wf(h)
    ensures Steps(h, r) && r.alls == h.alls && r.anys == h.anys
    ensures r == Allocated(h) && r.promises[|h.promises|] == Fresh()
  {
    AllocatedWf(h);
    GrowsKeepsWaiting(h, Allocated(h));
    Allocated(h)
  }

  /** `P.all(input)` on heap `h`: the heap it leaves and the promise it
      returns, a new one at the next id. A non-array is rejected with a
      TypeError and an empty array fulfilled with `[]`; otherwise the
      closure state is appended and the forEach joins every element, until
      one that is no instance rejects the promise. */
  ghost function AllOf(h: Heap, input: Value): (r: (Heap, nat))
    requires Wf(h) && (IsArray(input) ==> AllAllocated(input.items, |h.promises|))
    ensures Steps(h, r.0) && r.0.anys == h.anys
    ensures r.1 == |h.promises| < |r.0.promises|
    ensures !IsArray(input) ==>
      r.0.alls == h.alls &&
      r.0.promises[r.1].state == Rejected && r.0.promises[r.1].value == NewTypeError(ArrayRequiredMessage)
    ensures IsArray(input) && input.items == [] ==>
      r.0.alls == h.alls && r.0.promises[r.1].state == Fulfilled && r.0.promises[r.1].value == Array([])
    ensures IsArray(input) && input.items != [] ==> r.0.alls == h.alls + [AllStart(r.1, |input.items|)]
    ensures IsArray(input) && input.items != [] && Instances(input.items, |h.promises|) ==>
      r.0.promises[r.1].state == Pending
    ensures IsArray(input) ==>
      var n := FirstNonInstance(input.items, |h.promises|);
      n < |input.items| ==>
        r.0.promises[r.1].state == Rejected && r.0.promises[r.1].value == ThenLookupError(input.items[n])
  {
    var p := |h.promises|;
    if !IsArray(input) then (SettledNew(h, Rejected, NewTypeError(ArrayRequiredMessage)), p)
    else if input.items == [] then (SettledNew(h, Fulfilled, Array([])), p)
    else (Joined(h, input.items), p)
  }

  /** all's closure state appended at the promise `Started` allocated: the
      heap its forEach runs on. */
  ghost function AllStarted(h: Heap, n: nat): (r: Heap)
    requires Wf(h)
    ensures Steps(h, r) && r.anys == h.anys && r.alls == h.alls + [AllStart(|h.promises|, n)]
    ensures |r.promises| == |h.promises| + 1 && r.promises[|h.promises|] == Fresh()
  {
    var a := Started(h);
    AllAddedWf(a, AllStart(|h.promises|, n));
    var b := a.(alls := a.alls + [AllStart(|h.promises|, n)]);
    assert Steps(a, b);
    StepsTransitive(h, a, b);
    b
  }

  /** all's closure state appended and its forEach run, for a non-empty
      array. */
  ghost function Joined(h: Heap, items: seq<Value>): (r: Heap)
    requires Wf(h) && items != [] && AllAllocated(items, |h.promises|)
    ensures Steps(h, r) && r.anys == h.anys && |h.promises| < |r.promises|
    ensures r.alls == h.alls + [AllStart(|h.promises|, |items|)]
    ensures Instances(items, |h.promises|) ==>
      r.promises[|h.promises|].state == Pending && SlotsPending(r, |h.promises|, |items|)
    ensures var n := FirstNonInstance(items, |h.promises|);
      n < |items| ==>
        r.promises[|h.promises|].state == Rejected && r.promises[|h.promises|].value == ThenLookupError(items[n])
  {
    var b := AllStarted(h, |items|);
    FirstNonInstanceStable(items, |h.promises|, |b.promises|);
    var r := JoinedItems(b, items, |h.alls|, |h.promises|);
    JoinedItemsPending(b, items, |h.alls|, |h.promises|);
    ExtendsTransitive(h, b, r);
    KeepsOthersPast(h.promises, b.promises, r.promises, |h.promises|);
    KeepsWaitingTransitive(h, b, r);
    r
  }

  /** all's forEach on an array of instances: element `j` has the slot
      callback of index `j` waiting on it, and the promise that reaction
      derives has all's `reject` waiting on it. */
  lemma AllWaits(h: Heap, input: Value)
    requires Wf(h) && IsArray(input) && input.items != [] && AllAllocated(input.items, |h.promises|)
    requires Instances(input.items, |h.promises|)
    ensures var r := AllOf(h, input); Joins(r.0, Ids(input.items, |h.promises|), r.1 + 1, |h.alls|, r.1)
  {
    var items := input.items;
    var b := AllStarted(h, |items|);
    FirstNonInstanceStable(items, |h.promises|, |b.promises|);
    assert Ids(items, |b.promises|) == Ids(items, |h.promises|);
  }

  /** The promise ids of the catch-derived promises of a forEach: what
      allSettled's `map` returns, one per element. */
  function CatchRefs(refs: seq<(nat, nat)>): (vs: seq<Value>)
    ensures |vs| == |refs| && forall j | 0 <= j < |refs| :: vs[j] == PromiseRef(refs[j].1 + 1)
  {
    seq(|refs|, j requires 0 <= j < |refs| => PromiseRef(refs[j].1 + 1))
  }

  /** `P.any(input)` on heap `h`: the heap it leaves, the promise it returns
      (a new one at the next id), and per element the promise `P.resolve`
      gave and the one `then` derived. A non-array is rejected with a
      TypeError and an empty array with the AggregateError; otherwise the
      closure state is appended, every element forwarded, and the promise
      stays PENDING. */
  ghost function AnyOf(h: Heap, input: Value): (r: (Heap, nat, seq<(nat, nat)>))
    requires Wf(h) && (IsArray(input) ==> AllAllocated(input.items, |h.promises|))
    ensures Steps(h, r.0) && r.0.alls == h.alls
    ensures r.1 == |h.promises| < |r.0.promises|
    ensures !IsArray(input) ==>
      r.0.anys == h.anys &&
      r.0.promises[r.1].state == Rejected && r.0.promises[r.1].value == NewTypeError(ArrayRequiredMessage)
    ensures IsArray(input) && input.items == [] ==>
      r.0.anys == h.anys &&
      r.0.promises[r.1].state == Rejected && r.0.promises[r.1].value == NewAggregateError(AllRejectedMessage)
    ensures IsArray(input) && input.items != [] ==>
      r.0.anys == h.anys + [AnyStart(r.1, |input.items|)] && r.0.promises[r.1].state == Pending &&
      |r.2| == |input.items|
  {
    var p := |h.promises|;
    if !IsArray(input) then (SettledNew(h, Rejected, NewTypeError(ArrayRequiredMessage)), p, [])
    else if input.items == [] then (SettledNew(h, Rejected, NewAggregateError(AllRejectedMessage)), p, [])
    else
      var f := AnyForwarded(h, input.items);
      (f.0, p, f.1)
  }

  /** any's closure state appended at the promise `Started` allocated: the
      heap its forEach runs on. */
  ghost function AnyStarted(h: Heap, n: nat): (r: Heap)
    requires Wf(h)
    ensures Steps(h, r) && r.alls == h.alls && r.anys == h.anys + [AnyStart(|h.promises|, n)]
    ensures |r.promises| == |h.promises| + 1 && r.promises[|h.promises|] == Fresh()
  {
    var a := Started(h);
    AnyAddedWf(a, AnyStart(|h.promises|, n));
    var b := a.(anys := a.anys + [AnyStart(|h.promises|, n)]);
    assert Steps(a, b);
    StepsTransitive(h, a, b);
    b
  }

  /** any's closure state appended and its forEach run, for a non-empty
      array. */
  ghost function AnyForwarded(h: Heap, items: seq<Value>): (r: (Heap, seq<(nat, nat)>))
    requires Wf(h) && AllAllocated(items, |h.promises|)
    ensures Steps(h, r.0) && r.0.alls == h.alls && r.0.anys == h.anys + [AnyStart(|h.promises|, |items|)]
    ensures |h.promises| < |r.0.promises| && r.0.promises[|h.promises|].state == Pending && |r.1| == |items|
  {
    var b := AnyStarted(h, |items|);
    var f := ForwardedAll(b, items, ResolveWith(|h.promises|), AnyFail(|h.anys|));
    assert Steps(b, f.0);
    StepsTransitive(h, b, f.0);
    f
  }

  /** any's forEach: element `j`'s `P.resolve` promise has any's `resolve`
      waiting on it, and the promise that reaction derives has the
      rejection counter of this call waiting on it. */
  lemma AnyWaits(h: Heap, input: Value)
    requires Wf(h) && IsArray(input) && input.items != [] && AllAllocated(input.items, |h.promises|)
    ensures var r := AnyOf(h, input); Forwards(r.0, input.items, r.2, ResolveWith(r.1), AnyFail(|h.anys|))
  {
    ForwardedAllWaits(AnyStarted(h, |input.items|), input.items, ResolveWith(|h.promises|), AnyFail(|h.anys|));
  }

  /** `P.race(input)` on heap `h`: the heap it leaves, the promise it
      returns (a new one at the next id), and per element the promise
      `P.resolve` gave and the one `then` derived. A non-array is rejected
      with a TypeError; otherwise every element is forwarded and the
      promise stays PENDING (for ever, on an empty array). */
  ghost function RaceOf(h: Heap, input: Value): (r: (Heap, nat, seq<(nat, nat)>))
    requires Wf(h) && (IsArray(input) ==> AllAllocated(input.items, |h.promises|))
    ensures Steps(h, r.0) && r.0.alls == h.alls && r.0.anys == h.anys
    ensures r.1 == |h.promises| < |r.0.promises|
    ensures !IsArray(input) ==>
      r.0.promises[r.1].state == Rejected && r.0.promises[r.1].value == NewTypeError(ArrayRequiredMessage)
    ensures IsArray(input) ==> r.0.promises[r.1].state == Pending && |r.2| == |input.items|
  {
    var p := |h.promises|;
    if !IsArray(input) then (SettledNew(h, Rejected, NewTypeError(ArrayRequiredMessage)), p, [])
    else
      var f := RaceForwarded(h, input.items);
      (f.0, p, f.1)
  }

  /** race's forEach on the promise `Started` allocated. */
  ghost function RaceForwarded(h: Heap, items: seq<Value>): (r: (Heap, seq<(nat, nat)>))
    requires Wf(h) && AllAllocated(items, |h.promises|)
    ensures Steps(h, r.0) && r.0.alls == h.alls && r.0.anys == h.anys
    ensures |h.promises| < |r.0.promises| && r.0.promises[|h.promises|].state == Pending && |r.1| == |items|
  {
    var a := Started(h);
    var p := |h.promises|;
    var f := ForwardedAll(a, items, ResolveWith(p), RejectWith(p));
    assert Steps(a, f.0);
    StepsTransitive(h, a, f.0);
    f
  }

  /** race's forEach: element `j`'s `P.resolve` promise has race's
      `resolve` waiting on it, and the promise that reaction derives has
      race's `reject` waiting on it. */
  lemma RaceWaits(h: Heap, input: Value)
    requires Wf(h) && IsArray(input) && AllAllocated(input.items, |h.promises|)
    ensures var r := RaceOf(h, input); Forwards(r.0, input.items, r.2, ResolveWith(r.1), RejectWith(r.1))
  {
    var p := |h.promises|;
    var f := ForwardedAll(Started(h), input.items, ResolveWith(p), RejectWith(p));
    assert RaceOf(h, input) == (f.0, p, f.1);
    ForwardedAllWaits(Started(h), input.items, ResolveWith(p), RejectWith(p));
  }

  /** allSettled's map: every element forwarded to the two record
      builders. The catch-derived promises it returns are instances. */
  ghost function Recorded(h: Heap, items: seq<Value>): (r: (Heap, seq<(nat, nat)>))
    requires Wf(h) && AllAllocated(items, |h.promises|)
    ensures Steps(h, r.0) && r.0.alls == h.alls && r.0.anys == h.anys && |r.1| == |items|
    ensures Instances(CatchRefs(r.1), |r.0.promises|) && AllAllocated(CatchRefs(r.1), |r.0.promises|)
  {
    ForwardedAll(h, items, Record(Fulfilled), Record(Rejected))
  }

  /** `P.allSettled(input)` on heap `h`: the heap it leaves, the promise it
      returns, and per element the promise `P.resolve` gave and the one
      `then` derived. A non-array goes to `P.reject` of a TypeError;
      otherwise every element is mapped to its record promise and the
      result is `P.all` of those, which are all instances. */
  ghost function AllSettledOf(h: Heap, input: Value): (r: (Heap, nat, seq<(nat, nat)>))
    requires Wf(h) && (IsArray(input) ==> AllAllocated(input.items, |h.promises|))
    ensures Steps(h, r.0) && r.0.anys == h.anys
    ensures |h.promises| <= r.1 < |r.0.promises|
    ensures !IsArray(input) ==>
      r.0.alls == h.alls && r.1 == |h.promises| &&
      r.0.promises[r.1].state == Rejected && r.0.promises[r.1].value == NewTypeError(ArrayRequiredMessage)
    ensures IsArray(input) && input.items == [] ==>
      r.0.alls == h.alls && r.0.promises[r.1].state == Fulfilled && r.0.promises[r.1].value == Array([])
    ensures IsArray(input) && input.items != [] ==>
      r.0.alls == h.alls + [AllStart(r.1, |input.items|)] && r.0.promises[r.1].state == Pending &&
      |r.2| == |input.items|
  {
    if !IsArray(input) then (SettledNew(h, Rejected, NewTypeError(ArrayRequiredMessage)), |h.promises|, [])
    else
      var f := Recorded(h, input.items);
      var a := AllOf(f.0, Array(CatchRefs(f.1)));
      StepsTransitive(h, f.0, a.0);
      (a.0, a.1, f.1)
  }

  /** allSettled's map: element `j`'s `P.resolve` promise has the
      fulfilment record builder waiting on it, and the promise that
      derives has the rejection record builder waiting on it; these
      reactions survive the inner `P.all`. */
  lemma AllSettledForwards(h: Heap, input: Value, r: (Heap, nat, seq<(nat, nat)>))
    requires Wf(h) && IsArray(input) && input.items != [] && AllAllocated(input.items, |h.promises|)
    requires r == AllSettledOf(h, input)
    ensures Forwards(r.0, input.items, r.2, Record(Fulfilled), Record(Rejected))
  {
    RecordedWaits(h, input.items);
    MappedJoined(Recorded(h, input.items).0, input.items, Recorded(h, input.items).1, |h.alls|, r);
  }

  /** allSettled's inner `P.all`: the promise the `j`-th record builder
      derives (the `j`-th element of the mapped array) has the slot
      callback of index `j` waiting on it. */
  lemma AllSettledJoins(h: Heap, input: Value, r: (Heap, nat, seq<(nat, nat)>))
    requires Wf(h) && IsArray(input) && input.items != [] && AllAllocated(input.items, |h.promises|)
    requires r == AllSettledOf(h, input)
    ensures Instances(CatchRefs(r.2), r.1) && Joins(r.0, Ids(CatchRefs(r.2), r.1), r.1 + 1, |h.alls|, r.1)
    ensures SlotsWired(r.0, r.2, |h.alls|, r.1)
  {
    RecordedWaits(h, input.items);
    MappedJoined(Recorded(h, input.items).0, input.items, Recorded(h, input.items).1, |h.alls|, r);
  }

  /** allSettled's map: element `j`'s `P.resolve` promise has the
      fulfilment record builder waiting on it, and the promise that
      derives has the rejection record builder waiting on it. */
  lemma RecordedWaits(h: Heap, items: seq<Value>)
    requires Wf(h) && AllAllocated(items, |h.promises|)
    ensures var f := Recorded(h, items); Forwards(f.0, items, f.1, Record(Fulfilled), Record(Rejected))
  {
    ForwardedAllWaits(h, items, Record(Fulfilled), Record(Rejected));
  }

  /** The inner `P.all` of allSettled, whose result is `r`, keeps the
      record builders waiting and joins every mapped promise. */
  lemma MappedJoined(g: Heap, items: seq<Value>, refs: seq<(nat, nat)>, k: nat, r: (Heap, nat, seq<(nat, nat)>))
    requires Wf(g) && items != [] && |refs| == |items| && k == |g.alls|
    requires Instances(CatchRefs(refs), |g.promises|) && AllAllocated(CatchRefs(refs), |g.promises|)
    requires Forwards(g, items, refs, Record(Fulfilled), Record(Rejected))
    requires var a := AllOf(g, Array(CatchRefs(refs))); r == (a.0, a.1, refs)
    ensures Forwards(r.0, items, r.2, Record(Fulfilled), Record(Rejected))
    ensures Joins(r.0, Ids(CatchRefs(r.2), r.1), r.1 + 1, k, r.1)
    ensures SlotsWired(r.0, r.2, k, r.1)
  {
    var a := AllOf(g, Array(CatchRefs(refs)));
    ForwardsKept(g, a.0, items, refs, Record(Fulfilled), Record(Rejected));
    AllWaits(g, Array(CatchRefs(refs)));
    JoinsWired(r.0, r.2, k, r.1);
  }

  /** Slot `j` of the inner all waits on element `j`'s record promise,
      which precedes the all's promise `p`. */
  ghost predicate SlotsWired(g: Heap, refs: seq<(nat, nat)>, k: nat, p: nat)
  {
    forall j | 0 <= j < |refs| :: SlotWired(g, refs, k, p, j)
  }

  ghost predicate SlotWired(g: Heap, refs: seq<(nat, nat)>, k: nat, p: nat, j: nat)
  {
    j < |refs| && CaughtOf(refs, j) < p && Chains(g, CaughtOf(refs, j), SlotOf(p, j), AllSlot(k, j), RejectWith(p))
  }

  /** The join of the record promises, element by element. */
  lemma JoinsWired(m: Heap, refs: seq<(nat, nat)>, k: nat, p: nat)
    requires Instances(CatchRefs(refs), p) && Joins(m, Ids(CatchRefs(refs), p), p + 1, k, p)
    ensures SlotsWired(m, refs, k, p)
  {
    var ids := Ids(CatchRefs(refs), p);
    forall j | 0 <= j < |refs|
      ensures SlotWired(m, refs, k, p, j)
    {
      assert SlotJoined(m, ids, p + 1, k, p, j);
      assert ids[j] == CaughtOf(refs, j);
    }
  }

  // ---------------------------------------------------------------------
  // One more element of a loop.

  /** all's forEach after element `i`, an instance, is the forEach before
      it followed by that element's join. */
  lemma JoinedAllSnoc(h: Heap, items: seq<Value>, i: nat, k: nat, p: nat)
    requires Wf(h) && k < |h.alls| && p < |h.promises| && i < |items|
    requires Instances(items[..i], |h.promises|) && IsThenable(items[i], |h.promises|)
    ensures Instances(items[..i + 1], |h.promises|)
    ensures JoinedAll(h, Ids(items[..i + 1], |h.promises|), k, p) ==
      Chained(JoinedAll(h, Ids(items[..i], |h.promises|), k, p), items[i].id, AllSlot(k, i), RejectWith(p))
  {
    var before, upto := items[..i], items[..i + 1];
    assert upto == before + [items[i]];
    forall j | 0 <= j < i + 1
      ensures IsThenable(upto[j], |h.promises|)
    {
      if j < i {
        assert upto[j] == before[j];
      }
    }
    var ids := Ids(upto, |h.promises|);
    assert ids[..i] == Ids(before, |h.promises|);
    assert Last(ids) == items[i].id;
  }

  /** all's forEach stops at `i` when the elements before it are instances
      and it is not. */
  lemma FirstNonInstanceAt(items: seq<Value>, count: nat, i: nat)
    requires i < |items| && Instances(items[..i], count) && !IsThenable(items[i], count)
    ensures FirstNonInstance(items, count) == i
  {
  }

  /** The forEach of `P.any` and `P.race` over `xs` is the forEach over
      all but its last element followed by that element's step. */
  lemma ForwardedAllSnoc(h: Heap, xs: seq<Value>, init: seq<Value>, onSuccess: Callback, onFail: Callback)
    requires Wf(h) && xs != [] && init == xs[..|xs| - 1] && AllAllocated(xs, |h.promises|)
    requires AllAllocated(init, |h.promises|)
    requires CallbackWf(onSuccess, BoundsOf(h)) && CallbackWf(onFail, BoundsOf(h))
    ensures var m := ForwardedAll(h, init, onSuccess, onFail);
      AllAllocated([Last(xs)], |m.0.promises|) &&
      CallbackWf(onSuccess, BoundsOf(m.0)) && CallbackWf(onFail, BoundsOf(m.0)) &&
      var f := Forwarded(m.0, Last(xs), onSuccess, onFail);
      ForwardedAll(h, xs, onSuccess, onFail) == (f.0, m.1 + [(f.1, f.2)])
  {
    var m := ForwardedAll(h, init, onSuccess, onFail);
    ExtendsWithin(h, m.0);
    CallbackWfWithin(onSuccess, BoundsOf(h), BoundsOf(m.0));
    CallbackWfWithin(onFail, BoundsOf(h), BoundsOf(m.0));
    assert [Last(xs)][0] == Last(xs);
  }

  /** `ForwardedAllSnoc` at element `i` of `items`. */
  lemma ForwardedAllAt(h: Heap, items: seq<Value>, i: nat, onSuccess: Callback, onFail: Callback)
    requires Wf(h) && AllAllocated(items, |h.promises|) && i < |items|
    requires CallbackWf(onSuccess, BoundsOf(h)) && CallbackWf(onFail, BoundsOf(h))
    ensures AllAllocated(items[..i], |h.promises|)
    ensures var m := ForwardedAll(h, items[..i], onSuccess, onFail);
      AllAllocated([items[i]], |m.0.promises|) &&
      CallbackWf(onSuccess, BoundsOf(m.0)) && CallbackWf(onFail, BoundsOf(m.0)) &&
      var f := Forwarded(m.0, items[i], onSuccess, onFail);
      ForwardedAll(h, items[..i + 1], onSuccess, onFail) == (f.0, m.1 + [(f.1, f.2)])
  {
    AllocatedPrefix(items, i, |h.promises|);
    AllocatedPrefix(items, i + 1, |h.promises|);
    assert items[..i + 1][..i] == items[..i];
    ForwardedAllSnoc(h, items[..i + 1], items[..i], onSuccess, onFail);
  }

  /** `g` and `refs` are what forwarding the first `i` items from `h` gives. */
  ghost predicate ForwardedPrefix(h: Heap, items: seq<Value>, i: nat, onSuccess: Callback, onFail: Callback, g: Heap, refs: seq<(nat, nat)>)
  {
    Wf(h) && AllAllocated(items, |h.promises|) && i <= |items| &&
    CallbackWf(onSuccess, BoundsOf(h)) && CallbackWf(onFail, BoundsOf(h)) &&
    AllAllocated(items[..i], |h.promises|) &&
    (g, refs) == ForwardedAll(h, items[..i], onSuccess, onFail)
  }

  /** Forwarding one more item extends the prefix. */
  lemma ForwardedPrefixStep(h: Heap, items: seq<Value>, i: nat, onSuccess: Callback, onFail: Callback, g: Heap, refs: seq<(nat, nat)>)
    requires ForwardedPrefix(h, items, i, onSuccess, onFail, g, refs) && i < |items|
    ensures Wf(g) && AllAllocated([items[i]], |g.promises|)
    ensures CallbackWf(onSuccess, BoundsOf(g)) && CallbackWf(onFail, BoundsOf(g))
    ensures var f := Forwarded(g, items[i], onSuccess, onFail);
      ForwardedPrefix(h, items, i + 1, onSuccess, onFail, f.0, refs + [(f.1, f.2)])
  {
    ForwardedAllAt(h, items, i, onSuccess, onFail);
  }

  /** The whole sequence forwarded. */
  lemma ForwardedPrefixAll(h: Heap, items: seq<Value>, onSuccess: Callback, onFail: Callback, g: Heap, refs: seq<(nat, nat)>)
    requires ForwardedPrefix(h, items, |items|, onSuccess, onFail, g, refs)
    ensures AllAllocated(items, |h.promises|) && CallbackWf(onSuccess, BoundsOf(h)) && CallbackWf(onFail, BoundsOf(h))
    ensures (g, refs) == ForwardedAll(h, items, onSuccess, onFail)
  {
    assert items[..|items|] == items;
  }

  /** A prefix of allocated values is allocated. */
  lemma AllocatedPrefix(items: seq<Value>, i: nat, count: nat)
    requires AllAllocated(items, count) && i <= |items|
    ensures AllAllocated(items[..i], count)
  {
    forall j | 0 <= j < i ensures items[..i][j] == items[j] { }
  }

  /** The promise each element's `catch` derived (`refs[j].1 + 1`) is
      allocated and pending in `g`. */
  ghost predicate CatchesPending(g: Heap, refs: seq<(nat, nat)>)
  {
    forall j | 0 <= j < |refs| :: CatchPending(g, refs, j)
  }

  /** The promise element `j`'s `catch` derived is allocated and pending. */
  ghost predicate CatchPending(g: Heap, refs: seq<(nat, nat)>, j: nat)
  {
    j < |refs| && CaughtOf(refs, j) < |g.promises| && g.promises[CaughtOf(refs, j)].state == Pending
  }

  /** The promise that element `j`'s `catch` derives, right after the one
      its `then` derives. */
  function CaughtOf(refs: seq<(nat, nat)>, j: nat): nat
    requires j < |refs|
  {
    refs[j].1 + 1
  }

  /** A step that changes no settlement keeps the earlier catches pending,
      and adds one whose derived promise is pending. */
  lemma CatchesPendingSnoc(m: Heap, refs: seq<(nat, nat)>, r: Heap, q: nat, d: nat, next: seq<(nat, nat)>)
    requires CatchesPending(m, refs) && KeepsOthers(m.promises, r.promises, -1)
    requires d + 1 < |r.promises| && r.promises[d + 1].state == Pending
    requires next == refs + [(q, d)]
    ensures CatchesPending(r, next)
  {
    forall j | 0 <= j < |next|
      ensures CatchPending(r, next, j)
    {
      if j < |refs| {
        assert CatchPending(m, refs, j);
        assert next[j] == refs[j];
      }
    }
  }

  /** The promises a forEach's `catch` derives are still pending when the
      forEach returns: nothing runs a reaction synchronously. */
  lemma {:induction false} ForwardedAllPending(h: Heap, items: seq<Value>, onSuccess: Callback, onFail: Callback)
    requires Wf(h) && AllAllocated(items, |h.promises|)
    requires CallbackWf(onSuccess, BoundsOf(h)) && CallbackWf(onFail, BoundsOf(h))
    ensures CatchesPending(ForwardedAll(h, items, onSuccess, onFail).0, ForwardedAll(h, items, onSuccess, onFail).1)
    decreases |items|
  {
    if items != [] {
      var init := items[..|items| - 1];
      AllocatedPrefix(items, |items| - 1, |h.promises|);
      ForwardedAllPending(h, init, onSuccess, onFail);
      ForwardedPendingStep(h, items, init, onSuccess, onFail);
    }
  }

  /** The step of `ForwardedAllPending`: forwarding the last element keeps
      the earlier catches pending and adds a pending one. */
  lemma ForwardedPendingStep(h: Heap, items: seq<Value>, init: seq<Value>, onSuccess: Callback, onFail: Callback)
    requires Wf(h) && items != [] && init == items[..|items| - 1]
    requires AllAllocated(items, |h.promises|) && AllAllocated(init, |h.promises|)
    requires CallbackWf(onSuccess, BoundsOf(h)) && CallbackWf(onFail, BoundsOf(h))
    requires CatchesPending(ForwardedAll(h, init, onSuccess, onFail).0, ForwardedAll(h, init, onSuccess, onFail).1)
    ensures CatchesPending(ForwardedAll(h, items, onSuccess, onFail).0, ForwardedAll(h, items, onSuccess, onFail).1)
  {
    ForwardedAllSnoc(h, items, init, onSuccess, onFail);
    var m := ForwardedAll(h, init, onSuccess, onFail);
    var f := Forwarded(m.0, Last(items), onSuccess, onFail);
    var r := ForwardedAll(h, items, onSuccess, onFail);
    assert r.0 == f.0 && r.1 == m.1 + [(f.1, f.2)];
    CatchesPendingSnoc(m.0, m.1, r.0, f.1, f.2, r.1);
  }

  /** The promise that the slot callback of element `j` derives, in the
      all call whose promise is `p`: two promises per element follow `p`. */
  function SlotOf(p: nat, j: nat): nat
  {
    p + 1 + 2 * j
  }

  /** The promises that the slot callbacks of the first `n` elements
      derive, in the all call whose promise is `p`, are allocated and
      pending in `g`. */
  ghost predicate SlotsPending(g: Heap, p: nat, n: nat)
  {
    forall j | 0 <= j < n :: SlotPending(g, p, j)
  }

  /** The promise slot `j`'s callback derived is allocated and pending. */
  ghost predicate SlotPending(g: Heap, p: nat, j: nat)
  {
    SlotOf(p, j) < |g.promises| && g.promises[SlotOf(p, j)].state == Pending
  }

  /** A step that changes no settlement keeps the earlier slots pending,
      and adds one whose derived promise is pending. */
  lemma SlotsPendingSnoc(m: Heap, r: Heap, p: nat, n: nat)
    requires SlotsPending(m, p, n) && KeepsOthers(m.promises, r.promises, -1)
    requires SlotOf(p, n) < |r.promises| && r.promises[SlotOf(p, n)].state == Pending
    ensures SlotsPending(r, p, n + 1)
  {
    forall j | 0 <= j < n + 1
      ensures SlotPending(r, p, j)
    {
      if j < n {
        assert SlotPending(m, p, j);
      }
    }
  }

  /** The promises all's slot callbacks derive are still pending when the
      forEach returns; `p`, all's own promise, is the last one allocated
      before it, so slot `j` derives promise `SlotOf(p, j)`. */
  lemma {:induction false} JoinedAllPending(h: Heap, ids: seq<nat>, k: nat, p: nat)
    requires Wf(h) && k < |h.alls| && |h.promises| == p + 1 && Below(ids, |h.promises|)
    ensures SlotsPending(JoinedAll(h, ids, k, p), p, |ids|)
    decreases |ids|
  {
    if ids != [] {
      var init := ids[..|ids| - 1];
      assert Below(init, |h.promises|);
      JoinedAllPending(h, init, k, p);
      JoinedPendingStep(h, ids, init, k, p);
    }
  }

  /** The step of `JoinedAllPending`. */
  lemma JoinedPendingStep(h: Heap, ids: seq<nat>, init: seq<nat>, k: nat, p: nat)
    requires Wf(h) && k < |h.alls| && |h.promises| == p + 1 && ids != [] && init == ids[..|ids| - 1]
    requires Below(ids, |h.promises|) && Below(init, |h.promises|)
    requires SlotsPending(JoinedAll(h, init, k, p), p, |init|)
    ensures SlotsPending(JoinedAll(h, ids, k, p), p, |ids|)
  {
    var m := JoinedAll(h, init, k, p);
    var r := Chained(m, Last(ids), AllSlot(k, |ids| - 1), RejectWith(p));
    assert JoinedAll(h, ids, k, p) == r;
    assert |m.promises| == SlotOf(p, |init|);
    SlotsPendingSnoc(m, r, p, |init|);
  }

  /** all's forEach over instances leaves every slot's derived promise
      pending. */
  lemma JoinedItemsPending(h: Heap, items: seq<Value>, k: nat, p: nat)
    requires Wf(h) && k < |h.alls| && |h.promises| == p + 1 && AllAllocated(items, |h.promises|)
    ensures Instances(items, |h.promises|) ==> SlotsPending(JoinedItems(h, items, k, p), p, |items|)
  {
    if Instances(items, |h.promises|) {
      JoinedAllPending(h, Ids(items, |h.promises|), k, p);
    }
  }

  /** all's slot callbacks derive promises that are pending when all
      returns. */
  lemma AllSlotsPending(h: Heap, input: Value)
    requires Wf(h) && IsArray(input) && input.items != [] && AllAllocated(input.items, |h.promises|)
    requires Instances(input.items, |h.promises|)
    ensures var r := AllOf(h, input); SlotsPending(r.0, r.1, |input.items|)
  {
  }

  /** A step that changes no settlement keeps the catches pending. */
  lemma CatchesPendingKept(m: Heap, r: Heap, refs: seq<(nat, nat)>)
    requires CatchesPending(m, refs) && KeepsOthers(m.promises, r.promises, -1)
    ensures CatchesPending(r, refs)
  {
    forall j | 0 <= j < |refs|
      ensures CatchPending(r, refs, j)
    {
      assert CatchPending(m, refs, j);
    }
  }

  /** allSettled's record promises, and the promises the inner all's slot
      callbacks derive from them, are still pending when allSettled
      returns. */
  lemma AllSettledPending(h: Heap, input: Value, r: (Heap, nat, seq<(nat, nat)>))
    requires Wf(h) && IsArray(input) && input.items != [] && AllAllocated(input.items, |h.promises|)
    requires r == AllSettledOf(h, input)
    ensures CatchesPending(r.0, r.2) && SlotsPending(r.0, r.1, |r.2|)
  {
    ForwardedAllPending(h, input.items, Record(Fulfilled), Record(Rejected));
    MappedPending(Recorded(h, input.items).0, Recorded(h, input.items).1, r);
  }

  /** The inner `P.all` of allSettled, whose result is `r`, keeps the
      record promises pending and leaves its own slots' promises pending. */
  lemma MappedPending(g: Heap, refs: seq<(nat, nat)>, r: (Heap, nat, seq<(nat, nat)>))
    requires Wf(g) && refs != [] && CatchesPending(g, refs)
    requires Instances(CatchRefs(refs), |g.promises|) && AllAllocated(CatchRefs(refs), |g.promises|)
    requires var a := AllOf(g, Array(CatchRefs(refs))); r == (a.0, a.1, refs)
    ensures CatchesPending(r.0, r.2) && SlotsPending(r.0, r.1, |r.2|)
  {
    var a := AllOf(g, Array(CatchRefs(refs)));
    AllSlotsPending(g, Array(CatchRefs(refs)));
    CatchesPendingKept(g, a.0, refs);
  }

  // ---------------------------------------------------------------------
  // What "never rejects" means for allSettled: along element `j`'s path,
  // its record promise `s`, the promise `e` the inner all's slot callback
  // derives and allSettled's own promise `p` are not rejected.

  /** The path is unrejected in `g`: `s`, `e` and `p` are allocated and
      not rejected, and table entry `k` is the inner all's, whose promise
      is `p`. */
  ghost predicate Unrejected(g: Heap, k: nat, s: nat, e: nat, p: nat)
  {
    s < |g.promises| && e < |g.promises| && p < |g.promises| && k < |g.alls| && g.alls[k].target == p &&
    NoneRejected(g, s, e, p)
  }

  /** None of `s`, `e` and `p` is rejected in `g`. */
  ghost predicate NoneRejected(g: Heap, s: nat, e: nat, p: nat)
    requires s < |g.promises| && e < |g.promises| && p < |g.promises|
  {
    g.promises[s].state != Rejected && g.promises[e].state != Rejected && g.promises[p].state != Rejected
  }

  /** Firing `rx` on `src` in `g`, once `src` is settled, leaves the path
      unrejected. */
  ghost predicate KeepsUnrejected(g: Heap, src: nat, rx: Reaction, k: nat, s: nat, e: nat, p: nat)
  {
    Wf(g) && src < |g.promises| && ReactionWf(rx, BoundsOf(g)) && FiringUnrejected(g, src, rx, k, s, e, p)
  }

  /** The heap after `rx` fires on a settled `src` is unrejected. */
  ghost predicate FiringUnrejected(g: Heap, src: nat, rx: Reaction, k: nat, s: nat, e: nat, p: nat)
    requires Wf(g) && src < |g.promises| && ReactionWf(rx, BoundsOf(g))
  {
    g.promises[src].state != Pending ==> Unrejected(Fired(g, src, rx), k, s, e, p)
  }
}
