// The combinators end to end: what a call of `P.all`, `P.any`, `P.race`
// or `P.allSettled` leaves waiting on element `j`, and what those
// reactions do to the combinator's promise when a drain task later fires
// them. `g` is any later heap in which the reactions of the call are still
// waiting (any number of other operations may have run in between); the
// settlement of element `j` and the state of the combinator's promise are
// read in `g`.

module Runs {
  import opened Values
  import opened Aggregates
  import opened PromiseState
  import opened Transitions
  import opened Reactions
  import opened Combinators

  /** `input` is an array whose elements are allocated in the well-formed
      heap `h`. */
  ghost predicate ArrayIn(h: Heap, input: Value)
  {
    Wf(h) && IsArray(input) && AllAllocated(input.items, |h.promises|)
  }

  /** `g` is a well-formed later heap in which every reaction that waits in
      `m` still waits. */
  ghost predicate StillWaiting(m: Heap, g: Heap)
  {
    Wf(g) && KeepsWaiting(m, g)
  }

  /** A reaction that still waits in a well-formed heap is well formed. */
  lemma WaitingWf(g: Heap, src: nat, rx: Reaction)
    requires Wf(g) && Waiting(g, src, rx)
    ensures ReactionWf(rx, BoundsOf(g))
  {
    if rx in g.promises[src].handlers {
      var i :| 0 <= i < |g.promises[src].handlers| && g.promises[src].handlers[i] == rx;
      assert ReactionsWf(g.promises[src].handlers, BoundsOf(g));
    } else {
      var j :| 0 <= j < |g.tasks| && Drains(g.tasks[j], src, rx);
      assert TaskWf(g.tasks[j], g.promises, BoundsOf(g));
      var i :| 0 <= i < |g.tasks[j].handlers| && g.tasks[j].handlers[i] == rx;
    }
  }

  /** Both reactions of a `.then(onSuccess).catch(onFail)` pair that still
      waits are well formed. */
  lemma ChainsWf(g: Heap, q: nat, d: nat, onSuccess: Callback, onFail: Callback)
    requires Wf(g) && Chains(g, q, d, onSuccess, onFail)
    ensures q < |g.promises| && ReactionWf(Reaction(onSuccess, Rethrow, d), BoundsOf(g))
    ensures ReactionWf(Reaction(Identity, onFail, d + 1), BoundsOf(g))
  {
    WaitingWf(g, q, Reaction(onSuccess, Rethrow, d));
    WaitingWf(g, d, Reaction(Identity, onFail, d + 1));
  }

  /** Slot `j` of a join stays waiting in every later heap that keeps the
      reactions waiting. */
  lemma SlotWaits(m: Heap, g: Heap, ids: seq<nat>, base: nat, k: nat, p: nat, j: nat)
    requires Joins(m, ids, base, k, p) && KeepsWaiting(m, g) && j < |ids|
    ensures Chains(g, ids[j], base + 2 * j, AllSlot(k, j), RejectWith(p))
  {
    assert SlotJoined(m, ids, base, k, p, j);
    ChainsKept(m, g, ids[j], base + 2 * j, AllSlot(k, j), RejectWith(p));
  }

  /** Element `j` of a forEach stays forwarded in every later heap that
      keeps the reactions waiting. */
  lemma ItemWaits(m: Heap, g: Heap, items: seq<Value>, refs: seq<(nat, nat)>, onSuccess: Callback, onFail: Callback, j: nat)
    requires Forwards(m, items, refs, onSuccess, onFail) && KeepsWaiting(m, g) && j < |items|
    ensures j < |refs| && ResolvesTo(m, items[j], refs[j].0) && Chains(g, refs[j].0, refs[j].1, onSuccess, onFail)
  {
    assert ItemForwarded(m, items, refs, onSuccess, onFail, j);
    ChainsKept(m, g, refs[j].0, refs[j].1, onSuccess, onFail);
  }

  // ---------------------------------------------------------------------
  // P.race

  /** What firing race's two reactions for one element does, read in `g`:
      `q` fulfilled with a plain value fulfils race's promise `p` with it;
      `q` rejected rejects the derived `d` with the reason; `d` rejected
      rejects `p` with the reason. */
  ghost predicate RaceFirings(g: Heap, q: nat, d: nat, p: nat)
  {
    Wf(g) && q < |g.promises| &&
    ReactionWf(Reaction(ResolveWith(p), Rethrow, d), BoundsOf(g)) &&
    ReactionWf(Reaction(Identity, RejectWith(p), d + 1), BoundsOf(g)) &&
    (g.promises[q].state == Fulfilled && !g.promises[q].value.PromiseRef? && g.promises[p].state == Pending ==>
      var f := Fired(g, q, Reaction(ResolveWith(p), Rethrow, d));
      f.promises[p].state == Fulfilled && f.promises[p].value == g.promises[q].value) &&
    (g.promises[q].state == Rejected && !g.promises[q].value.PromiseRef? && g.promises[d].state == Pending ==>
      var f := Fired(g, q, Reaction(ResolveWith(p), Rethrow, d));
      f.promises[d].state == Rejected && f.promises[d].value == g.promises[q].value) &&
    (g.promises[d].state == Rejected && !g.promises[d].value.PromiseRef? && g.promises[p].state == Pending ==>
      var f := Fired(g, d, Reaction(Identity, RejectWith(p), d + 1));
      f.promises[p].state == Rejected && f.promises[p].value == g.promises[d].value)
  }

  /** race's reaction pair, wherever it waits, fires as `RaceFirings` says. */
  lemma RaceFires(g: Heap, q: nat, d: nat, p: nat)
    requires Wf(g) && Chains(g, q, d, ResolveWith(p), RejectWith(p)) && p < d
    ensures RaceFirings(g, q, d, p)
  {
    ChainsWf(g, q, d, ResolveWith(p), RejectWith(p));
    if g.promises[q].state == Fulfilled && !g.promises[q].value.PromiseRef? && g.promises[p].state == Pending {
      BoundFires(g, q, Reaction(ResolveWith(p), Rethrow, d));
    }
    if g.promises[q].state == Rejected && !g.promises[q].value.PromiseRef? && g.promises[d].state == Pending {
      RejectionSkipsSuccess(g, q, ResolveWith(p), d);
    }
    if g.promises[d].state == Rejected && !g.promises[d].value.PromiseRef? && g.promises[p].state == Pending {
      BoundFires(g, d, Reaction(Identity, RejectWith(p), d + 1));
    }
  }

  /** race's element `j` went through `P.resolve` to `q`; race's `resolve`
      waits on `q`, deriving `d`, and race's `reject` waits on `d`. Both
      derived promises are younger than race's promise. */
  lemma RaceWired(h: Heap, input: Value, j: nat, r: (Heap, nat, seq<(nat, nat)>), g: Heap)
    requires ArrayIn(h, input) && j < |input.items|
    requires r == RaceOf(h, input) && KeepsWaiting(r.0, g)
    ensures |r.2| == |input.items| && ResolvesTo(r.0, input.items[j], r.2[j].0)
    ensures Chains(g, r.2[j].0, r.2[j].1, ResolveWith(r.1), RejectWith(r.1)) && r.1 < r.2[j].1
  {
    var p := |h.promises|;
    var a := Started(h);
    var f := ForwardedAll(a, input.items, ResolveWith(p), RejectWith(p));
    assert r == (f.0, p, f.1);
    ForwardedAllWaits(a, input.items, ResolveWith(p), RejectWith(p));
    ItemWaits(f.0, g, input.items, f.1, ResolveWith(p), RejectWith(p), j);
  }

  /** race takes the first settlement: in any later heap where the call's
      reactions still wait, element `j` fulfilled with a plain value
      fulfils race's promise with it at once; rejected, it rejects the
      derived promise, whose own reaction then rejects race's promise with
      the same reason. */
  lemma RaceSettlesWithFirst(h: Heap, input: Value, j: nat, r: (Heap, nat, seq<(nat, nat)>), g: Heap)
    requires ArrayIn(h, input) && j < |input.items|
    requires r == RaceOf(h, input) && Wf(g) && KeepsWaiting(r.0, g)
    ensures |r.2| == |input.items| && ResolvesTo(r.0, input.items[j], r.2[j].0)
    ensures RaceFirings(g, r.2[j].0, r.2[j].1, r.1)
  {
    RaceWired(h, input, j, r, g);
    RaceFires(g, r.2[j].0, r.2[j].1, r.1);
  }

  // ---------------------------------------------------------------------
  // P.any

  /** What firing any's two reactions for one element does, read in `g`:
      `q` fulfilled with a plain value fulfils any's promise `p` with it;
      `q` rejected rejects the derived `d`; `d` rejected counts one
      rejection in the table entry `k` (while that entry names `p`), which
      rejects `p` with the AggregateError on the last one and changes no
      other promise before that. */
  ghost predicate AnyFirings(g: Heap, q: nat, d: nat, k: nat, p: nat)
  {
    Wf(g) && q < |g.promises| &&
    ReactionWf(Reaction(ResolveWith(p), Rethrow, d), BoundsOf(g)) &&
    ReactionWf(Reaction(Identity, AnyFail(k), d + 1), BoundsOf(g)) &&
    (g.promises[q].state == Fulfilled && !g.promises[q].value.PromiseRef? && g.promises[p].state == Pending ==>
      var f := Fired(g, q, Reaction(ResolveWith(p), Rethrow, d));
      f.promises[p].state == Fulfilled && f.promises[p].value == g.promises[q].value) &&
    (g.promises[q].state == Rejected && !g.promises[q].value.PromiseRef? && g.promises[d].state == Pending ==>
      var f := Fired(g, q, Reaction(ResolveWith(p), Rethrow, d));
      f.promises[d].state == Rejected && f.promises[d].value == g.promises[q].value) &&
    AnyCounts(g, d, k, p)
  }

  /** The second half of `AnyFirings`: `d` rejected counts one rejection in
      the table entry `k`, while that entry names any's promise `p`. */
  ghost predicate AnyCounts(g: Heap, d: nat, k: nat, p: nat)
    requires Wf(g) && ReactionWf(Reaction(Identity, AnyFail(k), d + 1), BoundsOf(g))
  {
    g.promises[d].state == Rejected && g.anys[k].target == p ==>
      var f := Fired(g, d, Reaction(Identity, AnyFail(k), d + 1));
      var a := AnyRecordRejection(g.anys[k]);
      f.anys[k] == a &&
      (!AnyExhausted(a) ==> KeepsOthers(g.promises, f.promises, d + 1)) &&
      (AnyExhausted(a) && g.promises[p].state == Pending ==>
        f.promises[p].state == Rejected && f.promises[p].value == NewAggregateError(AllRejectedMessage))
  }

  /** any's rejection counter, wherever it waits, counts as `AnyCounts`
      says. */
  lemma AnyCountFires(g: Heap, d: nat, k: nat, p: nat)
    requires Wf(g) && ReactionWf(Reaction(Identity, AnyFail(k), d + 1), BoundsOf(g)) && p < d
    ensures AnyCounts(g, d, k, p)
  {
    if g.promises[d].state == Rejected && g.anys[k].target == p {
      AnyFailFires(g, d, k, d + 1);
    }
  }

  /** any's reaction pair, wherever it waits, fires as `AnyFirings` says. */
  lemma AnyFires(g: Heap, q: nat, d: nat, k: nat, p: nat)
    requires Wf(g) && Chains(g, q, d, ResolveWith(p), AnyFail(k)) && p < d
    ensures AnyFirings(g, q, d, k, p)
  {
    ChainsWf(g, q, d, ResolveWith(p), AnyFail(k));
    if g.promises[q].state == Fulfilled && !g.promises[q].value.PromiseRef? && g.promises[p].state == Pending {
      AnyFulfilsWithFirst(g, q, d, p);
    }
    if g.promises[q].state == Rejected && !g.promises[q].value.PromiseRef? && g.promises[d].state == Pending {
      RejectionSkipsSuccess(g, q, ResolveWith(p), d);
    }
    AnyCountFires(g, d, k, p);
  }

  /** any's element `j` went through `P.resolve` to `q`; any's `resolve`
      waits on `q`, deriving `d`, and the rejection counter of this call
      (the entry `|h.anys|` of the table) waits on `d`. */
  lemma AnyWired(h: Heap, input: Value, j: nat, r: (Heap, nat, seq<(nat, nat)>), g: Heap)
    requires ArrayIn(h, input) && j < |input.items|
    requires r == AnyOf(h, input) && KeepsWaiting(r.0, g)
    ensures |r.2| == |input.items| && ResolvesTo(r.0, input.items[j], r.2[j].0)
    ensures r.0.anys[|h.anys|] == AnyStart(r.1, |input.items|)
    ensures Chains(g, r.2[j].0, r.2[j].1, ResolveWith(r.1), AnyFail(|h.anys|)) && r.1 < r.2[j].1
  {
    var p := |h.promises|;
    var b := AnyStarted(h, |input.items|);
    var f := ForwardedAll(b, input.items, ResolveWith(p), AnyFail(|h.anys|));
    assert r == (f.0, p, f.1);
    ForwardedAllWaits(b, input.items, ResolveWith(p), AnyFail(|h.anys|));
    ItemWaits(f.0, g, input.items, f.1, ResolveWith(p), AnyFail(|h.anys|), j);
  }

  /** any fulfils with the first fulfilment and counts rejections: in any
      later heap where the call's reactions still wait, element `j` fires
      as `AnyFirings` says, on the table entry the call appended. */
  lemma AnyFulfilsOrCounts(h: Heap, input: Value, j: nat, r: (Heap, nat, seq<(nat, nat)>), g: Heap)
    requires ArrayIn(h, input) && j < |input.items|
    requires r == AnyOf(h, input) && Wf(g) && KeepsWaiting(r.0, g)
    ensures |r.2| == |input.items| && ResolvesTo(r.0, input.items[j], r.2[j].0)
    ensures r.0.anys[|h.anys|] == AnyStart(r.1, |input.items|)
    ensures AnyFirings(g, r.2[j].0, r.2[j].1, |h.anys|, r.1)
  {
    AnyWired(h, input, j, r, g);
    AnyFires(g, r.2[j].0, r.2[j].1, |h.anys|, r.1);
  }

  // ---------------------------------------------------------------------
  // P.all

  /** What firing all's two reactions for element `j` does, read in `g`:
      `q` fulfilled records its value in slot `j` of the table entry `k`
      (while that entry names all's promise `p`), fulfilling `p` with the
      dense results once every element has reported and leaving it alone
      before that; `q` rejected rejects the derived `d`; `d` rejected
      rejects `p` with the reason. */
  ghost predicate AllFirings(g: Heap, q: nat, d: nat, k: nat, j: nat, p: nat)
  {
    Wf(g) && q < |g.promises| &&
    ReactionWf(Reaction(AllSlot(k, j), Rethrow, d), BoundsOf(g)) &&
    ReactionWf(Reaction(Identity, RejectWith(p), d + 1), BoundsOf(g)) &&
    SlotRecords(g, q, d, k, j, p) && SlotRejects(g, q, d, k, j) && RejectionReaches(g, d, p)
  }

  /** `q` fulfilled records its value in slot `j`, and fulfils `p` with the
      dense results once every element has reported; a pending `d` is
      fulfilled with `undefined`. */
  ghost predicate SlotRecords(g: Heap, q: nat, d: nat, k: nat, j: nat, p: nat)
    requires Wf(g) && q < |g.promises| && ReactionWf(Reaction(AllSlot(k, j), Rethrow, d), BoundsOf(g))
  {
    g.promises[q].state == Fulfilled && g.alls[k].target == p ==>
      var f := Fired(g, q, Reaction(AllSlot(k, j), Rethrow, d));
      var a := AllRecord(g.alls[k], j, g.promises[q].value);
      f.alls[k] == a &&
      (!AllComplete(a) ==>
        f.promises[p].state == g.promises[p].state && f.promises[p].value == g.promises[p].value) &&
      (AllComplete(a) && g.promises[p].state == Pending ==>
        f.promises[p].state == Fulfilled && f.promises[p].value == Array(Densify(a.results, a.length))) &&
      (g.promises[d].state == Pending ==> f.promises[d].state == Fulfilled && f.promises[d].value == Undef)
  }

  /** `q` rejected rejects the derived `d` with the reason. */
  ghost predicate SlotRejects(g: Heap, q: nat, d: nat, k: nat, j: nat)
    requires Wf(g) && q < |g.promises| && ReactionWf(Reaction(AllSlot(k, j), Rethrow, d), BoundsOf(g))
  {
    g.promises[q].state == Rejected && !g.promises[q].value.PromiseRef? && g.promises[d].state == Pending ==>
      var f := Fired(g, q, Reaction(AllSlot(k, j), Rethrow, d));
      f.promises[d].state == Rejected && f.promises[d].value == g.promises[q].value
  }

  /** `d` rejected rejects all's promise `p` with the reason. */
  ghost predicate RejectionReaches(g: Heap, d: nat, p: nat)
    requires Wf(g) && ReactionWf(Reaction(Identity, RejectWith(p), d + 1), BoundsOf(g))
  {
    g.promises[d].state == Rejected && !g.promises[d].value.PromiseRef? && g.promises[p].state == Pending ==>
      var f := Fired(g, d, Reaction(Identity, RejectWith(p), d + 1));
      f.promises[p].state == Rejected && f.promises[p].value == g.promises[d].value
  }

  /** all's reaction pair for slot `j`, wherever it waits, fires as
      `AllFirings` says. */
  lemma AllFires(g: Heap, q: nat, d: nat, k: nat, j: nat, p: nat)
    requires Wf(g) && Chains(g, q, d, AllSlot(k, j), RejectWith(p)) && p < d
    ensures AllFirings(g, q, d, k, j, p)
  {
    ChainsWf(g, q, d, AllSlot(k, j), RejectWith(p));
    if g.promises[q].state == Fulfilled && g.alls[k].target == p {
      AllSlotFires(g, q, k, j, d);
    }
    if g.promises[q].state == Rejected && !g.promises[q].value.PromiseRef? && g.promises[d].state == Pending {
      RejectionSkipsSuccess(g, q, AllSlot(k, j), d);
    }
    if g.promises[d].state == Rejected && !g.promises[d].value.PromiseRef? && g.promises[p].state == Pending {
      BoundFires(g, d, Reaction(Identity, RejectWith(p), d + 1));
    }
  }

  /** The id of element `j` of elements that are all instances. */
  lemma IdAt(items: seq<Value>, count: nat, j: nat)
    requires Instances(items, count) && j < |items|
    ensures items[j].PromiseRef? && Ids(items, count)[j] == items[j].id
  {
  }

  /** Slot `j` of all's join, read in the heap all leaves. */
  lemma AllSlotJoined(h: Heap, input: Value, j: nat, r: (Heap, nat))
    requires ArrayIn(h, input) && j < |input.items|
    requires Instances(input.items, |h.promises|)
    requires r == AllOf(h, input)
    ensures Chains(r.0, Ids(input.items, |h.promises|)[j], r.1 + 1 + 2 * j, AllSlot(|h.alls|, j), RejectWith(r.1))
  {
    AllWaits(h, input);
    assert SlotJoined(r.0, Ids(input.items, |h.promises|), r.1 + 1, |h.alls|, r.1, j);
  }

  /** all's element `j`, an instance, carries the slot callback of index
      `j` of the table entry the call appended, deriving a promise that
      carries all's `reject`. */
  lemma AllWired(h: Heap, input: Value, j: nat, r: (Heap, nat))
    requires ArrayIn(h, input) && j < |input.items|
    requires Instances(input.items, |h.promises|)
    requires r == AllOf(h, input)
    ensures r.0.alls[|h.alls|] == AllStart(r.1, |input.items|) && r.0.promises[r.1].state == Pending
    ensures input.items[j].PromiseRef? &&
      Chains(r.0, input.items[j].id, r.1 + 1 + 2 * j, AllSlot(|h.alls|, j), RejectWith(r.1))
  {
    AllSlotJoined(h, input, j, r);
    IdAt(input.items, |h.promises|, j);
  }

  /** all records each fulfilment in its slot and rejects on the first
      rejection: in any later heap where the call's reactions still wait,
      element `j`, an instance, fires as `AllFirings` says on the table
      entry the call appended. */
  lemma AllRecordsOrRejects(h: Heap, input: Value, j: nat, r: (Heap, nat), g: Heap)
    requires ArrayIn(h, input) && j < |input.items|
    requires Instances(input.items, |h.promises|)
    requires r == AllOf(h, input) && StillWaiting(r.0, g)
    ensures input.items[j].PromiseRef? && AllFirings(g, input.items[j].id, r.1 + 1 + 2 * j, |h.alls|, j, r.1)
  {
    AllWired(h, input, j, r);
    CarriedSlotFires(r.0, g, input.items[j].id, r.1 + 1 + 2 * j, |h.alls|, j, r.1);
  }

  // ---------------------------------------------------------------------
  // P.allSettled

  /** What firing allSettled's two record builders for one element does,
      read in `g`: `q` fulfilled with `v` fulfils the derived `d` with
      `{status: 'fulfilled', value: v}`; `q` rejected rejects `d` with the
      reason; `d` fulfilled passes its value on to `d + 1`; `d` rejected
      with `e` fulfils `d + 1` with `{status: 'rejected', reason: e}`. So
      `d + 1` is always fulfilled, with the record of `q`'s settlement. */
  ghost predicate SettledFirings(g: Heap, q: nat, d: nat)
  {
    Wf(g) && q < |g.promises| &&
    ReactionWf(Reaction(Record(Fulfilled), Rethrow, d), BoundsOf(g)) &&
    ReactionWf(Reaction(Identity, Record(Rejected), d + 1), BoundsOf(g)) &&
    (g.promises[q].state == Fulfilled && !g.promises[q].value.PromiseRef? && g.promises[d].state == Pending ==>
      var f := Fired(g, q, Reaction(Record(Fulfilled), Rethrow, d));
      f.promises[d].state == Fulfilled && f.promises[d].value == SettledRecord(Fulfilled, g.promises[q].value)) &&
    (g.promises[q].state == Rejected && !g.promises[q].value.PromiseRef? && g.promises[d].state == Pending ==>
      var f := Fired(g, q, Reaction(Record(Fulfilled), Rethrow, d));
      f.promises[d].state == Rejected && f.promises[d].value == g.promises[q].value) &&
    (g.promises[d].state == Fulfilled && !g.promises[d].value.PromiseRef? && g.promises[d + 1].state == Pending ==>
      var f := Fired(g, d, Reaction(Identity, Record(Rejected), d + 1));
      f.promises[d + 1].state == Fulfilled && f.promises[d + 1].value == g.promises[d].value) &&
    (g.promises[d].state == Rejected && !g.promises[d].value.PromiseRef? && g.promises[d + 1].state == Pending ==>
      var f := Fired(g, d, Reaction(Identity, Record(Rejected), d + 1));
      f.promises[d + 1].state == Fulfilled && f.promises[d + 1].value == SettledRecord(Rejected, g.promises[d].value))
  }

  /** allSettled's record builders, wherever they wait, fire as
      `SettledFirings` says. */
  lemma SettledFires(g: Heap, q: nat, d: nat)
    requires Wf(g) && Chains(g, q, d, Record(Fulfilled), Record(Rejected))
    ensures SettledFirings(g, q, d)
  {
    ChainsWf(g, q, d, Record(Fulfilled), Record(Rejected));
    if g.promises[q].state != Pending && !g.promises[q].value.PromiseRef? && g.promises[d].state == Pending {
      PureBranchSettles(g, q, Reaction(Record(Fulfilled), Rethrow, d));
    }
    if g.promises[d].state != Pending && !g.promises[d].value.PromiseRef? && g.promises[d + 1].state == Pending {
      PureBranchSettles(g, d, Reaction(Identity, Record(Rejected), d + 1));
    }
  }

  /** allSettled's element `j`, read in the heap allSettled leaves. */
  lemma AllSettledItem(h: Heap, input: Value, j: nat, r: (Heap, nat, seq<(nat, nat)>))
    requires ArrayIn(h, input) && j < |input.items|
    requires r == AllSettledOf(h, input)
    ensures j < |r.2| && ResolvesTo(r.0, input.items[j], r.2[j].0)
    ensures Chains(r.0, r.2[j].0, r.2[j].1, Record(Fulfilled), Record(Rejected))
  {
    AllSettledForwards(h, input, r);
    assert ItemForwarded(r.0, input.items, r.2, Record(Fulfilled), Record(Rejected), j);
  }

  /** allSettled maps every element to its record promise and returns
      `P.all` of the mapped array, on the heap the map leaves: the record
      promises are instances, so `AllWired` and `AllRecordsOrRejects`
      describe how that inner call collects the records. */
  lemma AllSettledIsAll(h: Heap, input: Value)
    requires ArrayIn(h, input)
    ensures var f := Recorded(h, input.items);
      var a := AllOf(f.0, Array(CatchRefs(f.1)));
      AllSettledOf(h, input) == (a.0, a.1, f.1) && f.0.alls == h.alls &&
      ArrayIn(f.0, Array(CatchRefs(f.1))) && Instances(CatchRefs(f.1), |f.0.promises|)
  {
  }

  /** allSettled's record builders, carried from `m` into the later heap
      `g`, fire there as `SettledFirings` says. */
  lemma CarriedRecordFires(m: Heap, g: Heap, q: nat, d: nat)
    requires Chains(m, q, d, Record(Fulfilled), Record(Rejected)) && StillWaiting(m, g)
    ensures SettledFirings(g, q, d)
  {
    ChainsKept(m, g, q, d, Record(Fulfilled), Record(Rejected));
    SettledFires(g, q, d);
  }

  /** allSettled turns every settlement into a fulfilment with its record:
      in any later heap where the call's reactions still wait, element
      `j`'s record builders fire as `SettledFirings` says, so the promise
      they derive, element `j` of the array the inner `P.all` joins, is
      fulfilled with the record of element `j`'s settlement. */
  lemma AllSettledRecords(h: Heap, input: Value, j: nat, r: (Heap, nat, seq<(nat, nat)>), g: Heap)
    requires ArrayIn(h, input) && j < |input.items|
    requires r == AllSettledOf(h, input) && StillWaiting(r.0, g)
    ensures |r.2| == |input.items| && ResolvesTo(r.0, input.items[j], r.2[j].0)
    ensures SettledFirings(g, r.2[j].0, r.2[j].1)
  {
    AllSettledItem(h, input, j, r);
    CarriedRecordFires(r.0, g, r.2[j].0, r.2[j].1);
  }

  /** A slot pair of all's join, carried from `m` into the later heap `g`,
      fires there as `AllFirings` says. */
  lemma CarriedSlotFires(m: Heap, g: Heap, q: nat, d: nat, k: nat, j: nat, p: nat)
    requires Chains(m, q, d, AllSlot(k, j), RejectWith(p)) && StillWaiting(m, g) && p < d
    ensures AllFirings(g, q, d, k, j, p)
  {
    ChainsKept(m, g, q, d, AllSlot(k, j), RejectWith(p));
    AllFires(g, q, d, k, j, p);
  }

  // ---------------------------------------------------------------------
  // all's table entry across a run
  //
  // The entry a `P.all` call appends holds what its slot callbacks have
  // recorded so far. `Tallies` ties it to the observations that produced
  // it: the call starts it empty, a step that leaves it alone keeps it, and
  // the slot callback of an element not yet observed adds that element.
  // Once every element has reported, all's promise holds their values in
  // index order.

  /** Observation `o` is true of `g`: slot `o.0` names one of the elements
      `ids`, and that element is fulfilled in `g` with the value `o.1`. */
  ghost predicate Observed(g: Heap, ids: seq<nat>, o: (nat, Value))
  {
    o.0 < |ids| && ids[o.0] < |g.promises| &&
    g.promises[ids[o.0]].state == Fulfilled && g.promises[ids[o.0]].value == o.1
  }

  /** The table entry `k` of a `P.all` call on the elements `ids`, whose
      promise is `p`, is the fresh entry with the observations `obs`
      recorded one after the other; no slot is observed twice and every
      observation is true of `g`. */
  ghost predicate Tallies(g: Heap, k: nat, p: nat, ids: seq<nat>, obs: seq<(nat, Value)>)
  {
    k < |g.alls| && g.alls[k] == AllReplay(AllStart(p, |ids|), obs) && DistinctIndices(obs) &&
    forall m | 0 <= m < |obs| :: Observed(g, ids, obs[m])
  }

  /** `v` is the array of the values the elements `ids` are fulfilled with
      in `g`, in index order. */
  ghost predicate ValuesInOrder(g: Heap, ids: seq<nat>, v: Value)
  {
    v.Array? && |v.items| == |ids| &&
    forall i | 0 <= i < |ids| :: Observed(g, ids, (i, v.items[i]))
  }

  /** A tallied entry names all's promise `p`, has the input's length and
      counts one callback per observation. */
  lemma TallyNamesTarget(g: Heap, k: nat, p: nat, ids: seq<nat>, obs: seq<(nat, Value)>)
    requires Tallies(g, k, p, ids, obs)
    ensures g.alls[k].target == p && g.alls[k].length == |ids| && g.alls[k].count == |obs|
    ensures g.alls[k].results.Keys == Indices(obs)
  {
    AllReplayRecords(p, |ids|, obs);
  }

  /** A step that leaves the entry alone keeps the tally: the elements
      observed stay fulfilled with the same values. */
  lemma TalliesKept(g: Heap, g2: Heap, k: nat, p: nat, ids: seq<nat>, obs: seq<(nat, Value)>)
    requires Tallies(g, k, p, ids, obs) && Extends(g, g2) && k < |g2.alls| && g2.alls[k] == g.alls[k]
    ensures Tallies(g2, k, p, ids, obs)
  {
    forall m | 0 <= m < |obs|
      ensures Observed(g2, ids, obs[m])
    {
      assert Observed(g, ids, obs[m]);
    }
  }

  /** What the slot callback of element `j` does to a tallied entry, read
      in `g`: the tally gains the observation of slot `j`; the entry is
      complete exactly when every slot has been observed; before that all's
      promise `p` stays as it was, and on completion a pending `p` is
      fulfilled with the elements' values in index order. */
  ghost predicate TallyAdvances(g: Heap, k: nat, p: nat, ids: seq<nat>, obs: seq<(nat, Value)>, j: nat, d: nat)
  {
    Wf(g) && j < |ids| && ids[j] < |g.promises| &&
    ReactionWf(Reaction(AllSlot(k, j), Rethrow, d), BoundsOf(g)) && SlotTallied(g, k, p, ids, obs, j, d)
  }

  /** The heap after the slot callback of element `j` fires in `g` is as
      `TallyFired` says. */
  ghost predicate SlotTallied(g: Heap, k: nat, p: nat, ids: seq<nat>, obs: seq<(nat, Value)>, j: nat, d: nat)
    requires Wf(g) && j < |ids| && ids[j] < |g.promises| && ReactionWf(Reaction(AllSlot(k, j), Rethrow, d), BoundsOf(g))
  {
    TallyFired(g, Fired(g, ids[j], Reaction(AllSlot(k, j), Rethrow, d)), k, p, ids, obs + [(j, g.promises[ids[j]].value)])
  }

  /** `f`, a heap after `g`, tallies `next`; its entry is complete exactly
      when every slot has been observed; before that all's promise `p`
      stays as it was in `g`, and on completion a `p` pending in `g` is
      fulfilled with the elements' values in index order. */
  ghost predicate TallyFired(g: Heap, f: Heap, k: nat, p: nat, ids: seq<nat>, next: seq<(nat, Value)>)
  {
    Tallies(f, k, p, ids, next) && p < |g.promises| <= |f.promises| &&
    (AllComplete(f.alls[k]) <==> Indices(next) == Range(|ids|)) &&
    (!AllComplete(f.alls[k]) ==>
      f.promises[p].state == g.promises[p].state && f.promises[p].value == g.promises[p].value) &&
    (AllComplete(f.alls[k]) && g.promises[p].state == Pending ==>
      f.promises[p].state == Fulfilled && ValuesInOrder(f, ids, f.promises[p].value))
  }

  /** The slot callback of an element not yet observed, fired on its
      fulfilment, advances the tally as `TallyAdvances` says. */
  lemma TallyStep(g: Heap, k: nat, p: nat, ids: seq<nat>, obs: seq<(nat, Value)>, j: nat, d: nat)
    requires Wf(g) && Tallies(g, k, p, ids, obs) && j < |ids| && j !in Indices(obs)
    requires ids[j] < |g.promises| && g.promises[ids[j]].state == Fulfilled
    requires ReactionWf(Reaction(AllSlot(k, j), Rethrow, d), BoundsOf(g)) && d != p
    ensures TallyAdvances(g, k, p, ids, obs, j, d)
  {
    var q := ids[j];
    var next := obs + [(j, g.promises[q].value)];
    TallyNamesTarget(g, k, p, ids, obs);
    assert p < |g.promises| by {
      assert BoundsOf(g).alls == |g.alls|;
    }
    AllSlotFires(g, q, k, j, d);
    var f := Fired(g, q, Reaction(AllSlot(k, j), Rethrow, d));
    assert next[..|next| - 1] == obs;
    assert f.alls[k] == AllReplay(AllStart(p, |ids|), next);
    assert DistinctIndices(next) by {
      forall m | 0 <= m < |obs|
        ensures obs[m].0 != j
      {
        assert obs[m].0 in Indices(obs);
      }
    }
    forall m | 0 <= m < |next|
      ensures Observed(f, ids, next[m])
    {
      if m < |obs| {
        assert Observed(g, ids, obs[m]);
      }
    }
    assert forall m | 0 <= m < |next| :: next[m].0 < |ids| by {
      forall m | 0 <= m < |next|
        ensures next[m].0 < |ids|
      {
        assert Observed(f, ids, next[m]);
      }
    }
    AllCompletesInIndexOrder(p, |ids|, next);
    if AllComplete(f.alls[k]) && g.promises[p].state == Pending {
      var a := f.alls[k];
      var v := f.promises[p].value;
      forall i | 0 <= i < |ids|
        ensures Observed(f, ids, (i, v.items[i]))
      {
        assert i in Indices(next);
        var m :| 0 <= m < |next| && next[m].0 == i;
        assert Observed(f, ids, next[m]);
      }
    }
  }

  /** Only all's own slot callbacks write to its entry: a callback that is
      not a slot callback of entry `k` leaves that entry alone. */
  lemma CalledKeepsEntry(h: Heap, cb: Callback, v: Value, k: nat)
    requires Wf(h) && CallbackWf(cb, BoundsOf(h)) && k < |h.alls|
    requires !(cb.AllSlot? && cb.agg == k)
    ensures k < |Called(h, cb, v).0.alls| && Called(h, cb, v).0.alls[k] == h.alls[k]
  {
    match cb
    case ResolveWith(t) => ResolvedWf(h, t, Fulfilled, v);
    case RejectWith(t) => ResolvedWf(h, t, Rejected, v);
    case AllSlot(other, index) => SlotFilledWf(h, other, index, v);
    case AnyFail(other) => RejectionCountedWf(h, other);
    case FinallyRun(c, failed) =>
      if c.Return? {
        var s := StaticResolved(h, c.result);
        SubscribedWf(s.0, s.1, Reaction(FinallyPass(v, failed), Rethrow, |s.0.promises|));
      }
    case FinallyPass(result, failed) =>
      if failed {
        AllocatedWf(h);
        ResolvedWf(Allocated(h), |h.promises|, Rejected, result);
      }
    case _ =>
  }

  /** Firing a reaction whose chosen callback is not a slot callback of
      entry `k` leaves that entry alone, so it keeps every tally of it
      (`TalliesKept`). */
  lemma FiredKeepsEntry(g: Heap, src: nat, rx: Reaction, k: nat)
    requires Wf(g) && src < |g.promises| && ReactionWf(rx, BoundsOf(g)) && k < |g.alls|
    requires !(Branch(g.promises[src], rx).AllSlot? && Branch(g.promises[src], rx).agg == k)
    ensures Fired(g, src, rx).alls[k] == g.alls[k]
  {
    var p := g.promises[src];
    var cb := Branch(p, rx);
    var h1 := g.(fired := g.fired + [Firing(src, cb, p.value, rx.derived)]);
    assert Wf(h1) by {
      assert BoundsOf(h1) == BoundsOf(g);
    }
    CalledKeepsEntry(h1, cb, p.value, k);
    CalledWf(h1, cb, p.value);
    var c := Called(h1, cb, p.value);
    FedWf(c.0, rx.derived, c.1);
  }

  /** The call starts its table entry with nothing observed. */
  lemma AllTallyStarts(h: Heap, input: Value, r: (Heap, nat))
    requires ArrayIn(h, input) && input.items != [] && Instances(input.items, |h.promises|)
    requires r == AllOf(h, input)
    ensures Tallies(r.0, |h.alls|, r.1, Ids(input.items, |h.promises|), [])
  {
    AllWired(h, input, 0, r);
  }

  /** The entry is tallied and element `j`, not yet observed, is fulfilled
      in `g`: its slot callback is the next to fire. */
  ghost predicate TallyOpen(g: Heap, k: nat, p: nat, ids: seq<nat>, obs: seq<(nat, Value)>, j: nat)
  {
    Tallies(g, k, p, ids, obs) && j !in Indices(obs) &&
    j < |ids| && ids[j] < |g.promises| && g.promises[ids[j]].state == Fulfilled
  }

  /** all fulfils with the values in index order: in any later heap where
      the call's reactions still wait and its entry is tallied, the slot
      callback of a fulfilled element not yet observed advances the tally
      as `TallyAdvances` says, on the entry the call appended. */
  lemma AllFulfilsInIndexOrder(h: Heap, input: Value, j: nat, r: (Heap, nat), g: Heap, obs: seq<(nat, Value)>)
    requires ArrayIn(h, input) && j < |input.items| && Instances(input.items, |h.promises|)
    requires r == AllOf(h, input) && StillWaiting(r.0, g)
    requires TallyOpen(g, |h.alls|, r.1, Ids(input.items, |h.promises|), obs, j)
    ensures TallyAdvances(g, |h.alls|, r.1, Ids(input.items, |h.promises|), obs, j, r.1 + 1 + 2 * j)
  {
    var ids := Ids(input.items, |h.promises|);
    var d := r.1 + 1 + 2 * j;
    AllSlotJoined(h, input, j, r);
    assert Chains(r.0, ids[j], d, AllSlot(|h.alls|, j), RejectWith(r.1));
    assert TallyOpen(g, |h.alls|, r.1, ids, obs, j);
    CarriedTallyStep(r.0, g, ids, |h.alls|, r.1, obs, j, d);
  }

  /** A slot pair of all's join, carried from `m` into the later heap `g`,
      advances a tally there as `TallyAdvances` says. */
  lemma CarriedTallyStep(m: Heap, g: Heap, ids: seq<nat>, k: nat, p: nat, obs: seq<(nat, Value)>, j: nat, d: nat)
    requires j < |ids| && Chains(m, ids[j], d, AllSlot(k, j), RejectWith(p)) && StillWaiting(m, g) && p < d
    requires TallyOpen(g, k, p, ids, obs, j)
    ensures TallyAdvances(g, k, p, ids, obs, j, d)
  {
    ChainsKept(m, g, ids[j], d, AllSlot(k, j), RejectWith(p));
    ChainsWf(g, ids[j], d, AllSlot(k, j), RejectWith(p));
    TallyStep(g, k, p, ids, obs, j, d);
  }

  // ---------------------------------------------------------------------
  // any's table entry across a run
  //
  // The entry a `P.any` call appends counts rejections. `Counts` ties the
  // count to the set of elements whose rejection has been counted: the
  // call starts with none, and the rejection counter of an element not yet
  // counted adds that element. any gives up exactly when every element has
  // been counted.

  /** The promise element `i` of a forEach derived (`refs[i].1`) is
      rejected in `g`. */
  ghost predicate Refused(g: Heap, refs: seq<(nat, nat)>, i: nat)
  {
    i < |refs| && refs[i].1 < |g.promises| && g.promises[refs[i].1].state == Rejected
  }

  /** The table entry `k` of a `P.any` call whose promise is `p` and whose
      elements derived `refs` has counted once for each element in `seen`,
      and each of those elements' derived promise is rejected in `g`. */
  ghost predicate Counts(g: Heap, k: nat, p: nat, refs: seq<(nat, nat)>, seen: set<nat>)
  {
    k < |g.anys| && g.anys[k] == AnyReplay(AnyStart(p, |refs|), |seen|) &&
    forall i | i in seen :: Refused(g, refs, i)
  }

  /** A step that leaves the entry alone keeps the count: rejections are
      final. */
  lemma CountsKept(g: Heap, g2: Heap, k: nat, p: nat, refs: seq<(nat, nat)>, seen: set<nat>)
    requires Counts(g, k, p, refs, seen) && Extends(g, g2) && k < |g2.anys| && g2.anys[k] == g.anys[k]
    ensures Counts(g2, k, p, refs, seen)
  {
    forall i | i in seen
      ensures Refused(g2, refs, i)
    {
      assert Refused(g, refs, i);
    }
  }

  /** What the rejection counter of element `j` does to a counted entry,
      read in `g`: the count gains element `j`; any gives up exactly when
      every element has been counted; before that no promise but the one
      the counter derives changes, and on giving up a pending promise `p`
      is rejected with the AggregateError. */
  ghost predicate CountAdvances(g: Heap, k: nat, p: nat, refs: seq<(nat, nat)>, seen: set<nat>, j: nat)
  {
    Wf(g) && j < |refs| && refs[j].1 < |g.promises| &&
    ReactionWf(Reaction(Identity, AnyFail(k), refs[j].1 + 1), BoundsOf(g)) && CounterCounted(g, k, p, refs, seen, j)
  }

  /** The heap after the rejection counter of element `j` fires in `g` is
      as `CountFired` says. */
  ghost predicate CounterCounted(g: Heap, k: nat, p: nat, refs: seq<(nat, nat)>, seen: set<nat>, j: nat)
    requires Wf(g) && j < |refs| && refs[j].1 < |g.promises|
    requires ReactionWf(Reaction(Identity, AnyFail(k), refs[j].1 + 1), BoundsOf(g))
  {
    CountFired(g, Fired(g, refs[j].1, Reaction(Identity, AnyFail(k), refs[j].1 + 1)), k, p, refs, seen + {j}, refs[j].1 + 1)
  }

  /** `f`, a heap after `g`, counts `next`; the entry is exhausted exactly
      when every element is counted; before that only `e` may change, and
      on exhaustion a promise `p` pending in `g` is rejected with the
      AggregateError. */
  ghost predicate CountFired(g: Heap, f: Heap, k: nat, p: nat, refs: seq<(nat, nat)>, next: set<nat>, e: nat)
  {
    Counts(f, k, p, refs, next) && p < |g.promises| <= |f.promises| &&
    (AnyExhausted(f.anys[k]) <==> next == Range(|refs|)) &&
    (!AnyExhausted(f.anys[k]) ==> KeepsOthers(g.promises, f.promises, e)) &&
    (AnyExhausted(f.anys[k]) && g.promises[p].state == Pending ==>
      f.promises[p].state == Rejected && f.promises[p].value == NewAggregateError(AllRejectedMessage))
  }

  /** A set of indices below `n` has `n` elements exactly when it is all of
      them. */
  lemma FullExactlyWhenAll(s: set<nat>, n: nat)
    requires forall i | i in s :: i < n
    ensures |s| == n <==> s == Range(n)
  {
    RangeCard(n);
    assert s <= Range(n);
    if |s| == n {
      SubsetOfSameSize(s, Range(n));
    }
  }

  /** The rejection counter of an element not yet counted, fired on its
      derived promise's rejection, advances the count as `CountAdvances`
      says. */
  lemma CountStep(g: Heap, k: nat, p: nat, refs: seq<(nat, nat)>, seen: set<nat>, j: nat)
    requires Wf(g) && Counts(g, k, p, refs, seen) && j !in seen && Refused(g, refs, j)
    requires ReactionWf(Reaction(Identity, AnyFail(k), refs[j].1 + 1), BoundsOf(g)) && p < refs[j].1
    ensures CountAdvances(g, k, p, refs, seen, j)
  {
    var d := refs[j].1;
    var next := seen + {j};
    AnyExhaustedExactly(p, |refs|, |seen|);
    AnyExhaustedExactly(p, |refs|, |next|);
    AnyCountFires(g, d, k, p);
    var f := Fired(g, d, Reaction(Identity, AnyFail(k), d + 1));
    assert f.anys[k] == AnyReplay(AnyStart(p, |refs|), |next|);
    forall i | i in next
      ensures Refused(f, refs, i)
    {
      assert Refused(g, refs, i);
    }
    FullExactlyWhenAll(next, |refs|);
  }

  /** The call starts its table entry with no rejection counted. */
  lemma AnyCountStarts(h: Heap, input: Value, r: (Heap, nat, seq<(nat, nat)>))
    requires ArrayIn(h, input) && input.items != []
    requires r == AnyOf(h, input)
    ensures Counts(r.0, |h.anys|, r.1, r.2, {})
  {
  }

  /** The count is open at element `j`: the entry is counted, element `j`
      is not yet counted, and its derived promise is rejected in `g`. */
  ghost predicate CountOpen(g: Heap, k: nat, p: nat, refs: seq<(nat, nat)>, seen: set<nat>, j: nat)
  {
    Counts(g, k, p, refs, seen) && j !in seen && Refused(g, refs, j)
  }

  /** any gives up on the last rejection and not before: in any later heap
      where the call's reactions still wait and its entry is counted, the
      rejection counter of an element whose derived promise is rejected
      and which is not yet counted advances the count as `CountAdvances`
      says, on the entry the call appended. */
  lemma AnyGivesUpOnLast(h: Heap, input: Value, j: nat, r: (Heap, nat, seq<(nat, nat)>), g: Heap, seen: set<nat>)
    requires ArrayIn(h, input) && j < |input.items|
    requires r == AnyOf(h, input) && StillWaiting(r.0, g)
    requires CountOpen(g, |h.anys|, r.1, r.2, seen, j)
    ensures CountAdvances(g, |h.anys|, r.1, r.2, seen, j)
  {
    var refs := r.2;
    AnyWired(h, input, j, r, g);
    assert Chains(g, refs[j].0, refs[j].1, ResolveWith(r.1), AnyFail(|h.anys|)) && r.1 < refs[j].1;
    assert CountOpen(g, |h.anys|, r.1, refs, seen, j);
    CarriedCountStep(g, refs, |h.anys|, r.1, seen, j);
  }

  /** A rejection counter waiting in `g` advances an open count there as
      `CountAdvances` says. */
  lemma CarriedCountStep(g: Heap, refs: seq<(nat, nat)>, k: nat, p: nat, seen: set<nat>, j: nat)
    requires Wf(g) && j < |refs| && Chains(g, refs[j].0, refs[j].1, ResolveWith(p), AnyFail(k)) && p < refs[j].1
    requires CountOpen(g, k, p, refs, seen, j)
    ensures CountAdvances(g, k, p, refs, seen, j)
  {
    ChainsWf(g, refs[j].0, refs[j].1, ResolveWith(p), AnyFail(k));
    CountStep(g, k, p, refs, seen, j);
  }

  // ---------------------------------------------------------------------
  // allSettled never rejects
  //
  // Along element `j`'s path through allSettled, the record promise `s`
  // (what `catch` derived), the promise `e` the inner all's slot callback
  // derives and allSettled's own promise `p` are never rejected: the
  // record builders turn every settlement into a fulfilment, so the slot
  // callback always runs and all's `reject` never does. The call starts
  // the path unrejected, and firing any of its four reactions keeps it so.
  // `Unrejected` and `KeepsUnrejected` are in module Combinators.

  /** All four reactions of element `j`'s path keep it unrejected: the
      two record builders on `q` and `d` (deriving `s == d + 1`), and the
      inner all's slot callback on `s` and `reject` on `e`. */
  ghost predicate PathKept(g: Heap, q: nat, d: nat, k: nat, j: nat, e: nat, p: nat)
  {
    KeepsUnrejected(g, q, Reaction(Record(Fulfilled), Rethrow, d), k, d + 1, e, p) &&
    KeepsUnrejected(g, d, Reaction(Identity, Record(Rejected), d + 1), k, d + 1, e, p) &&
    KeepsUnrejected(g, d + 1, Reaction(AllSlot(k, j), Rethrow, e), k, d + 1, e, p) &&
    KeepsUnrejected(g, e, Reaction(Identity, RejectWith(p), e + 1), k, d + 1, e, p)
  }

  /** A reaction whose branch touches no promise settles only its derived
      promise; if that is `s`, a branch that returns leaves it unrejected. */
  lemma PureFiringKeeps(g: Heap, src: nat, rx: Reaction, k: nat, s: nat, e: nat, p: nat)
    requires Wf(g) && src < |g.promises| && ReactionWf(rx, BoundsOf(g))
    requires IsPure(Branch(g.promises[src], rx)) && Unrejected(g, k, s, e, p)
    requires rx.derived != e && rx.derived != p
    requires rx.derived == s ==> Apply(Branch(g.promises[src], rx), g.promises[src].value).Return?
    ensures Unrejected(Fired(g, src, rx), k, s, e, p)
  {
    var v := g.promises[src].value;
    var cb := Branch(g.promises[src], rx);
    var h1 := g.(fired := g.fired + [Firing(src, cb, v, rx.derived)]);
    assert Wf(h1) by {
      assert BoundsOf(h1) == BoundsOf(g);
    }
    FiredPure(g, src, rx);
    var c := Apply(cb, v);
    FedWf(h1, rx.derived, c);
    if c.Return? {
      ResolvedWf(h1, rx.derived, Fulfilled, c.result);
    }
  }

  /** The slot callback fired on a fulfilled `s` fills its slot, at most
      fulfils `p`, and fulfils `e` with `undefined`. */
  lemma SlotFiringKeeps(g: Heap, s: nat, k: nat, j: nat, e: nat, p: nat)
    requires Wf(g) && ReactionWf(Reaction(AllSlot(k, j), Rethrow, e), BoundsOf(g)) && Unrejected(g, k, s, e, p)
    requires g.promises[s].state == Fulfilled && s != e && s != p && e != p
    ensures Unrejected(Fired(g, s, Reaction(AllSlot(k, j), Rethrow, e)), k, s, e, p)
  {
    var v := g.promises[s].value;
    var h1 := g.(fired := g.fired + [Firing(s, AllSlot(k, j), v, e)]);
    assert Wf(h1) by {
      assert BoundsOf(h1) == BoundsOf(g);
    }
    SlotFilledWf(h1, k, j, v);
    var a := AllRecord(h1.alls[k], j, v);
    ResolvedWf(h1.(alls := h1.alls[k := a]), p, Fulfilled, Array(Densify(a.results, a.length)));
    var h2 := SlotFilled(h1, k, j, v);
    assert Called(h1, AllSlot(k, j), v) == (h2, Return(Undef));
    FedWf(h2, e, Return(Undef));
    ResolvedWf(h2, e, Fulfilled, Undef);
  }

  /** Element `j`'s path, wherever its reactions wait, keeps itself
      unrejected as `PathKept` says. */
  lemma PathHolds(g: Heap, q: nat, d: nat, k: nat, j: nat, e: nat, p: nat)
    requires Wf(g) && Chains(g, q, d, Record(Fulfilled), Record(Rejected))
    requires Chains(g, d + 1, e, AllSlot(k, j), RejectWith(p))
    requires d + 1 < p < e && Unrejected(g, k, d + 1, e, p)
    ensures PathKept(g, q, d, k, j, e, p)
  {
    RecordsKeep(g, q, d, k, e, p);
    SlotPairKeeps(g, d + 1, k, j, e, p);
  }

  /** The record builders keep the path unrejected: they settle only `d`
      and `s == d + 1`, and the one deriving `s` always returns. */
  lemma RecordsKeep(g: Heap, q: nat, d: nat, k: nat, e: nat, p: nat)
    requires Wf(g) && Chains(g, q, d, Record(Fulfilled), Record(Rejected))
    requires d + 1 < p < e && Unrejected(g, k, d + 1, e, p)
    ensures KeepsUnrejected(g, q, Reaction(Record(Fulfilled), Rethrow, d), k, d + 1, e, p)
    ensures KeepsUnrejected(g, d, Reaction(Identity, Record(Rejected), d + 1), k, d + 1, e, p)
  {
    ChainsWf(g, q, d, Record(Fulfilled), Record(Rejected));
    if g.promises[q].state != Pending {
      PureFiringKeeps(g, q, Reaction(Record(Fulfilled), Rethrow, d), k, d + 1, e, p);
    }
    if g.promises[d].state != Pending {
      PureFiringKeeps(g, d, Reaction(Identity, Record(Rejected), d + 1), k, d + 1, e, p);
    }
  }

  /** The inner all's pair on an unrejected `s` keeps the path unrejected:
      a settled `s` is fulfilled, so the slot callback runs, and a settled
      `e` is fulfilled, so `reject` does not. */
  lemma SlotPairKeeps(g: Heap, s: nat, k: nat, j: nat, e: nat, p: nat)
    requires Wf(g) && Chains(g, s, e, AllSlot(k, j), RejectWith(p))
    requires s < p < e && Unrejected(g, k, s, e, p)
    ensures KeepsUnrejected(g, s, Reaction(AllSlot(k, j), Rethrow, e), k, s, e, p)
    ensures KeepsUnrejected(g, e, Reaction(Identity, RejectWith(p), e + 1), k, s, e, p)
  {
    ChainsWf(g, s, e, AllSlot(k, j), RejectWith(p));
    if g.promises[s].state != Pending {
      SlotFiringKeeps(g, s, k, j, e, p);
    }
    if g.promises[e].state != Pending {
      PureFiringKeeps(g, e, Reaction(Identity, RejectWith(p), e + 1), k, s, e, p);
    }
  }

  /** Element `j`'s path, carried from `m` into the later heap `g`, keeps
      itself unrejected there. */
  lemma CarriedPathHolds(m: Heap, g: Heap, q: nat, d: nat, k: nat, j: nat, e: nat, p: nat)
    requires Chains(m, q, d, Record(Fulfilled), Record(Rejected)) && Chains(m, d + 1, e, AllSlot(k, j), RejectWith(p))
    requires StillWaiting(m, g) && d + 1 < p < e && Unrejected(g, k, d + 1, e, p)
    ensures PathKept(g, q, d, k, j, e, p)
  {
    ChainsKept(m, g, q, d, Record(Fulfilled), Record(Rejected));
    ChainsKept(m, g, d + 1, e, AllSlot(k, j), RejectWith(p));
    PathHolds(g, q, d, k, j, e, p);
  }

  /** allSettled starts every element's path unrejected: the record
      promise, the slot's derived promise and allSettled's promise are all
      still pending when the call returns, and the table entry the call
      appended is the inner all's. */
  lemma AllSettledStartsUnrejected(h: Heap, input: Value, j: nat, r: (Heap, nat, seq<(nat, nat)>))
    requires ArrayIn(h, input) && j < |input.items|
    requires r == AllSettledOf(h, input)
    ensures j < |r.2| && Unrejected(r.0, |h.alls|, CaughtOf(r.2, j), SlotOf(r.1, j), r.1)
  {
    AllSettledPending(h, input, r);
    PathStarts(r.0, r.2, |h.alls|, j, r.1);
  }

  /** A path whose promises are all pending, on the entry of `p`, is
      unrejected. */
  lemma PathStarts(m: Heap, refs: seq<(nat, nat)>, k: nat, j: nat, p: nat)
    requires CatchesPending(m, refs) && SlotsPending(m, p, |refs|) && j < |refs|
    requires k < |m.alls| && m.alls[k].target == p && p < |m.promises| && m.promises[p].state == Pending
    ensures Unrejected(m, k, CaughtOf(refs, j), SlotOf(p, j), p)
  {
    assert CatchPending(m, refs, j) && SlotPending(m, p, j);
  }

  /** allSettled never rejects: in any later heap where the call's
      reactions still wait and element `j`'s path is unrejected, firing
      either record builder, the inner all's slot callback or its `reject`
      for element `j` leaves the path unrejected, allSettled's promise
      included. With `AllSettledStartsUnrejected`, no firing of these
      reactions ever rejects allSettled's promise. */
  lemma AllSettledNeverRejects(h: Heap, input: Value, j: nat, r: (Heap, nat, seq<(nat, nat)>), g: Heap)
    requires ArrayIn(h, input) && j < |input.items|
    requires r == AllSettledOf(h, input) && StillWaiting(r.0, g)
    requires j < |r.2| && Unrejected(g, |h.alls|, CaughtOf(r.2, j), SlotOf(r.1, j), r.1)
    ensures PathKept(g, r.2[j].0, r.2[j].1, |h.alls|, j, SlotOf(r.1, j), r.1)
  {
    AllSettledItem(h, input, j, r);
    AllSettledSlot(h, input, j, r);
    CarriedPath(r.0, g, r.2, |h.alls|, j, r.1);
  }

  /** allSettled's record promise for element `j` precedes the inner all's
      promise and carries that all's slot callback of index `j`, whose
      derived promise carries all's `reject`. */
  lemma AllSettledSlot(h: Heap, input: Value, j: nat, r: (Heap, nat, seq<(nat, nat)>))
    requires ArrayIn(h, input) && j < |input.items|
    requires r == AllSettledOf(h, input)
    ensures SlotWired(r.0, r.2, |h.alls|, r.1, j)
  {
    AllSettledJoins(h, input, r);
  }

  lemma CarriedPath(m: Heap, g: Heap, refs: seq<(nat, nat)>, k: nat, j: nat, p: nat)
    requires StillWaiting(m, g) && SlotWired(m, refs, k, p, j)
    requires Chains(m, refs[j].0, refs[j].1, Record(Fulfilled), Record(Rejected))
    requires Unrejected(g, k, CaughtOf(refs, j), SlotOf(p, j), p)
    ensures PathKept(g, refs[j].0, refs[j].1, k, j, SlotOf(p, j), p)
  {
    CarriedPathHolds(m, g, refs[j].0, refs[j].1, k, j, SlotOf(p, j), p);
  }
}
