// The run-time state of the promise library: the promise instances with
// their four fields, the reaction pairs `then` queues on them, the task
// queue behind `invokeAsync`, and the well-formedness that ties them
// together (every stored id names something that exists).

module PromiseState {
  import opened Values
  import opened Aggregates

  /** The functions a reaction can call. `User(f)` is a callback supplied by
      the program, known only through what it returns or throws for each
      argument; the other kinds are the closures the library itself builds. */
  datatype Callback =
    | User(f: Value -> Completion)
    | Identity                                // then's default onSuccess: `v => v`
    | Rethrow                                 // then's default onFail: `e => { throw e }`
    | ResolveWith(target: nat)                // the bound `_resolve` of promise `target`
    | RejectWith(target: nat)                 // the bound `_reject` of promise `target`
    | AllSlot(agg: nat, index: nat)           // all's fulfilment callback for input `index`
    | AnyFail(agg: nat)                       // any's rejection callback
    | FinallyRun(callback: Completion, failed: bool)  // finally's `call(result, failed)`
    | FinallyPass(result: Value, failed: bool)        // `() => failed ? P.reject(result) : result`
    | Record(status: Status)                  // allSettled's `{status, value}` / `{status, reason}` builder

  /** The pair `then` pushes on its source: `onSuccessHandler` and
      `onFailHandler` call the chosen callback and feed its outcome into the
      bound `resolve`/`reject` of the derived promise. */
  datatype Reaction = Reaction(onSuccess: Callback, onFail: Callback, derived: nat)

  /** One promise instance: `state`, `value`, `_handled` and `handlers`. */
  datatype PromiseObj = PromiseObj(state: Status, value: Value, handled: bool, handlers: seq<Reaction>)

  /** A function handed to `invokeAsync`: the drain of a handler queue taken
      at dispatch time, or the unhandled-rejection check. */
  datatype Task =
    | RunHandlers(source: nat, handlers: seq<Reaction>)
    | UnhandledCheck(source: nat)

  /** One invocation of a reaction branch, as recorded in the trace. */
  datatype Firing = Firing(source: nat, callback: Callback, argument: Value, derived: nat)

  /** The whole state: the promise instances (an id is an index), the
      `invokeAsync` queue in FIFO order, the closure state of each `all`
      and `any` call, the trace of reaction invocations, and the values
      thrown on the host by the unhandled-rejection check. */
  datatype Heap = Heap(
    promises: seq<PromiseObj>,
    tasks: seq<Task>,
    alls: seq<AllState>,
    anys: seq<AnyState>,
    fired: seq<Firing>,
    uncaught: seq<Value>)

  function EmptyHeap(): Heap
  {
    Heap([], [], [], [], [], [])
  }

  /** A fresh instance: PENDING, no value, not handled, no handlers. */
  function Fresh(): PromiseObj
  {
    PromiseObj(Pending, Undef, false, [])
  }

  // ---------------------------------------------------------------------
  // Well-formedness.

  datatype Bounds = Bounds(promises: nat, alls: nat, anys: nat)

  function BoundsOf(h: Heap): Bounds
  {
    Bounds(|h.promises|, |h.alls|, |h.anys|)
  }

  predicate Within(b1: Bounds, b2: Bounds)
  {
    b1.promises <= b2.promises && b1.alls <= b2.alls && b1.anys <= b2.anys
  }

  predicate CallbackWf(c: Callback, b: Bounds)
  {
    match c
    case ResolveWith(t) => t < b.promises
    case RejectWith(t) => t < b.promises
    case AllSlot(k, _) => k < b.alls
    case AnyFail(k) => k < b.anys
    case Record(st) => st != Pending
    case _ => true
  }

  predicate ReactionWf(r: Reaction, b: Bounds)
  {
    r.derived < b.promises && CallbackWf(r.onSuccess, b) && CallbackWf(r.onFail, b)
  }

  predicate ReactionsWf(rs: seq<Reaction>, b: Bounds)
  {
    forall j | 0 <= j < |rs| :: ReactionWf(rs[j], b)
  }

  /** A drain task exists only for a settled promise. */
  predicate TaskWf(t: Task, ps: seq<PromiseObj>, b: Bounds)
  {
    match t
    case RunHandlers(s, rs) => s < |ps| && ps[s].state != Pending && ReactionsWf(rs, b)
    case UnhandledCheck(s) => s < |ps|
  }

  predicate Wf(h: Heap)
  {
    (forall i | 0 <= i < |h.promises| :: ReactionsWf(h.promises[i].handlers, BoundsOf(h))) &&
    (forall j | 0 <= j < |h.tasks| :: TaskWf(h.tasks[j], h.promises, BoundsOf(h))) &&
    (forall k | 0 <= k < |h.alls| :: h.alls[k].target < |h.promises|) &&
    (forall k | 0 <= k < |h.anys| :: h.anys[k].target < |h.promises|)
  }

  /** Settlement is final: a settled promise keeps its state and value, and
      promises are never deallocated. */
  predicate Evolves(before: seq<PromiseObj>, after: seq<PromiseObj>)
  {
    |before| <= |after| &&
    forall i | 0 <= i < |before| && before[i].state != Pending ::
      after[i].state == before[i].state && after[i].value == before[i].value
  }

  /** What every synchronous operation preserves: settlements are final,
      nothing is deallocated, and the task queue, the trace and the list of
      uncaught values are only appended to. */
  ghost predicate Extends(h: Heap, r: Heap)
  {
    Evolves(h.promises, r.promises) &&
    |h.alls| <= |r.alls| && |h.anys| <= |r.anys| &&
    Prefix(h.tasks, r.tasks) && Prefix(h.fired, r.fired) && h.uncaught <= r.uncaught
  }

  ghost predicate Prefix<T>(a: seq<T>, b: seq<T>)
  {
    |a| <= |b| && b[..|a|] == a
  }

  /** No promise other than `id` (none, when `id` is -1) changes state or
      value, and none is deallocated. */
  ghost predicate KeepsOthers(before: seq<PromiseObj>, after: seq<PromiseObj>, id: int)
  {
    |before| <= |after| &&
    forall i | 0 <= i < |before| && i != id ::
      after[i].state == before[i].state && after[i].value == before[i].value
  }

  lemma EvolvesTransitive(a: seq<PromiseObj>, b: seq<PromiseObj>, c: seq<PromiseObj>)
    requires Evolves(a, b) && Evolves(b, c)
    ensures Evolves(a, c)
  {
  }

  lemma KeepsOthersTransitive(a: seq<PromiseObj>, b: seq<PromiseObj>, c: seq<PromiseObj>, id: int)
    requires KeepsOthers(a, b, id) && KeepsOthers(b, c, id)
    ensures KeepsOthers(a, c, id)
  {
  }

  lemma ExtendsTransitive(a: Heap, b: Heap, c: Heap)
    requires Extends(a, b) && Extends(b, c)
    ensures Extends(a, c)
  {
    EvolvesTransitive(a.promises, b.promises, c.promises);
  }

  lemma CallbackWfWithin(c: Callback, b1: Bounds, b2: Bounds)
    requires CallbackWf(c, b1) && Within(b1, b2)
    ensures CallbackWf(c, b2)
  {
  }

  lemma ReactionsWfWithin(rs: seq<Reaction>, b1: Bounds, b2: Bounds)
    requires ReactionsWf(rs, b1) && Within(b1, b2)
    ensures ReactionsWf(rs, b2)
  {
    forall j | 0 <= j < |rs| ensures ReactionWf(rs[j], b2) {
      assert ReactionWf(rs[j], b1);
    }
  }

  lemma TaskWfWithin(t: Task, ps1: seq<PromiseObj>, ps2: seq<PromiseObj>, b1: Bounds, b2: Bounds)
    requires TaskWf(t, ps1, b1) && Evolves(ps1, ps2) && Within(b1, b2)
    ensures TaskWf(t, ps2, b2)
  {
    if t.RunHandlers? {
      ReactionsWfWithin(t.handlers, b1, b2);
    }
  }
}
