/** The callbacks the combinators register, and what running one does.

    Swift callbacks are closures. The closures of Sources/ come in a few
    shapes only: a caller's closure, `{ _ in }`, the `fulfill` or `reject`
    of a promise being built, the wrappers of `thenFlatMap`, `thenMap` and
    `replace`, and the join reactions of `zip` and `flatten`. Each shape is
    a constructor here, carrying what the closure captured; a caller's
    closure is known only by a number, and the closures callers hand to
    `thenFlatMap`, `thenMap` and `replace` are Dafny functions.

    `React` says what running a callback with an outcome does, as an
    `Effect`; `Perform` does it to the objects concerned. */
module Reactions {
  import opened Outcomes
  import opened Promises
  import opened Groups
  import opened ZipJoin
  import opened FlattenJoin

  /** The promises of the library: values of any type, these callbacks. */
  type P = Promise<Value, Callback>

  /** The closure `thenFlatMap` is given: one returning a promise, or, for
      `thenMap`, one returning a value that is wrapped in a settled promise
      (`Promise(value:)`, or `Promise(error:)` when it throws). */
  datatype Transform =
    | ReturnsPromise(f: Value -> Thrown<P>)
    | WrapsValue(g: Value -> Thrown<Value>)

  /** Success side of a callback. */
  datatype OnValue =
    | IgnoreValue                                       // `{ _ in }`
    | CallValue(id: nat)                                // a caller's `(Value) -> Void`
    | CallBlock(id: nat)                                // `{ _ in block() }`
    | FulfillInto(target: P)                            // `fulfill` of `target`
    | FlatMapInto(transform: Transform, target: P)      // the success closure of `thenFlatMap`
    | ZipFulfilled(zip: ZipGroup<Callback>, slot: nat)  // `{ slot = $0; leave() }`
    | FlattenFulfilled(flatten: FlattenGroup<Callback>) // `{ values.append($0); leave() }`

  /** Failure side of a callback. */
  datatype OnError =
    | IgnoreError                                       // `{ _ in }`
    | CallError(id: nat)                                // a caller's `(Error) -> Void`
    | CallBlockOnError(id: nat)                         // `{ _ in block() }`
    | CatchType(errorType: string, id: nat)             // `{ ($0 as? ErrorType).map { reject($0) } }`
    | CatchValue(error: Error, id: nat)                 // `{ if error == ($0 as? ErrorType) { reject() } }`
    | RejectInto(target: P)                             // `reject` of `target`
    | RecoverInto(recover: Error -> Thrown<P>, target: P) // `newReject` of `replace`
    | ZipRejected(zip: ZipGroup<Callback>, slot: nat)   // `{ reject($0); leave() }`
    | FlattenRejected(flatten: FlattenGroup<Callback>)  // `{ reject($0); leave() }`

  /** `Callback`: a success side and a failure side. */
  datatype Callback = Callback(fulfill: OnValue, reject: OnError)

  /** `then(fulfill, reject)` with the `fulfill` and `reject` of `target`:
      the callback that makes `target` settle as the promise holding it. */
  function Forwarding(target: P): Callback
  {
    Callback(FulfillInto(target), RejectInto(target))
  }

  /** `addCallbacks(c)` happened to `p` and nothing else: appended while
      pending, one single reaction scheduled once settled. */
  twostate predicate Added(p: P, new c: Callback)
    reads p
  {
    && p.Valid()
    && p.registered == old(p.registered) + [c]
    && p.delivered == old(p.delivered)
    && (old(p.state).Pending? ==>
          p.state == Pending(old(p.state).callbacks + [c]) && p.scheduled == old(p.scheduled))
    && (!old(p.state).Pending? ==>
          p.state == old(p.state) &&
          p.scheduled == old(p.scheduled) + [Fire([Delivery(c, OutcomeOf(old(p.state)).value)])])
  }

  /** What registering callbacks can change of a promise. */
  datatype Snapshot = Snapshot(
    state: State<Value, Callback>,
    scheduled: seq<Job<Value, Callback>>,
    registered: seq<Callback>,
    delivered: seq<Delivery<Value, Callback>>)

  ghost function SnapshotOf(p: P): Snapshot
    reads p
  {
    Snapshot(p.state, p.scheduled, p.registered, p.delivered)
  }

  /** `after` is `before` with `addCallbacks` of each of `cs`, in order:
      appended while pending, one single reaction each once settled. */
  ghost predicate Extends(after: Snapshot, before: Snapshot, cs: seq<Callback>)
  {
    && after.registered == before.registered + cs
    && after.delivered == before.delivered
    && after.state == RegisterAll(before.state, cs)
    && after.scheduled == before.scheduled + RegisterJobs(before.state, cs)
  }

  /** Registering nothing changes nothing. */
  lemma ExtendsByNothing(s: Snapshot)
    ensures Extends(s, s, [])
  {
    assert s.registered + [] == s.registered;
    assert s.scheduled + [] == s.scheduled;
  }

  /** Registering `a` and then `b` is registering `a + b`. */
  lemma ExtendsTransitive(s0: Snapshot, s1: Snapshot, s2: Snapshot, a: seq<Callback>, b: seq<Callback>)
    requires Extends(s1, s0, a) && Extends(s2, s1, b)
    ensures Extends(s2, s0, a + b)
  {
    RegisterAllAppend(s0.state, a, b);
    assert s2.registered == s0.registered + a + b;
    assert s2.scheduled == s0.scheduled + RegisterJobs(s0.state, a) + RegisterJobs(s1.state, b);
  }

  /** `addCallbacks` of each of `cs`, in order, happened to `p` and nothing
      else. */
  twostate predicate AddedAll(p: P, new cs: seq<Callback>)
    reads p
  {
    p.Valid() && Extends(SnapshotOf(p), old(SnapshotOf(p)), cs)
  }

  /** One `addCallbacks` is the registration of a sequence of one. */
  lemma AddedOne(before: Snapshot, after: Snapshot, c: Callback)
    requires after.registered == before.registered + [c] && after.delivered == before.delivered
    requires before.state.Pending? ==>
               after.state == Pending(before.state.callbacks + [c]) && after.scheduled == before.scheduled
    requires !before.state.Pending? ==>
               after.state == before.state &&
               after.scheduled == before.scheduled + [Fire([Delivery(c, OutcomeOf(before.state).value)])]
    ensures Extends(after, before, [c])
  {
    RegisterOne(before.state, c);
  }

  /** A call of a caller's closure. */
  datatype Invocation = ValueCall(id: nat, value: Value) | ErrorCall(id: nat, error: Error) | BlockCall(id: nat)

  /** What running one reaction does. */
  datatype Effect =
    | NoEffect
    | Invoke(call: Invocation)                          // a caller's closure runs
    | SettleTarget(target: P, outcome: Outcome<Value>)  // `fulfill` / `reject` of a promise
    | Forward(source: P, target: P)                     // `source.then(fulfill, reject)` of `target`
    | ForwardSettled(outcome: Outcome<Value>, target: P) // the same on a promise made settled
    | ZipStep(zip: ZipGroup<Callback>, arrival: Arrival)
    | FlattenStep(flatten: FlattenGroup<Callback>, outcome: Outcome<Value>)

  /** Running callback `c` with outcome `o`: the success side with a value,
      the failure side with an error. */
  function React(c: Callback, o: Outcome<Value>): Effect
  {
    match o
    case Success(v) =>
      (match c.fulfill
       case IgnoreValue => NoEffect
       case CallValue(id) => Invoke(ValueCall(id, v))
       case CallBlock(id) => Invoke(BlockCall(id))
       case FulfillInto(t) => SettleTarget(t, Success(v))
       case FlatMapInto(ReturnsPromise(f), t) =>
         (match f(v)
          case Returns(p) => Forward(p, t)
          case Throws(e) => SettleTarget(t, Failure(e)))
       case FlatMapInto(WrapsValue(g), t) =>
         (match g(v)
          case Returns(w) => ForwardSettled(Success(w), t)
          case Throws(e) => ForwardSettled(Failure(e), t))
       case ZipFulfilled(z, slot) => ZipStep(z, Arrival(slot, Success(v)))
       case FlattenFulfilled(g) => FlattenStep(g, Success(v)))
    case Failure(e) =>
      match c.reject
      case IgnoreError => NoEffect
      case CallError(id) => Invoke(ErrorCall(id, e))
      case CallBlockOnError(id) => Invoke(BlockCall(id))
      case CatchType(errorType, id) =>
        (match Cast(e, errorType)
         case Some(cast) => Invoke(ErrorCall(id, cast))
         case None => NoEffect)
      case CatchValue(error, id) => if Some(error) == Cast(e, error.errorType) then Invoke(BlockCall(id)) else NoEffect
      case RejectInto(t) => SettleTarget(t, Failure(e))
      case RecoverInto(recover, t) =>
        (match recover(e)
         case Returns(p) => Forward(p, t)
         case Throws(thrown) => SettleTarget(t, Failure(thrown)))
      case ZipRejected(z, slot) => ZipStep(z, Arrival(slot, Failure(e)))
      case FlattenRejected(g) => FlattenStep(g, Failure(e))
  }

  /** The forwarding callback settles its target exactly as the promise
      holding it settled. */
  lemma ForwardingSettlesAs(target: P, o: Outcome<Value>)
    ensures React(Forwarding(target), o) == SettleTarget(target, o)
  {
  }

  /** The caller's closure one reaction calls, if any. */
  function CallOf(d: Delivery<Value, Callback>): (r: seq<Invocation>)
    ensures |r| <= 1
  {
    var e := React(d.callback, d.outcome);
    if e.Invoke? then [e.call] else []
  }

  /** The caller's closures a batch of reactions calls, in order. */
  function Calls(ds: seq<Delivery<Value, Callback>>): (r: seq<Invocation>)
    ensures |r| <= |ds|
  {
    if ds == [] then [] else CallOf(ds[0]) + Calls(ds[1..])
  }

  lemma {:induction false} CallsAppend(a: seq<Delivery<Value, Callback>>, b: seq<Delivery<Value, Callback>>)
    ensures Calls(a + b) == Calls(a) + Calls(b)
  {
    if a == [] {
      assert a + b == b;
    } else {
      assert (a + b)[1..] == a[1..] + b;
      CallsAppend(a[1..], b);
    }
  }

  /** Where a reaction leads in the end: the promise it settles and how,
      when every promise `p` a closure returns settles with `later(p)`.
      A returned promise reaches its target through `Forwarding`; a promise
      made settled for `thenMap` carries the wrapped outcome. */
  function Eventually(c: Callback, o: Outcome<Value>, later: P -> Outcome<Value>): Option<(P, Outcome<Value>)>
  {
    match React(c, o)
    case SettleTarget(t, settled) => Some((t, settled))
    case Forward(p, t) => SettledBy(React(Forwarding(t), later(p)))
    case ForwardSettled(settled, t) => SettledBy(React(Forwarding(t), settled))
    case _ => None
  }

  function SettledBy(e: Effect): Option<(P, Outcome<Value>)>
  {
    if e.SettleTarget? then Some((e.target, e.outcome)) else None
  }

  /** The objects performing `e` writes. */
  function Footprint(e: Effect): set<object>
  {
    match e
    case SettleTarget(t, _) => {t}
    case Forward(p, _) => {p}
    case ZipStep(z, _) => {z, z.result}
    case FlattenStep(g, _) => {g, g.result}
    case _ => {}
  }

  /** What performing `e` relies on: the objects it writes are consistent,
      and a join still waits for the input that arrives. */
  ghost predicate Ready(e: Effect)
    reads Footprint(e)
  {
    match e
    case SettleTarget(t, _) => t.Valid()
    case Forward(p, _) => p.Valid()
    case ZipStep(z, a) => z.Valid() && z.count > 0 && a.input < |z.slots|
    case FlattenStep(g, _) => g.Valid() && g.count > 0
    case _ => true
  }

  /** Performs one reaction: a caller's closure is reported as called; a
      target promise is settled; a forwarding callback is registered on a
      returned promise, or on a promise made settled for `thenMap`; a join
      takes one arrival. */
  method Perform(e: Effect) returns (call: Option<Invocation>, made: Option<P>)
    requires Ready(e)
    modifies Footprint(e)
    ensures call == if e.Invoke? then Some(e.call) else None
    ensures e.SettleTarget? ==>
              e.target.Valid() && e.target.registered == old(e.target.registered) &&
              e.target.delivered == old(e.target.delivered) &&
              e.target.state == Settle(old(e.target.state), e.outcome) &&
              e.target.scheduled == old(e.target.scheduled) + SettleJobs(old(e.target.state), e.outcome)
    ensures e.Forward? ==> Added(e.source, Forwarding(e.target))
    ensures made.Some? <==> e.ForwardSettled?
    ensures e.ForwardSettled? ==>
              fresh(made.value) && made.value.Valid() && made.value.state == StateOf(e.outcome) &&
              made.value.registered == [Forwarding(e.target)] && made.value.queue == Main &&
              made.value.scheduled == [Fire([Delivery(Forwarding(e.target), e.outcome)])]
    ensures e.ZipStep? ==>
              e.zip.Valid() && e.zip.View() == ZipArrive(old(e.zip.View()), e.arrival) &&
              e.zip.result.registered == old(e.zip.result.registered) &&
              e.zip.result.delivered == old(e.zip.result.delivered)
    ensures e.FlattenStep? ==>
              e.flatten.Valid() && e.flatten.View() == FlattenArrive(old(e.flatten.View()), e.outcome) &&
              e.flatten.result.registered == old(e.flatten.result.registered) &&
              e.flatten.result.delivered == old(e.flatten.result.delivered)
  {
    call, made := None, None;
    match e
    case NoEffect =>
    case Invoke(c) =>
      call := Some(c);
    case SettleTarget(t, o) =>
      t.UpdateState(o);
    case Forward(p, t) =>
      p.AddCallbacks(Forwarding(t));
    case ForwardSettled(o, t) =>
      var p := MakeSettled(o);
      p.AddCallbacks(Forwarding(t));
      made := Some(p);
    case ZipStep(z, a) =>
      match a.outcome {
        case Success(v) => z.Fulfilled(a.input, v);
        case Failure(err) => z.Rejected(a.input, err);
      }
    case FlattenStep(g, o) =>
      match o {
        case Success(v) => g.Fulfilled(v);
        case Failure(err) => g.Rejected(err);
      }
  }

  /** `Promise(value: v)` or `Promise(error: e)`. */
  method MakeSettled(o: Outcome<Value>) returns (p: P)
    ensures fresh(p) && p.Valid() && p.state == StateOf(o) && p.queue == Main
    ensures p.scheduled == [] && p.registered == [] && p.delivered == []
  {
    if o.Success? {
      p := new Promise.WithValue(o.value);
    } else {
      p := new Promise.WithError(o.error);
    }
  }
}
