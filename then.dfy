/** The chaining combinators of Sources/Promise+Then.swift.

    `then`, `catch` and `finally` add one callback to the receiver and
    return the receiver itself. `thenFlatMap` and `thenMap` return a new
    promise and add to the receiver the callback that settles it. */
module Then {
  import opened Outcomes
  import opened Promises
  import opened Reactions

  /** The callback `thenFlatMap` adds to the receiver: on success the
      transform's promise is forwarded to `target`, on failure `target` is
      rejected with the same error. */
  function FlatMapCallback(t: Transform, target: P): Callback
  {
    Callback(FlatMapInto(t, target), RejectInto(target))
  }

  /** `thenFlatMap` for either kind of closure: a new pending promise on
      the main queue, and the receiver's callback that will settle it. */
  method FlatMap(self: P, t: Transform) returns (r: P)
    requires self.Valid()
    modifies self
    ensures fresh(r) && r.Valid() && r.state == Pending([]) && r.queue == Main
    ensures r.scheduled == [] && r.registered == [] && r.delivered == []
    ensures Added(self, FlatMapCallback(t, r))
  {
    r := new Promise();
    self.AddCallbacks(FlatMapCallback(t, r));
  }

  /** `thenFlatMap(_:)`. */
  method ThenFlatMap(self: P, onFulfill: Value -> Thrown<P>) returns (r: P)
    requires self.Valid()
    modifies self
    ensures fresh(r) && r.Valid() && r.state == Pending([]) && r.queue == Main
    ensures r.scheduled == [] && r.registered == [] && r.delivered == []
    ensures Added(self, FlatMapCallback(ReturnsPromise(onFulfill), r))
  {
    r := FlatMap(self, ReturnsPromise(onFulfill));
  }

  /** `thenMap(_:)`: `thenFlatMap` with a closure that wraps the result in
      `Promise(value:)`, or the thrown error in `Promise(error:)`. */
  method ThenMap(self: P, onFulfill: Value -> Thrown<Value>) returns (r: P)
    requires self.Valid()
    modifies self
    ensures fresh(r) && r.Valid() && r.state == Pending([]) && r.queue == Main
    ensures r.scheduled == [] && r.registered == [] && r.delivered == []
    ensures Added(self, FlatMapCallback(WrapsValue(onFulfill), r))
  {
    r := FlatMap(self, WrapsValue(onFulfill));
  }

  /** `then(_:_:)`; the failure reaction defaults to `{ _ in }`. */
  method Then(self: P, fulfill: OnValue, reject: OnError := IgnoreError) returns (r: P)
    requires self.Valid()
    modifies self
    ensures r == self && Added(self, Callback(fulfill, reject))
  {
    self.AddCallbacks(Callback(fulfill, reject));
    r := self;
  }

  /** `then(_:)`, the one-closure overload: failure side `{ _ in }`. */
  method ThenOnly(self: P, fulfill: OnValue) returns (r: P)
    requires self.Valid()
    modifies self
    ensures r == self && Added(self, Callback(fulfill, IgnoreError))
  {
    self.AddCallbacks(Callback(fulfill, IgnoreError));
    r := self;
  }

  /** `catch(_:)`: `then({ _ in }, reject)`. */
  method Catch(self: P, reject: OnError) returns (r: P)
    requires self.Valid()
    modifies self
    ensures r == self && Added(self, Callback(IgnoreValue, reject))
  {
    r := Then(self, IgnoreValue, reject);
  }

  /** `finally(_:)`: `then({ _ in block() }, { _ in block() })`. */
  method Finally(self: P, block: nat) returns (r: P)
    requires self.Valid()
    modifies self
    ensures r == self && Added(self, Callback(CallBlock(block), CallBlockOnError(block)))
  {
    r := Then(self, CallBlock(block), CallBlockOnError(block));
  }

  /** The outcome `thenFlatMap` promises for an upstream outcome `o`, when
      each promise the closure returns settles with `later` of it. */
  function FlatMapOutcome(o: Outcome<Value>, onFulfill: Value -> Thrown<P>, later: P -> Outcome<Value>): Outcome<Value>
  {
    match o
    case Failure(_) => o
    case Success(v) =>
      match onFulfill(v)
      case Returns(p) => later(p)
      case Throws(e) => Failure(e)
  }

  /** The outcome `thenMap` promises for an upstream outcome `o`. */
  function MapOutcome(o: Outcome<Value>, onFulfill: Value -> Thrown<Value>): Outcome<Value>
  {
    match o
    case Failure(_) => o
    case Success(v) =>
      match onFulfill(v)
      case Returns(w) => Success(w)
      case Throws(e) => Failure(e)
  }

  /** `thenFlatMap`: an upstream value `v` makes the new promise settle as
      `onFulfill(v)` settles, or rejects it with what `onFulfill` threw; an
      upstream error rejects it with that error, without calling
      `onFulfill`. */
  lemma ThenFlatMapSettlesAs(onFulfill: Value -> Thrown<P>, target: P, o: Outcome<Value>, later: P -> Outcome<Value>)
    ensures Eventually(FlatMapCallback(ReturnsPromise(onFulfill), target), o, later) ==
              Some((target, FlatMapOutcome(o, onFulfill, later)))
    ensures o.Failure? ==> React(FlatMapCallback(ReturnsPromise(onFulfill), target), o) == SettleTarget(target, o)
  {
    if o.Success? && onFulfill(o.value).Returns? {
      ForwardingSettlesAs(target, later(onFulfill(o.value).value));
    }
  }

  /** `thenMap`: the new promise settles with `onFulfill(v)`, or with what
      it threw, or with the upstream error, whatever other promises do. */
  lemma ThenMapSettlesAs(onFulfill: Value -> Thrown<Value>, target: P, o: Outcome<Value>, later: P -> Outcome<Value>)
    ensures Eventually(FlatMapCallback(WrapsValue(onFulfill), target), o, later) == Some((target, MapOutcome(o, onFulfill)))
  {
    if o.Success? {
      ForwardingSettlesAs(target, MapOutcome(o, onFulfill));
    }
  }

  /** A chain of `thenMap`s: the outcome the last promise settles with. */
  function MapChain(o: Outcome<Value>, stages: seq<Value -> Thrown<Value>>): Outcome<Value>
    decreases |stages|
  {
    if stages == [] then o else MapChain(MapOutcome(o, stages[0]), stages[1..])
  }

  /** An upstream error travels down a whole chain of `thenMap`s unchanged,
      and no stage's closure decides anything. */
  lemma {:induction false} MapChainPassesRejection(e: Error, stages: seq<Value -> Thrown<Value>>)
    ensures MapChain(Failure(e), stages) == Failure(e)
    decreases |stages|
  {
    if stages != [] {
      MapChainPassesRejection(e, stages[1..]);
    }
  }

  /** A stage that throws rejects the rest of the chain with its error. */
  lemma MapChainStopsAtThrow(v: Value, stages: seq<Value -> Thrown<Value>>, e: Error)
    requires stages != [] && stages[0](v) == Throws(e)
    ensures MapChain(Success(v), stages) == Failure(e)
  {
    MapChainPassesRejection(e, stages[1..]);
  }

  /** `then` and `catch` with the default `{ _ in }` ignore the other kind
      of outcome. */
  lemma DefaultSideIgnores(fulfill: OnValue, reject: OnError, v: Value, e: Error)
    ensures React(Callback(fulfill, IgnoreError), Failure(e)) == NoEffect
    ensures React(Callback(IgnoreValue, reject), Success(v)) == NoEffect
  {
  }

  /** The callback `finally` registers reacts to either outcome by calling
      its block, once. */
  lemma FinallyCallbackRunsBlock(block: nat, o: Outcome<Value>)
    ensures Calls(FireBlock([Callback(CallBlock(block), CallBlockOnError(block))], o)) == [BlockCall(block)]
  {
    var ds := FireBlock([Callback(CallBlock(block), CallBlockOnError(block))], o);
    assert ds[1..] == [];
  }

  /** On a settled promise, whichever way it settled, the block of a
      `finally` registered once among other callbacks runs exactly once,
      between the calls of the callbacks registered before it and those of
      the callbacks registered after it. */
  lemma FinallyRunsOnce(p: P, block: nat, before: seq<Callback>, after: seq<Callback>)
    requires p.Valid() && !p.state.Pending?
    requires p.registered == before + [Callback(CallBlock(block), CallBlockOnError(block))] + after
    ensures Calls(p.delivered + Deliveries(p.scheduled)) ==
            Calls(FireBlock(before, OutcomeOf(p.state).value)) + [BlockCall(block)] +
            Calls(FireBlock(after, OutcomeOf(p.state).value))
  {
    var o := OutcomeOf(p.state).value;
    var fin := [Callback(CallBlock(block), CallBlockOnError(block))];
    FireBlockAppend(before + fin, after, o);
    FireBlockAppend(before, fin, o);
    CallsAppend(FireBlock(before, o) + FireBlock(fin, o), FireBlock(after, o));
    CallsAppend(FireBlock(before, o), FireBlock(fin, o));
    FinallyCallbackRunsBlock(block, o);
  }
}
