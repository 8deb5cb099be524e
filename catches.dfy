/** The `catch` variants of Sources/Promise+Catch.swift.

    Each registers, on the receiver, a callback whose success side is
    `{ _ in }`, and returns the receiver. The filtered variants wrap the
    caller's closure in a test on the error: `$0 as? ErrorType` for the
    type-filtered one, `error == ($0 as? ErrorType)` for the value-filtered
    one. With errors tagged by their type, the cast is a tag test. */
module Catches {
  import opened Outcomes
  import opened Promises
  import opened Reactions
  import opened Then

  /** The callback of `catch(ErrorType.self) { … }`. */
  function TypedCatch(errorType: string, id: nat): Callback
  {
    Callback(IgnoreValue, CatchType(errorType, id))
  }

  /** The callback of `catch(someError) { … }`. */
  function ValueCatch(error: Error, id: nat): Callback
  {
    Callback(IgnoreValue, CatchValue(error, id))
  }

  /** `catch(on:_:)`: `then(on: queue, { _ in }, reject)`. */
  method CatchOn(self: P, queue: Queue, reject: OnError) returns (r: P)
    requires self.Valid()
    modifies self
    ensures r == self && Added(self, Callback(IgnoreValue, reject))
  {
    r := Catch(self, reject);
  }

  /** `catch(_:on:_:)` filtered by type: registers through the plain
      `catch`, so the `queue` argument plays no part. */
  method CatchOfType(self: P, errorType: string, queue: Queue, id: nat) returns (r: P)
    requires self.Valid()
    modifies self
    ensures r == self && Added(self, TypedCatch(errorType, id))
  {
    r := Catch(self, CatchType(errorType, id));
  }

  /** `catch(_:on:_:)` filtered by value: registers through the plain
      `catch`, so the `queue` argument plays no part. */
  method CatchOfValue(self: P, error: Error, queue: Queue, id: nat) returns (r: P)
    requires self.Valid()
    modifies self
    ensures r == self && Added(self, ValueCatch(error, id))
  {
    r := Catch(self, CatchValue(error, id));
  }

  /** A type-filtered catch calls its closure exactly when the promise is
      rejected with an error of that type, and passes it the error. */
  lemma TypedCatchFiresIff(errorType: string, id: nat, o: Outcome<Value>)
    ensures React(TypedCatch(errorType, id), o) != NoEffect <==> o.Failure? && o.error.errorType == errorType
    ensures React(TypedCatch(errorType, id), o) != NoEffect ==>
              React(TypedCatch(errorType, id), o) == Invoke(ErrorCall(id, o.error))
  {
  }

  /** A value-filtered catch calls its closure exactly when the promise is
      rejected with an error equal to the given one. */
  lemma ValueCatchFiresIff(error: Error, id: nat, o: Outcome<Value>)
    ensures React(ValueCatch(error, id), o) != NoEffect <==> o == Failure(error)
    ensures React(ValueCatch(error, id), o) != NoEffect ==> React(ValueCatch(error, id), o) == Invoke(BlockCall(id))
  {
  }

  /** Callbacks registered by `catch` with the given failure sides. */
  function CatchCallbacks(handlers: seq<OnError>): (r: seq<Callback>)
    ensures |r| == |handlers| && forall i :: 0 <= i < |r| ==> r[i] == Callback(IgnoreValue, handlers[i])
  {
    seq(|handlers|, i requires 0 <= i < |handlers| => Callback(IgnoreValue, handlers[i]))
  }

  /** A fulfilled promise calls no closure of any `catch`. */
  lemma {:induction false} FulfilledNeverCatches(handlers: seq<OnError>, v: Value)
    ensures Calls(FireBlock(CatchCallbacks(handlers), Success(v))) == []
    decreases |handlers|
  {
    if handlers != [] {
      assert CatchCallbacks(handlers)[1..] == CatchCallbacks(handlers[1..]);
      FulfilledNeverCatches(handlers[1..], v);
    }
  }

  /** One `catch` of a chain: the plain one with a caller's `(Error) -> Void`,
      the type-filtered one, or the value-filtered one. */
  datatype CatchKind =
    | Plain(id: nat)
    | OfType(errorType: string, id: nat)
    | OfValue(error: Error, id: nat)

  /** The callback a `catch` of that kind registers. */
  function CatchCallback(k: CatchKind): Callback
  {
    match k
    case Plain(id) => Callback(IgnoreValue, CallError(id))
    case OfType(errorType, id) => TypedCatch(errorType, id)
    case OfValue(error, id) => ValueCatch(error, id)
  }

  /** The callbacks of a chain of catches, in registration order. */
  function CatchChain(ks: seq<CatchKind>): (r: seq<Callback>)
    ensures |r| == |ks|
  {
    if ks == [] then [] else [CatchCallback(ks[0])] + CatchChain(ks[1..])
  }

  /** What a `catch` promises on a rejection with `e`: the plain one calls
      its closure with `e`, the type-filtered one does so when `e` has its
      type, the value-filtered one calls its block when `e` is its error. */
  function ExpectedCall(k: CatchKind, e: Error): seq<Invocation>
  {
    match k
    case Plain(id) => [ErrorCall(id, e)]
    case OfType(errorType, id) => if e.errorType == errorType then [ErrorCall(id, e)] else []
    case OfValue(error, id) => if e == error then [BlockCall(id)] else []
  }

  /** The calls a chain of catches promises on a rejection with `e`, in
      registration order. */
  function MatchingCatches(ks: seq<CatchKind>, e: Error): seq<Invocation>
    decreases |ks|
  {
    if ks == [] then [] else ExpectedCall(ks[0], e) + MatchingCatches(ks[1..], e)
  }

  /** The catches of a chain on one rejected promise all see the same
      error: each makes exactly the call its kind promises, in
      registration order, whatever kinds are mixed. */
  lemma {:induction false} CatchesSeeTheSameError(ks: seq<CatchKind>, e: Error)
    ensures Calls(FireBlock(CatchChain(ks), Failure(e))) == MatchingCatches(ks, e)
    decreases |ks|
  {
    if ks != [] {
      var cs := CatchChain(ks);
      assert cs[0] == CatchCallback(ks[0]) && cs[1..] == CatchChain(ks[1..]);
      assert CallOf(Delivery(cs[0], Failure(e))) == ExpectedCall(ks[0], e);
      CatchesSeeTheSameError(ks[1..], e);
    }
  }

  /** On a promise rejected with `e` whose callbacks are a chain of
      catches, the closures the queue has run and will run are exactly
      those the chain promises, in order. */
  lemma RejectedPromiseRunsMatchingCatches(p: P, ks: seq<CatchKind>, e: Error)
    requires p.Valid() && p.state == Rejected(e) && p.registered == CatchChain(ks)
    ensures Calls(p.delivered + Deliveries(p.scheduled)) == MatchingCatches(ks, e)
  {
    CatchesSeeTheSameError(ks, e);
  }

  /** A value-filtered catch of the rejecting error, a type-filtered catch
      of its type and a plain catch, chained on a promise rejected with
      that error: all three closures run, in that order. */
  lemma MixedChainRunsEveryMatch(p: P, e: Error, byValue: nat, byType: nat, plain: nat)
    requires p.Valid() && p.state == Rejected(e)
    requires p.registered == CatchChain([OfValue(e, byValue), OfType(e.errorType, byType), Plain(plain)])
    ensures Calls(p.delivered + Deliveries(p.scheduled)) ==
            [BlockCall(byValue), ErrorCall(byType, e), ErrorCall(plain, e)]
  {
    var ks := [OfValue(e, byValue), OfType(e.errorType, byType), Plain(plain)];
    RejectedPromiseRunsMatchingCatches(p, ks, e);
    assert ks[1..][1..][1..] == [];
    assert MatchingCatches(ks[1..][1..], e) == [ErrorCall(plain, e)];
    assert MatchingCatches(ks[1..], e) == [ErrorCall(byType, e), ErrorCall(plain, e)];
  }
}
