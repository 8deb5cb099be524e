/** The `Promise<Success>` specialisations of Sources/Success.swift.

    `Success` is a value with nothing in it (`Unit` here). Its promises get
    a `fulfill()` without argument and chaining combinators whose closures
    take no argument. */
module SuccessPromises {
  import opened Outcomes
  import opened Promises
  import opened Reactions
  import opened Then

  /** `fulfill()`: `fulfill(Success())`. */
  method FulfillSuccess(self: P)
    requires self.Valid()
    modifies self
    ensures self.Valid()
    ensures self.state == Settle(old(self.state), Success(Unit))
    ensures self.scheduled == old(self.scheduled) + SettleJobs(old(self.state), Success(Unit))
    ensures self.registered == old(self.registered) && self.delivered == old(self.delivered)
  {
    self.Fulfill(Unit);
  }

  /** `then(_:)`: `{ _ in fulfill() }` on success, `{ _ in }` on failure. */
  method ThenSuccess(self: P, fulfill: nat) returns (r: P)
    requires self.Valid()
    modifies self
    ensures r == self && Added(self, Callback(CallBlock(fulfill), IgnoreError))
  {
    self.AddCallbacks(Callback(CallBlock(fulfill), IgnoreError));
    r := self;
  }

  /** A closure without argument, called with the `Success` value. */
  function Discarding<T>(f: () -> T): Value -> T
  {
    _ => f()
  }

  /** `thenFlatMap(_:)` of `Promise<Success>`. */
  method ThenFlatMapSuccess(self: P, onFulfill: () -> Thrown<P>) returns (r: P)
    requires self.Valid()
    modifies self
    ensures fresh(r) && r.Valid() && r.state == Pending([]) && r.queue == Main
    ensures r.scheduled == [] && r.registered == [] && r.delivered == []
    ensures Added(self, FlatMapCallback(ReturnsPromise(Discarding(onFulfill)), r))
  {
    r := FlatMap(self, ReturnsPromise(Discarding(onFulfill)));
  }

  /** `thenMap(_:)` of `Promise<Success>`. */
  method ThenMapSuccess(self: P, onFulfill: () -> Thrown<Value>) returns (r: P)
    requires self.Valid()
    modifies self
    ensures fresh(r) && r.Valid() && r.state == Pending([]) && r.queue == Main
    ensures r.scheduled == [] && r.registered == [] && r.delivered == []
    ensures Added(self, FlatMapCallback(WrapsValue(Discarding(onFulfill)), r))
  {
    r := FlatMap(self, WrapsValue(Discarding(onFulfill)));
  }

  /** `thenFlatMap`: on success the new promise settles as `onFulfill()`
      settles, or is rejected with what it threw; an upstream error passes
      through unchanged. */
  lemma ThenFlatMapSuccessSettlesAs(onFulfill: () -> Thrown<P>, target: P, o: Outcome<Value>, later: P -> Outcome<Value>)
    ensures Eventually(FlatMapCallback(ReturnsPromise(Discarding(onFulfill)), target), o, later) ==
              Some((target,
                    match o
                    case Failure(_) => o
                    case Success(_) =>
                      match onFulfill() case Returns(p) => later(p) case Throws(e) => Failure(e)))
  {
    ThenFlatMapSettlesAs(Discarding(onFulfill), target, o, later);
  }

  /** `thenMap`: on success the new promise is fulfilled with
      `onFulfill()`, or rejected with what it threw; an upstream error
      passes through unchanged. */
  lemma ThenMapSuccessSettlesAs(onFulfill: () -> Thrown<Value>, target: P, o: Outcome<Value>, later: P -> Outcome<Value>)
    ensures Eventually(FlatMapCallback(WrapsValue(Discarding(onFulfill)), target), o, later) ==
              Some((target,
                    match o
                    case Failure(_) => o
                    case Success(_) =>
                      match onFulfill() case Returns(w) => Success(w) case Throws(e) => Failure(e)))
  {
    ThenMapSettlesAs(Discarding(onFulfill), target, o, later);
  }
}
