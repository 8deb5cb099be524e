/** `replace` and `replaceFail` of Sources/Promise+Replace.swift.

    Both return a new promise and add to the receiver a callback that
    fulfils it with the receiver's value, or, on failure, asks the caller's
    closure for a replacement promise and forwards that one's outcome (or
    rejects with what the closure threw). `replaceFail`'s closure does not
    see the error. */
module Replace {
  import opened Outcomes
  import opened Promises
  import opened Reactions

  /** The callback `replace` adds to the receiver. */
  function ReplaceCallback(recover: Error -> Thrown<P>, target: P): Callback
  {
    Callback(FulfillInto(target), RecoverInto(recover, target))
  }

  /** `replace(on:_:)`. */
  method Replace(self: P, queue: Queue, recover: Error -> Thrown<P>) returns (r: P)
    requires self.Valid()
    modifies self
    ensures fresh(r) && r.Valid() && r.state == Pending([]) && r.queue == Main
    ensures r.scheduled == [] && r.registered == [] && r.delivered == []
    ensures Added(self, ReplaceCallback(recover, r))
  {
    r := new Promise();
    self.AddCallbacks(ReplaceCallback(recover, r));
  }

  /** `{ _ in try replace() … }`: a recovery that ignores the error. */
  function Discarding(replace: () -> Thrown<P>): Error -> Thrown<P>
  {
    _ => replace()
  }

  /** `replaceFail(on:_:)`. */
  method ReplaceFail(self: P, queue: Queue, replace: () -> Thrown<P>) returns (r: P)
    requires self.Valid()
    modifies self
    ensures fresh(r) && r.Valid() && r.state == Pending([]) && r.queue == Main
    ensures r.scheduled == [] && r.registered == [] && r.delivered == []
    ensures Added(self, ReplaceCallback(Discarding(replace), r))
  {
    r := new Promise();
    self.AddCallbacks(ReplaceCallback(Discarding(replace), r));
  }

  /** What a recovery leads to for an error, when each promise it returns
      settles with `later` of it. */
  function Recovered(recover: Error -> Thrown<P>, later: P -> Outcome<Value>): Error -> Outcome<Value>
  {
    e => match recover(e) case Returns(p) => later(p) case Throws(thrown) => Failure(thrown)
  }

  /** The outcome `replace` promises: the upstream value, or what the
      recovery leads to for the upstream error. */
  function ReplaceOutcome(o: Outcome<Value>, recovered: Error -> Outcome<Value>): Outcome<Value>
  {
    match o
    case Success(_) => o
    case Failure(e) => recovered(e)
  }

  /** `replace`: a value passes through and `map` is not called; an error
      `e` makes the new promise settle as `map(e)` settles, or rejects it
      with what `map` threw. */
  lemma ReplaceSettlesAs(recover: Error -> Thrown<P>, target: P, o: Outcome<Value>, later: P -> Outcome<Value>)
    ensures Eventually(ReplaceCallback(recover, target), o, later) == Some((target, ReplaceOutcome(o, Recovered(recover, later))))
    ensures o.Success? ==> React(ReplaceCallback(recover, target), o) == SettleTarget(target, o)
  {
    if o.Failure? && recover(o.error).Returns? {
      ForwardingSettlesAs(target, later(recover(o.error).value));
    }
  }

  /** `replaceFail`: whatever the upstream error, the new promise settles
      as `replace()` settles, or is rejected with what it threw. */
  lemma ReplaceFailIgnoresTheError(replace: () -> Thrown<P>, target: P, e: Error, later: P -> Outcome<Value>)
    ensures Eventually(ReplaceCallback(Discarding(replace), target), Failure(e), later) ==
              Some((target, match replace() case Returns(p) => later(p) case Throws(thrown) => Failure(thrown)))
  {
    ReplaceSettlesAs(Discarding(replace), target, Failure(e), later);
  }

  /** `p.replace(…).replace(…)…`: the outcome of the last promise, each
      stage recovering from the error of the one before. */
  function ReplaceChain(o: Outcome<Value>, stages: seq<Error -> Outcome<Value>>): Outcome<Value>
    decreases |stages|
  {
    if stages == [] then o else ReplaceChain(ReplaceOutcome(o, stages[0]), stages[1..])
  }

  /** A value, once there, passes every later stage unchanged: no
      recovery is consulted. */
  lemma {:induction false} ChainKeepsFulfilment(o: Outcome<Value>, stages: seq<Error -> Outcome<Value>>)
    requires o.Success?
    ensures ReplaceChain(o, stages) == o
    decreases |stages|
  {
    if stages != [] {
      ChainKeepsFulfilment(ReplaceOutcome(o, stages[0]), stages[1..]);
    }
  }

  /** The first fulfilled outcome of a list, or the last one if none is. */
  function FirstFulfilment(os: seq<Outcome<Value>>): Outcome<Value>
    requires os != []
    decreases |os|
  {
    if |os| == 1 || os[0].Success? then os[0] else FirstFulfilment(os[1..])
  }

  /** Stages of `replaceFail`, each settling with a fixed outcome. */
  function Replacements(outs: seq<Outcome<Value>>): (r: seq<Error -> Outcome<Value>>)
    ensures |r| == |outs| && forall i, e :: 0 <= i < |outs| ==> r[i](e) == outs[i]
  {
    seq(|outs|, i requires 0 <= i < |outs| => (_ => outs[i]))
  }

  /** In a chain of replacements, rejected ones hand on to the next stage
      and the first one that fulfils gives the final value; if none does,
      the last one's error is final. */
  lemma {:induction false} FirstFulfilmentWins(o: Outcome<Value>, outs: seq<Outcome<Value>>)
    ensures ReplaceChain(o, Replacements(outs)) == FirstFulfilment([o] + outs)
    decreases |outs|
  {
    if outs == [] {
      assert [o] + outs == [o];
    } else if o.Success? {
      ChainKeepsFulfilment(o, Replacements(outs));
    } else {
      var stages := Replacements(outs);
      assert ReplaceOutcome(o, stages[0]) == outs[0];
      assert stages[1..] == Replacements(outs[1..]);
      FirstFulfilmentWins(outs[0], outs[1..]);
      assert ([o] + outs)[1..] == [outs[0]] + outs[1..];
    }
  }
}
