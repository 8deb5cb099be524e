/** The join behind `flatten` in Sources/Promise+Flatten.swift.

    `flatten` enters a `DispatchGroup` once per input promise; a success
    appends the value to `values`, a failure rejects the flattened promise,
    and both leave the group. When the group is empty the notify block
    fulfils the flattened promise with `values`, unless fewer values than
    inputs were collected.

    Values are appended in the order the success reactions run, which is
    the order the inputs settle in, not the order of the input array. */
module FlattenJoin {
  import opened Outcomes
  import opened Promises
  import opened Groups

  /** The group count, `promises.count`, `values`, and the outcome of the
      flattened promise. */
  datatype FlattenView = FlattenView(count: nat, expected: nat, values: seq<Value>, result: Option<Outcome<Value>>)

  /** Right after the `enter` of every one of `n` inputs. */
  function FlattenStart(n: nat): FlattenView
  {
    FlattenView(n, n, [], None)
  }

  /** The notify block: `guard values.count == promises.count`, then
      `fulfill(values)`. */
  function FlattenNotify(z: FlattenView): FlattenView
  {
    if |z.values| == z.expected then z.(result := SettleOutcome(z.result, Success(Array(z.values)))) else z
  }

  /** `leave()`; the notify block runs once the count is back to zero. */
  function FlattenLeave(z: FlattenView): (r: FlattenView)
    requires z.count > 0
    ensures r.count == z.count - 1 && r.expected == z.expected && r.values == z.values
  {
    var left := z.(count := z.count - 1);
    if left.count == 0 then FlattenNotify(left) else left
  }

  /** One input settles: `{ values.append($0); leave() }` on success,
      `{ reject($0); leave() }` on failure. */
  function FlattenArrive(z: FlattenView, o: Outcome<Value>): (r: FlattenView)
    requires z.count > 0
    ensures r.count == z.count - 1 && r.expected == z.expected
  {
    match o
    case Success(v) => FlattenLeave(z.(values := z.values + [v]))
    case Failure(e) => FlattenLeave(z.(result := SettleOutcome(z.result, Failure(e))))
  }

  /** The inputs settle one after the other, as `arrivals` lists them. */
  function FlattenArriveAll(z: FlattenView, arrivals: seq<Arrival>): (r: FlattenView)
    requires |arrivals| <= z.count
    ensures r.count == z.count - |arrivals| && r.expected == z.expected
    decreases |arrivals|
  {
    if arrivals == [] then z
    else FlattenArrive(FlattenArriveAll(z, arrivals[..|arrivals| - 1]), arrivals[|arrivals| - 1].outcome)
  }

  /** The values of the successful arrivals, in arrival order. */
  function SuccessValues(arrivals: seq<Arrival>): (r: seq<Value>)
    ensures |r| <= |arrivals|
    ensures FirstFailure(arrivals).None? ==> |r| == |arrivals|
    decreases |arrivals|
  {
    if arrivals == [] then []
    else
      var last := arrivals[|arrivals| - 1];
      SuccessValues(arrivals[..|arrivals| - 1]) + (if last.outcome.Success? then [last.outcome.value] else [])
  }

  /** The outcome `flatten` promises after `arrivals`, stated without the
      counter: rejected with the first error as soon as an input fails;
      otherwise fulfilled with the values in arrival order once all `n`
      inputs have fulfilled; pending until then. */
  function FlattenExpected(n: nat, arrivals: seq<Arrival>): Option<Outcome<Value>>
  {
    match FirstFailure(arrivals)
    case Some(e) => Some(Failure(e))
    case None => if |arrivals| == n then Some(Success(Array(SuccessValues(arrivals)))) else None
  }

  /** The counter-and-array bookkeeping yields exactly `FlattenExpected`,
      for every order in which the inputs settle. */
  lemma {:induction false} FlattenProgress(n: nat, arrivals: seq<Arrival>)
    requires 0 < n && |arrivals| <= n
    ensures FlattenArriveAll(FlattenStart(n), arrivals).values == SuccessValues(arrivals)
    ensures FlattenArriveAll(FlattenStart(n), arrivals).result == FlattenExpected(n, arrivals)
    decreases |arrivals|
  {
    if arrivals != [] {
      var front := arrivals[..|arrivals| - 1];
      FlattenProgress(n, front);
      var z := FlattenArriveAll(FlattenStart(n), front);
      assert FirstFailure(front).None? ==> z.result.None?;
    }
  }

  /** `flatten([])`: nothing is entered, so the notify block runs at once
      and fulfils the promise with the empty array. */
  lemma FlattenOfNothing()
    ensures FlattenNotify(FlattenStart(0)).result == Some(Success(Array([])))
  {
  }

  /** However the inputs of a `flatten` settle, if all of them fulfil, the
      flattened promise is fulfilled with their values in the order they
      settled. */
  lemma FlattenFulfilsInSettlementOrder(outs: seq<Outcome<Value>>, order: seq<nat>)
    requires 0 < |outs| && IsOrder(order, |outs|)
    requires forall i :: 0 <= i < |outs| ==> outs[i].Success?
    ensures FlattenArriveAll(FlattenStart(|outs|), Arrivals(outs, order)).result ==
              Some(Success(Array(seq(|order|, k requires 0 <= k < |order| => outs[order[k]].value))))
  {
    var arrivals := Arrivals(outs, order);
    FlattenProgress(|outs|, arrivals);
    SuccessValuesOfOrder(outs, order);
  }

  lemma {:induction false} SuccessValuesOfOrder(outs: seq<Outcome<Value>>, order: seq<nat>)
    requires forall k :: 0 <= k < |order| ==> order[k] < |outs| && outs[order[k]].Success?
    ensures SuccessValues(Arrivals(outs, order)) == seq(|order|, k requires 0 <= k < |order| => outs[order[k]].value)
    decreases |order|
  {
    if order != [] {
      var front := order[..|order| - 1];
      assert Arrivals(outs, order)[..|order| - 1] == Arrivals(outs, front);
      SuccessValuesOfOrder(outs, front);
    }
  }

  /** Two inputs that settle in reverse: the array lists the second input's
      value first. */
  lemma FlattenFollowsSettlementNotInputOrder(a: Value, b: Value)
    ensures FlattenArriveAll(FlattenStart(2), [Arrival(1, Success(b)), Arrival(0, Success(a))]).result ==
              Some(Success(Array([b, a])))
  {
    var arrivals := [Arrival(1, Success(b)), Arrival(0, Success(a))];
    FlattenProgress(2, arrivals);
    assert arrivals[..1] == [Arrival(1, Success(b))];
    assert arrivals[..1][..0] == [];
    assert SuccessValues(arrivals[..1]) == [b];
    assert SuccessValues(arrivals) == [b, a];
    assert FirstFailure(arrivals).None?;
    assert FlattenExpected(2, arrivals) == Some(Success(Array([b, a])));
  }

  /** Every element of a fulfilled flattened array is the value some input
      fulfilled with. */
  lemma {:induction false} FlattenedValuesComeFromInputs(arrivals: seq<Arrival>, x: Value)
    requires x in SuccessValues(arrivals)
    ensures exists k :: 0 <= k < |arrivals| && arrivals[k].outcome == Success(x)
    decreases |arrivals|
  {
    var front := arrivals[..|arrivals| - 1];
    var last := arrivals[|arrivals| - 1];
    if x in SuccessValues(front) {
      FlattenedValuesComeFromInputs(front, x);
      var k :| 0 <= k < |front| && front[k].outcome == Success(x);
      assert arrivals[k] == front[k];
    } else {
      assert last.outcome == Success(x);
    }
  }

  /** The first input to fail, in settlement order, rejects the flattened
      promise with its error at once; later settlements, and the notify
      block, change nothing. */
  lemma FlattenRejectsWithFirstError(outs: seq<Outcome<Value>>, order: seq<nat>, j: nat, m: nat)
    requires 0 < |outs| && IsOrder(order, |outs|)
    requires j < m <= |order| && outs[order[j]].Failure?
    requires forall k :: 0 <= k < j ==> outs[order[k]].Success?
    ensures FlattenArriveAll(FlattenStart(|outs|), Arrivals(outs, order[..m])).result == Some(outs[order[j]])
  {
    var arrivals := Arrivals(outs, order[..m]);
    FlattenProgress(|outs|, arrivals);
    FirstFailureAt(arrivals, j);
  }

  /** While some input has not settled and none has failed, the flattened
      promise stays pending. */
  lemma FlattenWaitsForEveryInput(outs: seq<Outcome<Value>>, order: seq<nat>, m: nat)
    requires 0 < |outs| && IsOrder(order, |outs|)
    requires m < |order| && forall k :: 0 <= k < m ==> outs[order[k]].Success?
    ensures FlattenArriveAll(FlattenStart(|outs|), Arrivals(outs, order[..m])).result == None
  {
    FlattenProgress(|outs|, Arrivals(outs, order[..m]));
  }

  /** The group state `flatten` captures: the `DispatchGroup`, `values`,
      `promises.count` and the flattened promise. */
  class FlattenGroup<C> {
    /** Inputs entered and not yet left. */
    var count: nat
    /** `var values: [T]`. */
    var values: seq<Value>
    /** `promises.count`. */
    const expected: nat
    /** The promise `flatten` returns; `fulfill` and `reject` settle it. */
    const result: Promise<Value, C>

    ghost function View(): FlattenView
      reads this, result
    {
      FlattenView(count, expected, values, OutcomeOf(result.state))
    }

    ghost predicate Valid()
      reads this, result
    {
      result.Valid()
    }

    /** `DispatchGroup()` and `var values: [T] = []` for `expected` inputs. */
    constructor (result: Promise<Value, C>, expected: nat)
      ensures this.result == result && this.expected == expected && count == 0 && values == []
    {
      this.result := result;
      this.expected := expected;
      count := 0;
      values := [];
    }

    /** `enter()`. */
    method Enter()
      modifies this
      ensures count == old(count) + 1 && values == old(values)
    {
      count := count + 1;
    }

    /** The success reaction of every input: `{ values.append($0); leave() }`. */
    method Fulfilled(v: Value)
      requires Valid() && count > 0
      modifies this, result
      ensures Valid() && View() == FlattenArrive(old(View()), Success(v))
      ensures result.registered == old(result.registered) && result.delivered == old(result.delivered)
    {
      values := values + [v];
      Leave();
    }

    /** The failure reaction of every input: `{ reject($0); leave() }`. */
    method Rejected(e: Error)
      requires Valid() && count > 0
      modifies this, result
      ensures Valid() && View() == FlattenArrive(old(View()), Failure(e))
      ensures result.registered == old(result.registered) && result.delivered == old(result.delivered)
    {
      OutcomeOfSettle(result.state, Failure(e));
      result.Reject(e);
      Leave();
    }

    /** `leave()`, running the notify block when the count reaches zero. */
    method Leave()
      requires Valid() && count > 0
      modifies this, result
      ensures Valid() && View() == FlattenLeave(old(View()))
      ensures result.registered == old(result.registered) && result.delivered == old(result.delivered)
    {
      count := count - 1;
      if count == 0 {
        Notify();
      }
    }

    /** `group.notify`: a group with nothing entered runs the block at once;
        otherwise the last `leave()` runs it. */
    method NotifyWhenEmpty()
      requires Valid()
      modifies result
      ensures Valid() && View() == if old(count) == 0 then FlattenNotify(old(View())) else old(View())
      ensures old(count) != 0 ==> result.state == old(result.state) && result.scheduled == old(result.scheduled)
      ensures result.registered == old(result.registered) && result.delivered == old(result.delivered)
    {
      if count == 0 {
        Notify();
      }
    }

    /** The notify block: `guard values.count == promises.count`, then
        `fulfill(values)`. */
    method Notify()
      requires Valid()
      modifies result
      ensures Valid() && View() == FlattenNotify(old(View()))
      ensures result.registered == old(result.registered) && result.delivered == old(result.delivered)
    {
      if |values| == expected {
        OutcomeOfSettle(result.state, Success(Array(values)));
        result.Fulfill(Array(values));
      }
    }
  }
}
