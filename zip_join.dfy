/** The join behind `zip` in Sources/Promise+Zip.swift.

    `zip` enters a `DispatchGroup` once per input and gives every input two
    reactions: on success it stores the value in the input's slot
    (`firstValue`, `secondValue`, `thirdValue`), on failure it rejects the
    zipped promise; both then leave the group. When the group is empty the
    notify block fulfils the zipped promise with the tuple of the slots, in
    argument order, unless a slot is still empty.

    `ZipView` and its step functions are that bookkeeping on values;
    `ZipGroup` is the same bookkeeping done in place on the captured
    variables and the zipped promise, proved to follow the view. */
module ZipJoin {
  import opened Outcomes
  import opened Promises
  import opened Groups

  /** The group count, the slots, and the outcome of the zipped promise. */
  datatype ZipView = ZipView(count: nat, slots: seq<Option<Value>>, result: Option<Outcome<Value>>)

  predicate AllFilled(slots: seq<Option<Value>>)
  {
    forall i :: 0 <= i < |slots| ==> slots[i].Some?
  }

  /** The values of filled slots, position for position. */
  function Unwrapped(slots: seq<Option<Value>>): (r: seq<Value>)
    requires AllFilled(slots)
    ensures |r| == |slots| && forall i :: 0 <= i < |r| ==> slots[i] == Some(r[i])
  {
    seq(|slots|, i requires 0 <= i < |slots| => slots[i].value)
  }

  /** `n` slots, none filled yet. */
  function EmptySlots(n: nat): (r: seq<Option<Value>>)
    ensures |r| == n && forall i :: 0 <= i < n ==> r[i].None?
  {
    seq(n, _ => None)
  }

  /** Right after the `enter` of every one of `n` inputs. */
  function ZipStart(n: nat): ZipView
  {
    ZipView(n, EmptySlots(n), None)
  }

  /** The notify block: `guard` every slot is filled, then `fulfill` with
      the tuple. */
  function ZipNotify(z: ZipView): ZipView
  {
    if AllFilled(z.slots) then z.(result := SettleOutcome(z.result, Success(Tuple(Unwrapped(z.slots)))))
    else z
  }

  /** `leave()`; the notify block runs once the count is back to zero. */
  function ZipLeave(z: ZipView): (r: ZipView)
    requires z.count > 0
    ensures r.count == z.count - 1 && r.slots == z.slots
  {
    var left := z.(count := z.count - 1);
    if left.count == 0 then ZipNotify(left) else left
  }

  /** One input settles: `{ slot = $0; leave() }` on success,
      `{ reject($0); leave() }` on failure. */
  function ZipArrive(z: ZipView, a: Arrival): (r: ZipView)
    requires z.count > 0 && a.input < |z.slots|
    ensures r.count == z.count - 1 && |r.slots| == |z.slots|
  {
    match a.outcome
    case Success(v) => ZipLeave(z.(slots := z.slots[a.input := Some(v)]))
    case Failure(e) => ZipLeave(z.(result := SettleOutcome(z.result, Failure(e))))
  }

  /** The inputs settle one after the other, as `arrivals` lists them. */
  function ZipArriveAll(z: ZipView, arrivals: seq<Arrival>): (r: ZipView)
    requires |arrivals| <= z.count
    requires forall k :: 0 <= k < |arrivals| ==> arrivals[k].input < |z.slots|
    ensures r.count == z.count - |arrivals| && |r.slots| == |z.slots|
    decreases |arrivals|
  {
    if arrivals == [] then z
    else ZipArrive(ZipArriveAll(z, arrivals[..|arrivals| - 1]), arrivals[|arrivals| - 1])
  }

  /** What slot `i` holds after `arrivals`: the value of the latest success
      of input `i`, if any. */
  function SlotAfter(arrivals: seq<Arrival>, i: nat): Option<Value>
    decreases |arrivals|
  {
    if arrivals == [] then None
    else
      var last := arrivals[|arrivals| - 1];
      if last.input == i && last.outcome.Success? then Some(last.outcome.value)
      else SlotAfter(arrivals[..|arrivals| - 1], i)
  }

  function Slots(n: nat, arrivals: seq<Arrival>): (r: seq<Option<Value>>)
    ensures |r| == n && forall i :: 0 <= i < n ==> r[i] == SlotAfter(arrivals, i)
  {
    seq(n, i requires 0 <= i < n => SlotAfter(arrivals, i))
  }

  /** The outcome `zip` promises after `arrivals`, stated without the
      counter: rejected with the first error as soon as an input fails;
      otherwise fulfilled with the tuple once all `n` inputs have
      fulfilled; pending until then. */
  function ZipExpected(n: nat, arrivals: seq<Arrival>): Option<Outcome<Value>>
  {
    match FirstFailure(arrivals)
    case Some(e) => Some(Failure(e))
    case None =>
      if |arrivals| == n && AllFilled(Slots(n, arrivals)) then Some(Success(Tuple(Unwrapped(Slots(n, arrivals)))))
      else None
  }

  /** The counter-and-slots bookkeeping yields exactly `ZipExpected`, for
      every order in which the inputs settle. */
  lemma {:induction false} ZipProgress(n: nat, arrivals: seq<Arrival>)
    requires 0 < n && |arrivals| <= n
    requires forall k :: 0 <= k < |arrivals| ==> arrivals[k].input < n
    ensures ZipArriveAll(ZipStart(n), arrivals).slots == Slots(n, arrivals)
    ensures ZipArriveAll(ZipStart(n), arrivals).result == ZipExpected(n, arrivals)
    decreases |arrivals|
  {
    if arrivals == [] {
      assert ZipStart(n).slots == Slots(n, arrivals);
    } else {
      var front := arrivals[..|arrivals| - 1];
      var a := arrivals[|arrivals| - 1];
      ZipProgress(n, front);
      var z := ZipArriveAll(ZipStart(n), front);
      assert ZipArriveAll(ZipStart(n), arrivals) == ZipArrive(z, a);
      assert FirstFailure(front).None? ==> z.result.None?;
      match a.outcome
      case Success(v) =>
        var stored := z.slots[a.input := Some(v)];
        assert stored == Slots(n, arrivals);
      case Failure(e) =>
        assert z.slots == Slots(n, arrivals);
    }
  }

  /** `outs[i]` is how input `i` settles; it fills slot `i` when it arrives. */
  lemma {:induction false} SlotsOfOrder(outs: seq<Outcome<Value>>, order: seq<nat>, i: nat)
    requires forall k :: 0 <= k < |order| ==> order[k] < |outs|
    requires i < |outs| && outs[i].Success?
    ensures i in order ==> SlotAfter(Arrivals(outs, order), i) == Some(outs[i].value)
    ensures i !in order ==> SlotAfter(Arrivals(outs, order), i) == None
    decreases |order|
  {
    if order != [] {
      var front := order[..|order| - 1];
      assert Arrivals(outs, order)[..|order| - 1] == Arrivals(outs, front);
      SlotsOfOrder(outs, front, i);
      assert i in order <==> i in front || order[|order| - 1] == i;
    }
  }

  /** However the inputs of a `zip` settle, if all of them fulfil, the
      zipped promise is fulfilled with their values in argument order. */
  lemma ZipFulfilsInArgumentOrder(outs: seq<Outcome<Value>>, order: seq<nat>)
    requires 0 < |outs| && IsOrder(order, |outs|)
    requires forall i :: 0 <= i < |outs| ==> outs[i].Success?
    ensures ZipArriveAll(ZipStart(|outs|), Arrivals(outs, order)).result ==
              Some(Success(Tuple(seq(|outs|, i requires 0 <= i < |outs| => outs[i].value))))
  {
    OrderCovers(order, |outs|);
    var arrivals := Arrivals(outs, order);
    ZipProgress(|outs|, arrivals);
    var slots := Slots(|outs|, arrivals);
    forall i | 0 <= i < |outs| ensures slots[i] == Some(outs[i].value) {
      SlotsOfOrder(outs, order, i);
    }
    assert AllFilled(slots);
    assert Unwrapped(slots) == seq(|outs|, i requires 0 <= i < |outs| => outs[i].value);
  }

  /** The first input to fail, in settlement order, rejects the zipped
      promise with its error at once; later settlements change nothing. */
  lemma ZipRejectsWithFirstError(outs: seq<Outcome<Value>>, order: seq<nat>, j: nat, m: nat)
    requires 0 < |outs| && IsOrder(order, |outs|)
    requires j < m <= |order| && outs[order[j]].Failure?
    requires forall k :: 0 <= k < j ==> outs[order[k]].Success?
    ensures ZipArriveAll(ZipStart(|outs|), Arrivals(outs, order[..m])).result == Some(outs[order[j]])
  {
    var arrivals := Arrivals(outs, order[..m]);
    ZipProgress(|outs|, arrivals);
    FirstFailureAt(arrivals, j);
  }

  /** While some input has not settled and none has failed, the zipped
      promise stays pending: `fulfill` never runs on a partial tuple. */
  lemma ZipWaitsForEveryInput(outs: seq<Outcome<Value>>, order: seq<nat>, m: nat)
    requires 0 < |outs| && IsOrder(order, |outs|)
    requires m < |order| && forall k :: 0 <= k < m ==> outs[order[k]].Success?
    ensures ZipArriveAll(ZipStart(|outs|), Arrivals(outs, order[..m])).result == None
  {
    ZipProgress(|outs|, Arrivals(outs, order[..m]));
  }

  /** The group state `zip` captures: the `DispatchGroup`, the optional
      slot variables and the zipped promise. */
  class ZipGroup<C> {
    /** Inputs entered and not yet left. */
    var count: nat
    /** `firstValue`, `secondValue` (and `thirdValue`). */
    var slots: seq<Option<Value>>
    /** The promise `zip` returns; `fulfill` and `reject` settle it. */
    const result: Promise<Value, C>

    ghost function View(): ZipView
      reads this, result
    {
      ZipView(count, slots, OutcomeOf(result.state))
    }

    ghost predicate Valid()
      reads this, result
    {
      result.Valid()
    }

    /** `DispatchGroup()` and `var firstValue: Value?` … for `arity` inputs. */
    constructor (result: Promise<Value, C>, arity: nat)
      ensures this.result == result && count == 0 && slots == EmptySlots(arity)
    {
      this.result := result;
      count := 0;
      slots := EmptySlots(arity);
    }

    /** `enter()`. */
    method Enter()
      modifies this
      ensures count == old(count) + 1 && slots == old(slots)
    {
      count := count + 1;
    }

    /** The success reaction of input `slot`: `{ slot = $0; leave() }`. */
    method Fulfilled(slot: nat, v: Value)
      requires Valid() && count > 0 && slot < |slots|
      modifies this, result
      ensures Valid() && View() == ZipArrive(old(View()), Arrival(slot, Success(v)))
      ensures result.registered == old(result.registered) && result.delivered == old(result.delivered)
    {
      slots := slots[slot := Some(v)];
      Leave();
    }

    /** The failure reaction of every input: `{ reject($0); leave() }`. */
    method Rejected(slot: nat, e: Error)
      requires Valid() && count > 0 && slot < |slots|
      modifies this, result
      ensures Valid() && View() == ZipArrive(old(View()), Arrival(slot, Failure(e)))
      ensures result.registered == old(result.registered) && result.delivered == old(result.delivered)
    {
      OutcomeOfSettle(result.state, Failure(e));
      result.Reject(e);
      Leave();
    }

    /** `leave()`, running the notify block when the count reaches zero. */
    method Leave()
      requires Valid() && count > 0
      modifies this, result
      ensures Valid() && View() == ZipLeave(old(View()))
      ensures result.registered == old(result.registered) && result.delivered == old(result.delivered)
    {
      count := count - 1;
      if count == 0 {
        Notify();
      }
    }

    /** The notify block: `guard let` every slot, then `fulfill` with the
        tuple in argument order. */
    method Notify()
      requires Valid()
      modifies result
      ensures Valid() && View() == ZipNotify(old(View()))
      ensures result.registered == old(result.registered) && result.delivered == old(result.delivered)
    {
      if AllFilled(slots) {
        OutcomeOfSettle(result.state, Success(Tuple(Unwrapped(slots))));
        result.Fulfill(Tuple(Unwrapped(slots)));
      }
    }
  }
}
