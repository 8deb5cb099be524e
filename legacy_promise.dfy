/** The older promise of VCPromises/Source/Promise.swift.

    Same state machine as the current one, but reactions run synchronously,
    inside the call that triggers them, and settlement fires only the first
    callback that was waiting. The reactions a call runs are its result;
    `invoked` keeps all of them, in order. */
module LegacyPromises {
  import opened Outcomes
  import opened Promises

  /** A closure of the caller: `{ _ in }`, or the caller's closure number `id`. */
  datatype Reaction = Ignore | Call(id: nat)

  /** `Callback`: a success reaction and a failure reaction. */
  datatype Callback = Callback(fulfill: Reaction, reject: Reaction)

  /** `fireIfCompleted` of this version: `callbacks.first` receives the
      outcome; a promise with no callback fires nothing. */
  function FireFirst<V, C>(callbacks: seq<C>, o: Outcome<V>): (r: seq<Delivery<V, C>>)
    ensures |r| <= 1 && (r == [] <==> callbacks == [])
    ensures forall d :: d in r ==> d == Delivery(callbacks[0], o)
  {
    if callbacks == [] then [] else [Delivery(callbacks[0], o)]
  }

  /** Every reaction a settled legacy promise has run: the first callback
      that was waiting at settlement, then every callback registered after
      settlement, each once, in registration order. */
  function LegacyDeliveries<V, C>(waiting: seq<C>, later: seq<C>, o: Outcome<V>): seq<Delivery<V, C>>
  {
    FireFirst(waiting, o) + FireBlock(later, o)
  }

  /** The outcome reaches a callback registered while pending only if it
      was the first one: a second waiting callback never runs, where the
      current promise delivers the outcome to it. */
  lemma SecondWaiterNeverFires<V, C>(waiting: seq<C>, later: seq<C>, o: Outcome<V>)
    requires |waiting| >= 2 && waiting[1] != waiting[0] && waiting[1] !in later
    ensures forall d :: d in LegacyDeliveries(waiting, later, o) ==> d.callback != waiting[1]
    ensures Delivery(waiting[1], o) in FireBlock(waiting + later, o)
  {
    var all := FireBlock(waiting + later, o);
    assert all[1] == Delivery(waiting[1], o);
    forall d | d in LegacyDeliveries(waiting, later, o) ensures d.callback != waiting[1] {
      if d in FireBlock(later, o) {
        var i :| 0 <= i < |FireBlock(later, o)| && FireBlock(later, o)[i] == d;
        assert d.callback == later[i];
      }
    }
  }

  /** A callback registered after settlement runs once, after everything
      that ran before, and leaves the waiting list where it was. */
  lemma RegisterAfterSettling<V, C>(waiting: seq<C>, registered: seq<C>, c: C, o: Outcome<V>)
    requires |waiting| <= |registered| && waiting == registered[..|waiting|]
    ensures (registered + [c])[..|waiting|] == waiting
    ensures LegacyDeliveries(waiting, (registered + [c])[|waiting|..], o) ==
            LegacyDeliveries(waiting, registered[|waiting|..], o) + [Delivery(c, o)]
  {
    var later := registered[|waiting|..];
    assert (registered + [c])[|waiting|..] == later + [c];
    FireBlockAppend(later, [c], o);
    assert FireBlock([c], o) == [Delivery(c, o)];
  }

  /** `Promise<Value>` of VCPromises. */
  class LegacyPromise<V> {
    /** `private var state`. */
    var state: State<V, Callback>
    /** Every callback ever passed to `addCallbacks`, in order. */
    ghost var registered: seq<Callback>
    /** The callback list `updateState` found when it settled the promise. */
    ghost var waiting: seq<Callback>
    /** Every reaction run so far, in order. */
    ghost var invoked: seq<Delivery<V, Callback>>

    /** While pending, the list holds every registered callback and nothing
        has run. Once settled, what ran is the first waiting callback's
        reaction followed by one reaction per later registration. */
    ghost predicate Valid()
      reads this
    {
      if state.Pending? then
        state.callbacks == registered && invoked == []
      else
        |waiting| <= |registered| && waiting == registered[..|waiting|] &&
        invoked == LegacyDeliveries(waiting, registered[|waiting|..], OutcomeOf(state).value)
    }

    /** `init()`. */
    constructor ()
      ensures Valid() && state == Pending([]) && registered == [] && invoked == []
    {
      state := Pending([]);
      registered := [];
      waiting := [];
      invoked := [];
    }

    /** `init(value:)`. */
    constructor WithValue(value: V)
      ensures Valid() && state == Fulfilled(value) && registered == [] && invoked == []
    {
      state := Fulfilled(value);
      registered := [];
      waiting := [];
      invoked := [];
    }

    /** `init(error:)`. */
    constructor WithError(error: Error)
      ensures Valid() && state == Rejected(error) && registered == [] && invoked == []
    {
      state := Rejected(error);
      registered := [];
      waiting := [];
      invoked := [];
    }

    /** `init(work:)`: the work runs at once, inside the initialiser; its
        calls settle the promise (the first one counts) and a thrown error
        rejects it. No callback exists yet, so nothing fires. */
    constructor WithWork(work: Work<V>)
      ensures Valid() && registered == [] && invoked == []
      ensures state == SettleAll(Pending([]), WorkCalls(work))
    {
      state := Pending([]);
      registered := [];
      waiting := [];
      invoked := [];
      new;
      var calls := WorkCalls(work);
      var i := 0;
      while i < |calls|
        invariant 0 <= i <= |calls|
        invariant Valid() && registered == [] && invoked == []
        invariant state == SettleAll(Pending([]), calls[..i])
      {
        SettleAllStep<V, Callback>(Pending([]), calls[..i], calls[i]);
        assert calls[..i + 1] == calls[..i] + [calls[i]];
        var ran := UpdateState(calls[i]);
        i := i + 1;
      }
      assert calls[..i] == calls;
    }

    /** `reject(_:)`. */
    method Reject(error: Error) returns (ran: seq<Delivery<V, Callback>>)
      requires Valid()
      modifies this
      ensures Valid() && registered == old(registered)
      ensures state == Settle(old(state), Failure(error))
      ensures ran == (if old(state).Pending? then FireFirst(old(state).callbacks, Failure(error)) else [])
      ensures invoked == old(invoked) + ran
    {
      ran := UpdateState(Failure(error));
    }

    /** `fulfill(_:)`. */
    method Fulfill(value: V) returns (ran: seq<Delivery<V, Callback>>)
      requires Valid()
      modifies this
      ensures Valid() && registered == old(registered)
      ensures state == Settle(old(state), Success(value))
      ensures ran == (if old(state).Pending? then FireFirst(old(state).callbacks, Success(value)) else [])
      ensures invoked == old(invoked) + ran
    {
      ran := UpdateState(Success(value));
    }

    /** `catch(_:)`: registers `{ _ in }` with the given failure reaction and
        returns the same promise. */
    method Catch(reject: Reaction) returns (self: LegacyPromise<V>, ran: seq<Delivery<V, Callback>>)
      requires Valid()
      modifies this
      ensures self == this && Valid()
      ensures registered == old(registered) + [Callback(Ignore, reject)]
      ensures ran == (if old(state).Pending? then []
                      else [Delivery(Callback(Ignore, reject), OutcomeOf(old(state)).value)])
      ensures invoked == old(invoked) + ran
    {
      ran := AddCallbacks(Callback(Ignore, reject));
      self := this;
    }

    /** `addCallbacks(_:_:)`: a pending promise appends the callback; a
        settled one runs the matching reaction at once, exactly once, and
        keeps its state. */
    method AddCallbacks(callback: Callback) returns (ran: seq<Delivery<V, Callback>>)
      requires Valid()
      modifies this
      ensures Valid() && registered == old(registered) + [callback]
      ensures old(state).Pending? ==> state == Pending(old(state).callbacks + [callback]) && ran == []
      ensures !old(state).Pending? ==>
                state == old(state) && ran == [Delivery(callback, OutcomeOf(old(state)).value)]
      ensures invoked == old(invoked) + ran
    {
      if state.Pending? {
        state := Pending(state.callbacks + [callback]);
        registered := registered + [callback];
        ran := [];
      } else {
        var o := OutcomeOf(state).value;
        ran := [Delivery(callback, o)];
        RegisterAfterSettling(waiting, registered, callback, o);
        registered := registered + [callback];
        invoked := invoked + ran;
      }
    }

    /** `updateState(_:)`: ignored unless pending; otherwise the promise
        takes the outcome and fires. */
    method UpdateState(o: Outcome<V>) returns (ran: seq<Delivery<V, Callback>>)
      requires Valid()
      modifies this
      ensures Valid() && registered == old(registered)
      ensures state == Settle(old(state), o)
      ensures ran == (if old(state).Pending? then FireFirst(old(state).callbacks, o) else [])
      ensures invoked == old(invoked) + ran
    {
      if !state.Pending? {
        return [];
      }
      var callbacks := state.callbacks;
      state := StateOf(o);
      waiting := callbacks;
      ran := FireIfCompleted(callbacks);
      assert registered[|waiting|..] == [];
    }

    /** `fireIfCompleted(callbacks:)`: only the first callback, if there is
        one, receives the settled outcome. */
    method FireIfCompleted(callbacks: seq<Callback>) returns (ran: seq<Delivery<V, Callback>>)
      modifies this
      ensures state == old(state) && registered == old(registered) && waiting == old(waiting)
      ensures ran == (if state.Pending? then [] else FireFirst(callbacks, OutcomeOf(state).value))
      ensures invoked == old(invoked) + ran
    {
      if callbacks == [] {
        return [];
      }
      var callback := callbacks[0];
      ran := match state
        case Pending(_) => []
        case Fulfilled(value) => [Delivery(callback, Success(value))]
        case Rejected(error) => [Delivery(callback, Failure(error))];
      invoked := invoked + ran;
    }
  }
}
