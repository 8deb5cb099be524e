/** The promise state machine of Sources/Promise.swift.

    A promise is pending with a list of callbacks, or settled with a value or
    an error. Settling happens once; later settlements are ignored. Reactions
    never run inside `addCallbacks` or `updateState`: they are handed to the
    promise's dispatch queue as blocks, which the queue runs later in FIFO
    order. The queue is modelled by the list of blocks handed to it and not
    yet run; `RunScheduled` is the queue running the oldest one.

    The callback type `C` is left abstract: the promise stores callbacks and
    calls them, and never looks inside. */
module Promises {
  import opened Outcomes

  /** `Promise.State`. */
  datatype State<V, C> = Pending(callbacks: seq<C>) | Fulfilled(value: V) | Rejected(error: Error)

  /** The settled state that carries outcome `o`. */
  function StateOf<V, C>(o: Outcome<V>): State<V, C>
  {
    match o
    case Success(v) => Fulfilled(v)
    case Failure(e) => Rejected(e)
  }

  /** The outcome a state has settled with, if it has. */
  function OutcomeOf<V, C>(s: State<V, C>): (r: Option<Outcome<V>>)
    ensures r.None? <==> s.Pending?
    ensures r.Some? ==> StateOf(r.value) == s
  {
    match s
    case Pending(_) => None
    case Fulfilled(v) => Some(Success(v))
    case Rejected(e) => Some(Failure(e))
  }

  /** One reaction: `callback.fulfill(value)` or `callback.reject(error)`,
      according to the outcome. */
  datatype Delivery<V, C> = Delivery(callback: C, outcome: Outcome<V>)

  /** What the work closure of `init(_:on:)` does when it runs: the calls it
      makes to `fulfill` and `reject`, in order, and the error it throws, if
      it throws. */
  datatype Work<V> = Work(calls: seq<Outcome<V>>, thrown: Option<Error>)

  /** A block handed to `queue.async`: a batch of reactions (`enqueue`), or
      the work of `init(_:on:)`. */
  datatype Job<V, C> = Fire(deliveries: seq<Delivery<V, C>>) | StartWork(work: Work<V>)

  /** `callbacks.forEach { $0.fulfill(value) }` (or `$0.reject(error)`): every
      callback, in order, receives the outcome once. */
  function FireBlock<V, C>(callbacks: seq<C>, o: Outcome<V>): (r: seq<Delivery<V, C>>)
    ensures |r| == |callbacks|
    ensures forall i :: 0 <= i < |r| ==> r[i].callback == callbacks[i] && r[i].outcome == o
  {
    if callbacks == [] then [] else [Delivery(callbacks[0], o)] + FireBlock(callbacks[1..], o)
  }

  lemma FireBlockAppend<V, C>(a: seq<C>, b: seq<C>, o: Outcome<V>)
    ensures FireBlock(a + b, o) == FireBlock(a, o) + FireBlock(b, o)
  {
    var l, r := FireBlock(a + b, o), FireBlock(a, o) + FireBlock(b, o);
    assert |l| == |r|;
    forall i | 0 <= i < |l| ensures l[i] == r[i] {
      if i < |a| {
        assert r[i] == FireBlock(a, o)[i];
      } else {
        assert r[i] == FireBlock(b, o)[i - |a|];
      }
    }
  }

  /** The reactions still waiting in a list of scheduled blocks, in the
      order the queue will run them. */
  function Deliveries<V, C>(jobs: seq<Job<V, C>>): seq<Delivery<V, C>>
  {
    if jobs == [] then []
    else (if jobs[0].Fire? then jobs[0].deliveries else []) + Deliveries(jobs[1..])
  }

  lemma {:induction false} DeliveriesAppend<V, C>(a: seq<Job<V, C>>, b: seq<Job<V, C>>)
    ensures Deliveries(a + b) == Deliveries(a) + Deliveries(b)
  {
    if a == [] {
      assert a + b == b;
    } else {
      assert (a + b)[1..] == a[1..] + b;
      DeliveriesAppend(a[1..], b);
    }
  }

  /** `updateState(newState)`: only a pending promise takes the new state. */
  function Settle<V, C>(s: State<V, C>, o: Outcome<V>): State<V, C>
  {
    if s.Pending? then StateOf(o) else s
  }

  /** Settle-once on outcomes alone: what `updateState` does to the outcome
      a promise has settled with. */
  function SettleOutcome<V>(r: Option<Outcome<V>>, o: Outcome<V>): Option<Outcome<V>>
  {
    if r.None? then Some(o) else r
  }

  lemma OutcomeOfSettle<V, C>(s: State<V, C>, o: Outcome<V>)
    ensures OutcomeOf(Settle(s, o)) == SettleOutcome(OutcomeOf(s), o)
  {
  }

  /** The state after a sequence of `fulfill` / `reject` calls. */
  function SettleAll<V, C>(s: State<V, C>, os: seq<Outcome<V>>): State<V, C>
    decreases |os|
  {
    if os == [] then s else SettleAll(Settle(s, os[0]), os[1..])
  }

  /** Settle-once: whatever calls follow, the first settlement of a pending
      promise is the one it keeps, and a settled promise never changes. */
  lemma {:induction false} FirstSettlementWins<V, C>(s: State<V, C>, os: seq<Outcome<V>>)
    ensures SettleAll(s, os) == if s.Pending? && os != [] then StateOf(os[0]) else s
    decreases |os|
  {
    if os != [] {
      FirstSettlementWins(Settle(s, os[0]), os[1..]);
    }
  }

  /** The `fulfill` / `reject` calls a run of `work` makes, the thrown error
      turned into a final `reject` (the `catch` of `init(_:on:)`). */
  function WorkCalls<V>(w: Work<V>): (r: seq<Outcome<V>>)
    ensures |r| == |w.calls| + (if w.thrown.Some? then 1 else 0)
    ensures r[..|w.calls|] == w.calls
    ensures w.thrown.Some? ==> r[|w.calls|] == Failure(w.thrown.value)
  {
    w.calls + (match w.thrown case Some(e) => [Failure(e)] case None => [])
  }

  /** A work closure that throws before settling the promise leaves it
      rejected with the thrown error; one that settles first keeps that
      settlement, the throw notwithstanding. */
  lemma WorkOutcome<V, C>(callbacks: seq<C>, w: Work<V>)
    ensures w.calls == [] && w.thrown.Some? ==>
              SettleAll(Pending(callbacks), WorkCalls(w)) == Rejected(w.thrown.value)
    ensures w.calls != [] ==> SettleAll(Pending(callbacks), WorkCalls(w)) == StateOf(w.calls[0])
    ensures w.calls == [] && w.thrown.None? ==> SettleAll(Pending(callbacks), WorkCalls(w)) == Pending(callbacks)
  {
    FirstSettlementWins(Pending(callbacks), WorkCalls(w));
  }

  /** The block `updateState` hands to the queue when it settles `s` with
      `o`: all callbacks waiting in `s`, or nothing if `s` was settled. */
  function SettleJobs<V, C>(s: State<V, C>, o: Outcome<V>): seq<Job<V, C>>
  {
    if s.Pending? then [Fire(FireBlock(s.callbacks, o))] else []
  }

  /** The blocks a sequence of settlement calls hands to the queue. */
  function SettleAllJobs<V, C>(s: State<V, C>, os: seq<Outcome<V>>): seq<Job<V, C>>
    decreases |os|
  {
    if os == [] then [] else SettleJobs(s, os[0]) + SettleAllJobs(Settle(s, os[0]), os[1..])
  }

  /** However many settlement calls are made, at most one block of
      reactions is scheduled: the one of the first call on a pending
      promise, holding every waiting callback. */
  lemma {:induction false} AtMostOneSettleBlock<V, C>(s: State<V, C>, os: seq<Outcome<V>>)
    ensures SettleAllJobs(s, os) ==
              if s.Pending? && os != [] then [Fire(FireBlock(s.callbacks, os[0]))] else []
    decreases |os|
  {
    if os != [] {
      AtMostOneSettleBlock(Settle(s, os[0]), os[1..]);
    }
  }

  lemma SettleAllStep<V, C>(s: State<V, C>, os: seq<Outcome<V>>, o: Outcome<V>)
    ensures SettleAll(s, os + [o]) == Settle(SettleAll(s, os), o)
    ensures SettleAllJobs(s, os + [o]) == SettleAllJobs(s, os) + SettleJobs(SettleAll(s, os), o)
  {
    FirstSettlementWins(s, os);
    FirstSettlementWins(s, os + [o]);
    AtMostOneSettleBlock(s, os);
    AtMostOneSettleBlock(s, os + [o]);
    if os != [] {
      assert (os + [o])[0] == os[0];
    }
  }

  /** The state after `addCallbacks` of each of `cs`, in order: a pending
      promise appends them, a settled one keeps its state. */
  function RegisterAll<V, C>(s: State<V, C>, cs: seq<C>): State<V, C>
  {
    if s.Pending? then Pending(s.callbacks + cs) else s
  }

  /** One block per callback, each delivering `o` to that callback alone. */
  function Singles<V, C>(cs: seq<C>, o: Outcome<V>): (r: seq<Job<V, C>>)
    ensures |r| == |cs|
  {
    if cs == [] then [] else [Fire([Delivery(cs[0], o)])] + Singles(cs[1..], o)
  }

  /** The single blocks of `a + b` are those of `a` followed by those of `b`. */
  lemma {:induction false} SinglesAppend<V, C>(a: seq<C>, b: seq<C>, o: Outcome<V>)
    ensures Singles(a + b, o) == Singles(a, o) + Singles(b, o)
    decreases |a|
  {
    if a == [] {
      assert a + b == b;
    } else {
      assert (a + b)[1..] == a[1..] + b;
      SinglesAppend(a[1..], b, o);
    }
  }

  /** The blocks `addCallbacks` of each of `cs` hands to the queue: none
      while pending, one single reaction per callback once settled. */
  function RegisterJobs<V, C>(s: State<V, C>, cs: seq<C>): seq<Job<V, C>>
  {
    if s.Pending? then [] else Singles(cs, OutcomeOf(s).value)
  }

  /** What `AddCallbacks` does, in the terms of `RegisterAll` and
      `RegisterJobs`. */
  lemma RegisterOne<V, C>(s: State<V, C>, c: C)
    ensures RegisterAll(s, [c]) == if s.Pending? then Pending(s.callbacks + [c]) else s
    ensures RegisterJobs(s, [c]) == if s.Pending? then [] else [Fire([Delivery(c, OutcomeOf(s).value)])]
  {
    if !s.Pending? {
      assert Singles([c], OutcomeOf(s).value) == [Fire([Delivery(c, OutcomeOf(s).value)])];
    }
  }

  /** Registering `a` and then `b` is registering `a + b`. */
  lemma RegisterAllAppend<V, C>(s: State<V, C>, a: seq<C>, b: seq<C>)
    ensures RegisterAll(RegisterAll(s, a), b) == RegisterAll(s, a + b)
    ensures RegisterJobs(s, a) + RegisterJobs(RegisterAll(s, a), b) == RegisterJobs(s, a + b)
  {
    if s.Pending? {
      assert s.callbacks + a + b == s.callbacks + (a + b);
    } else {
      var o := OutcomeOf(s).value;
      SinglesAppend(a, b, o);
    }
  }

  /** The reactions a run of single blocks delivers are the callbacks'
      reactions in order, as one block would deliver them. */
  lemma {:induction false} SinglesDeliver<V, C>(cs: seq<C>, o: Outcome<V>)
    ensures Deliveries(Singles(cs, o)) == FireBlock(cs, o)
    decreases |cs|
  {
    if cs != [] {
      DeliveriesAppend([Fire([Delivery(cs[0], o)])], Singles(cs[1..], o));
      SinglesDeliver(cs[1..], o);
    }
  }

  /** `Promise<Value>`. */
  class Promise<V, C> {
    /** `private var state`. */
    var state: State<V, C>
    /** `let queue`: where this promise runs its reactions. */
    const queue: Queue
    /** The blocks this promise has handed to `queue.async` and the queue
        has not run yet, oldest first. */
    var scheduled: seq<Job<V, C>>
    /** Every callback ever passed to `addCallbacks`, in order. */
    ghost var registered: seq<C>
    /** Every reaction the queue has already run, in order. */
    ghost var delivered: seq<Delivery<V, C>>

    /** While pending, the callback list is exactly what was registered and
        no reaction has been scheduled or run. Once settled, the reactions
        already run followed by those still scheduled are exactly one per
        registered callback, in registration order, each with the settled
        outcome. */
    ghost predicate Valid()
      reads this
    {
      if state.Pending? then
        state.callbacks == registered && delivered == [] && Deliveries(scheduled) == []
      else
        delivered + Deliveries(scheduled) == FireBlock(registered, OutcomeOf(state).value)
    }

    /** `init(queue:)`. */
    constructor (queue: Queue := Main)
      ensures Valid() && state == Pending([]) && this.queue == queue
      ensures scheduled == [] && registered == [] && delivered == []
    {
      state := Pending([]);
      this.queue := queue;
      scheduled := [];
      registered := [];
      delivered := [];
    }

    /** `init(value:queue:)`. */
    constructor WithValue(value: V, queue: Queue := Main)
      ensures Valid() && state == Fulfilled(value) && this.queue == queue
      ensures scheduled == [] && registered == [] && delivered == []
    {
      state := Fulfilled(value);
      this.queue := queue;
      scheduled := [];
      registered := [];
      delivered := [];
    }

    /** `init(error:queue:)`. */
    constructor WithError(error: Error, queue: Queue := Main)
      ensures Valid() && state == Rejected(error) && this.queue == queue
      ensures scheduled == [] && registered == [] && delivered == []
    {
      state := Rejected(error);
      this.queue := queue;
      scheduled := [];
      registered := [];
      delivered := [];
    }

    /** `init(_ work:on:)`: a pending promise whose work is handed to the
        queue, not run at once. */
    constructor WithWork(work: Work<V>, queue: Queue := Main)
      ensures Valid() && state == Pending([]) && this.queue == queue
      ensures scheduled == [StartWork(work)] && registered == [] && delivered == []
    {
      state := Pending([]);
      this.queue := queue;
      scheduled := [StartWork(work)];
      registered := [];
      delivered := [];
    }

    /** `reject(_:)`. */
    method Reject(error: Error)
      requires Valid()
      modifies this
      ensures Valid()
      ensures state == Settle(old(state), Failure(error))
      ensures scheduled == old(scheduled) + SettleJobs(old(state), Failure(error))
      ensures registered == old(registered) && delivered == old(delivered)
    {
      UpdateState(Failure(error));
    }

    /** `fulfill(_:)`. */
    method Fulfill(value: V)
      requires Valid()
      modifies this
      ensures Valid()
      ensures state == Settle(old(state), Success(value))
      ensures scheduled == old(scheduled) + SettleJobs(old(state), Success(value))
      ensures registered == old(registered) && delivered == old(delivered)
    {
      UpdateState(Success(value));
    }

    /** `addCallbacks(_:_:)`: a pending promise appends the callback to its
        list and schedules nothing; a settled one keeps its state and
        schedules the one matching reaction. Nothing runs here. */
    method AddCallbacks(callback: C)
      requires Valid()
      modifies this
      ensures Valid()
      ensures registered == old(registered) + [callback] && delivered == old(delivered)
      ensures old(state).Pending? ==>
                state == Pending(old(state).callbacks + [callback]) && scheduled == old(scheduled)
      ensures !old(state).Pending? ==>
                state == old(state) &&
                scheduled == old(scheduled) + [Fire([Delivery(callback, OutcomeOf(old(state)).value)])]
    {
      match state
      case Pending(callbacks) =>
        state := Pending(callbacks + [callback]);
        registered := registered + [callback];
      case Fulfilled(value) =>
        Enqueue(Fire([Delivery(callback, Success(value))]));
        SettledRegistration(Success(value), callback);
        registered := registered + [callback];
      case Rejected(error) =>
        Enqueue(Fire([Delivery(callback, Failure(error))]));
        SettledRegistration(Failure(error), callback);
        registered := registered + [callback];
    }

    /** The bookkeeping behind `AddCallbacks` on a settled promise: one more
        registered callback, one more scheduled reaction for it. */
    lemma SettledRegistration(o: Outcome<V>, callback: C)
      requires |scheduled| > 0 && scheduled[|scheduled| - 1] == Fire([Delivery(callback, o)])
      requires delivered + Deliveries(scheduled[..|scheduled| - 1]) == FireBlock(registered, o)
      ensures delivered + Deliveries(scheduled) == FireBlock(registered + [callback], o)
    {
      var front := scheduled[..|scheduled| - 1];
      assert scheduled == front + [Fire([Delivery(callback, o)])];
      DeliveriesAppend(front, [Fire([Delivery(callback, o)])]);
      FireBlockAppend(registered, [callback], o);
    }

    /** `updateState(_:)`: ignored unless pending; otherwise the promise
        takes the outcome and hands its waiting callbacks to the queue. */
    method UpdateState(o: Outcome<V>)
      requires Valid()
      modifies this
      ensures Valid()
      ensures state == Settle(old(state), o)
      ensures scheduled == old(scheduled) + SettleJobs(old(state), o)
      ensures registered == old(registered) && delivered == old(delivered)
    {
      if !state.Pending? {
        return;
      }
      var callbacks := state.callbacks;
      state := StateOf(o);
      FireIfCompleted(callbacks);
      DeliveriesAppend(old(scheduled), [Fire(FireBlock(callbacks, o))]);
    }

    /** `fireIfCompleted(callbacks:)`: a settled promise schedules one block
        that runs the matching reaction of every given callback, in order. */
    method FireIfCompleted(callbacks: seq<C>)
      modifies this
      ensures state == old(state) && registered == old(registered) && delivered == old(delivered)
      ensures scheduled == old(scheduled) +
                (if state.Pending? then [] else [Fire(FireBlock(callbacks, OutcomeOf(state).value))])
    {
      match state
      case Pending(_) =>
      case Fulfilled(value) => Enqueue(Fire(FireBlock(callbacks, Success(value))));
      case Rejected(error) => Enqueue(Fire(FireBlock(callbacks, Failure(error))));
    }

    /** `enqueue(_:)`: `queue.async`, which appends the block behind every
        block handed to the queue before. */
    method Enqueue(job: Job<V, C>)
      modifies this
      ensures scheduled == old(scheduled) + [job]
      ensures state == old(state) && registered == old(registered) && delivered == old(delivered)
    {
      scheduled := scheduled + [job];
    }

    /** The queue runs the oldest block this promise handed to it: a batch
        of reactions is delivered, in order, or the work of `init(_:on:)`
        runs. */
    method RunScheduled() returns (ran: seq<Delivery<V, C>>)
      requires Valid() && scheduled != []
      modifies this
      ensures Valid() && registered == old(registered)
      ensures old(scheduled[0]).Fire? ==>
                ran == old(scheduled[0]).deliveries && delivered == old(delivered) + ran &&
                state == old(state) && scheduled == old(scheduled[1..])
      ensures old(scheduled[0]).StartWork? ==>
                ran == [] && delivered == old(delivered) &&
                state == SettleAll(old(state), WorkCalls(old(scheduled[0]).work)) &&
                scheduled == old(scheduled[1..]) + SettleAllJobs(old(state), WorkCalls(old(scheduled[0]).work))
    {
      var job := scheduled[0];
      assert scheduled == [job] + scheduled[1..];
      DeliveriesAppend([job], scheduled[1..]);
      assert Deliveries(scheduled) == Deliveries([job]) + Deliveries(scheduled[1..]);
      scheduled := scheduled[1..];
      match job
      case Fire(deliveries) =>
        assert Deliveries([job]) == deliveries;
        ran := deliveries;
        delivered := delivered + deliveries;
      case StartWork(work) =>
        assert Deliveries([job]) == [];
        ran := [];
        RunWork(work);
    }

    /** The block of `init(_:on:)`: the work makes its `fulfill` / `reject`
        calls in order and, if it throws, the promise is rejected with the
        thrown error. Settle-once decides which call counts. */
    method RunWork(work: Work<V>)
      requires Valid()
      modifies this
      ensures Valid() && registered == old(registered) && delivered == old(delivered)
      ensures state == SettleAll(old(state), WorkCalls(work))
      ensures scheduled == old(scheduled) + SettleAllJobs(old(state), WorkCalls(work))
    {
      var calls := WorkCalls(work);
      var i := 0;
      while i < |calls|
        invariant 0 <= i <= |calls|
        invariant Valid() && registered == old(registered) && delivered == old(delivered)
        invariant state == SettleAll(old(state), calls[..i])
        invariant scheduled == old(scheduled) + SettleAllJobs(old(state), calls[..i])
      {
        SettleAllStep(old(state), calls[..i], calls[i]);
        assert calls[..i + 1] == calls[..i] + [calls[i]];
        UpdateState(calls[i]);
        i := i + 1;
      }
      assert calls[..i] == calls;
    }
  }
}
