/** `flatten(_:on:)` of Sources/Promise+Flatten.swift.

    `flatten` builds its promise with `Promise(work, on: queue)`. The work
    makes a `DispatchGroup` and `values` (a `FlattenGroup`), appends every
    input with `forEach`, and registers the notify block: with no input the
    group is already empty and the block runs at once, otherwise
    `FlattenGroup.Leave` runs it when the last input leaves. */
module Flatten {
  import opened Outcomes
  import opened Promises
  import opened FlattenJoin
  import opened Reactions
  import opened Joins
  import opened Then

  /** `DispatchGroup.append` of one input. */
  method Append(g: FlattenGroup<Callback>, p: P, i: nat)
    requires p.Valid()
    modifies g, p
    ensures g.count == old(g.count) + 1 && g.values == old(g.values)
    ensures AddedAll(p, CallbacksAt(FlattenOf(g), i))
  {
    ghost var s0 := SnapshotOf(p);
    g.Enter();
    var _ := ThenOnly(p, FlattenFulfilled(g));
    ghost var s1 := SnapshotOf(p);
    AddedOne(s0, s1, Callback(FlattenFulfilled(g), IgnoreError));
    var _ := Catch(p, FlattenRejected(g));
    AddedOne(s1, SnapshotOf(p), Callback(IgnoreValue, FlattenRejected(g)));
    ExtendsTransitive(s0, s1, SnapshotOf(p), [Callback(FlattenFulfilled(g), IgnoreError)],
                      [Callback(IgnoreValue, FlattenRejected(g))]);
  }

  /** `append` of input `i` of `inputs`, with the bookkeeping of what
      every input has received so far. */
  method AppendInput(g: FlattenGroup<Callback>, inputs: seq<P>, i: nat, ghost before: map<P, Snapshot>)
    requires i < |inputs| && AppendedUpTo(inputs, FlattenOf(g), before, i)
    modifies g, inputs[i]
    ensures g.count == old(g.count) + 1 && g.values == old(g.values)
    ensures AppendedUpTo(inputs, FlattenOf(g), before, i + 1)
  {
    ghost var mid := Snapshots(inputs);
    ghost var received := Registrations(inputs, FlattenOf(g), inputs[i], i);
    Append(g, inputs[i], i);
    AppendStep(inputs, FlattenOf(g), i, before, mid, Snapshots(inputs));
  }

  /** `promises.forEach { group.append($0, …) }`: every input receives the
      two callbacks once for every position it holds. */
  method AppendAll(g: FlattenGroup<Callback>, inputs: seq<P>, ghost before: map<P, Snapshot>)
    requires forall q :: q in inputs ==> q in before && q.Valid() && before[q] == SnapshotOf(q)
    modifies g, inputs
    ensures g.count == old(g.count) + |inputs| && g.values == old(g.values)
    ensures AppendedUpTo(inputs, FlattenOf(g), before, |inputs|)
  {
    NothingAppended(inputs, FlattenOf(g), before);
    var i := 0;
    while i < |inputs|
      invariant i <= |inputs|
      invariant g.count == old(g.count) + i && g.values == old(g.values)
      invariant AppendedUpTo(inputs, FlattenOf(g), before, i)
    {
      AppendInput(g, inputs, i, before);
      i := i + 1;
    }
  }

  /** Exactly one of an input's two callbacks reacts to its outcome, and
      that reaction is the input's arrival at the group. */
  lemma InputArrivesOnce(g: FlattenGroup<Callback>, i: nat, o: Outcome<Value>)
    ensures React(CallbacksAt(FlattenOf(g), i)[0], o) == if o.Success? then FlattenStep(g, o) else NoEffect
    ensures React(CallbacksAt(FlattenOf(g), i)[1], o) == if o.Failure? then FlattenStep(g, o) else NoEffect
  {
  }

  /** `flatten(promises, on: queue)`: a promise on `queue`, a group waiting
      for every input, and each input given the two callbacks once per
      position it holds. With no input the promise is fulfilled with the
      empty array at once. */
  method Flatten(promises: seq<P>, queue: Queue) returns (r: P, g: FlattenGroup<Callback>)
    requires forall q :: q in promises ==> q.Valid()
    modifies promises
    ensures fresh(r) && fresh(g) && g.result == r && r.queue == queue
    ensures r.Valid() && r.registered == [] && r.delivered == []
    ensures g.Valid() && g.View() == if promises == [] then FlattenNotify(FlattenStart(0)) else FlattenStart(|promises|)
    ensures promises == [] ==> r.state == Fulfilled(Array([]))
    ensures promises != [] ==> r.state == Pending([]) && r.scheduled == []
    ensures AllAdded(promises, FlattenOf(g))
  {
    ghost var before := Snapshots(promises);
    r := new Promise(queue);
    g := new FlattenGroup(r, |promises|);
    AppendAll(g, promises, before);
    g.NotifyWhenEmpty();
  }

  /** Distinct inputs each receive the two callbacks exactly once. */
  lemma DistinctInputsJoinOnce(inputs: seq<P>, g: FlattenGroup<Callback>, i: nat)
    requires i < |inputs|
    requires forall k, l :: 0 <= k < l < |inputs| ==> inputs[k] != inputs[l]
    ensures Registrations(inputs, FlattenOf(g), inputs[i], |inputs|) == CallbacksAt(FlattenOf(g), i)
  {
    RegistrationsOfOnce(inputs, FlattenOf(g), i, |inputs|);
  }
}
