/** `zip(with:)` and `zip(with:and:)` of Sources/Promise+Zip.swift.

    Each builds the zipped promise with `Promise(work:)`, whose work runs at
    once: it makes a `DispatchGroup` and the slot variables (a `ZipGroup`),
    appends every input in argument order, and registers the notify block,
    which `ZipGroup.Leave` runs when the count reaches zero. Since every
    reaction of an input runs from a block on a queue, no input can leave
    before all have entered. */
module Zip {
  import opened Outcomes
  import opened Promises
  import opened Groups
  import opened ZipJoin
  import opened Reactions
  import opened Joins
  import opened Then

  /** `DispatchGroup.append` for the input in position `slot`. */
  method Append(z: ZipGroup<Callback>, p: P, slot: nat)
    requires p.Valid()
    modifies z, p
    ensures z.count == old(z.count) + 1 && z.slots == old(z.slots)
    ensures AddedAll(p, CallbacksAt(ZipOf(z), slot))
  {
    ghost var s0 := SnapshotOf(p);
    z.Enter();
    var _ := ThenOnly(p, ZipFulfilled(z, slot));
    ghost var s1 := SnapshotOf(p);
    AddedOne(s0, s1, Callback(ZipFulfilled(z, slot), IgnoreError));
    var _ := Catch(p, ZipRejected(z, slot));
    AddedOne(s1, SnapshotOf(p), Callback(IgnoreValue, ZipRejected(z, slot)));
    ExtendsTransitive(s0, s1, SnapshotOf(p), [Callback(ZipFulfilled(z, slot), IgnoreError)],
                      [Callback(IgnoreValue, ZipRejected(z, slot))]);
  }

  /** `group.append` of the input in position `i` of `inputs`, with the
      bookkeeping of what every input has received so far. */
  method AppendInput(z: ZipGroup<Callback>, inputs: seq<P>, i: nat, ghost before: map<P, Snapshot>)
    requires i < |inputs| && AppendedUpTo(inputs, ZipOf(z), before, i)
    modifies z, inputs[i]
    ensures z.count == old(z.count) + 1 && z.slots == old(z.slots)
    ensures AppendedUpTo(inputs, ZipOf(z), before, i + 1)
  {
    ghost var mid := Snapshots(inputs);
    ghost var received := Registrations(inputs, ZipOf(z), inputs[i], i);
    Append(z, inputs[i], i);
    AppendStep(inputs, ZipOf(z), i, before, mid, Snapshots(inputs));
  }

  /** Exactly one of an input's two callbacks reacts to its outcome, and
      that reaction is the input's arrival at the group. */
  lemma InputArrivesOnce(z: ZipGroup<Callback>, slot: nat, o: Outcome<Value>)
    ensures React(CallbacksAt(ZipOf(z), slot)[0], o) == if o.Success? then ZipStep(z, Arrival(slot, o)) else NoEffect
    ensures React(CallbacksAt(ZipOf(z), slot)[1], o) == if o.Failure? then ZipStep(z, Arrival(slot, o)) else NoEffect
  {
  }

  /** The `group.append` lines of `zip`, one per input in argument order:
      every input receives the callbacks of every position it holds. */
  method AppendAll(z: ZipGroup<Callback>, inputs: seq<P>, ghost before: map<P, Snapshot>)
    requires forall q :: q in inputs ==> q in before && q.Valid() && before[q] == SnapshotOf(q)
    modifies z, inputs
    ensures z.count == old(z.count) + |inputs| && z.slots == old(z.slots)
    ensures AppendedUpTo(inputs, ZipOf(z), before, |inputs|)
  {
    NothingAppended(inputs, ZipOf(z), before);
    var i := 0;
    while i < |inputs|
      invariant i <= |inputs|
      invariant z.count == old(z.count) + i && z.slots == old(z.slots)
      invariant AppendedUpTo(inputs, ZipOf(z), before, i)
    {
      AppendInput(z, inputs, i, before);
      i := i + 1;
    }
  }

  /** `self.zip(with: other)`: a pending zipped promise, a group waiting
      for both inputs, and each input given the callbacks of every
      position it holds. */
  method Zip2(self: P, other: P, queue: Queue) returns (r: P, z: ZipGroup<Callback>)
    requires self.Valid() && other.Valid()
    modifies self, other
    ensures fresh(r) && fresh(z) && z.result == r
    ensures r.Valid() && r.state == Pending([]) && r.queue == Main
    ensures r.scheduled == [] && r.registered == [] && r.delivered == []
    ensures z.Valid() && z.View() == ZipStart(2)
    ensures AllAdded([self, other], ZipOf(z))
  {
    var inputs := [self, other];
    ghost var before := Snapshots(inputs);
    r := new Promise();
    z := new ZipGroup(r, 2);
    AppendAll(z, inputs, before);
  }

  /** `self.zip(with: second, and: third)`. */
  method Zip3(self: P, second: P, third: P, queue: Queue) returns (r: P, z: ZipGroup<Callback>)
    requires self.Valid() && second.Valid() && third.Valid()
    modifies self, second, third
    ensures fresh(r) && fresh(z) && z.result == r
    ensures r.Valid() && r.state == Pending([]) && r.queue == Main
    ensures r.scheduled == [] && r.registered == [] && r.delivered == []
    ensures z.Valid() && z.View() == ZipStart(3)
    ensures AllAdded([self, second, third], ZipOf(z))
  {
    var inputs := [self, second, third];
    ghost var before := Snapshots(inputs);
    r := new Promise();
    z := new ZipGroup(r, 3);
    AppendAll(z, inputs, before);
  }

  /** Distinct inputs each receive exactly the two callbacks of their own
      position. */
  lemma DistinctInputsGetTheirSlot(inputs: seq<P>, z: ZipGroup<Callback>, i: nat)
    requires i < |inputs|
    requires forall k, l :: 0 <= k < l < |inputs| ==> inputs[k] != inputs[l]
    ensures Registrations(inputs, ZipOf(z), inputs[i], |inputs|) == CallbacksAt(ZipOf(z), i)
  {
    RegistrationsOfOnce(inputs, ZipOf(z), i, |inputs|);
  }
}
