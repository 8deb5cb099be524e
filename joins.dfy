/** What `zip` and `flatten` register on their inputs.

    Both call a private `DispatchGroup.append` once per input, in argument
    order; it enters the group and adds two callbacks to the input, one for
    each way it can settle. The same promise may be passed more than once,
    and then receives the callbacks of every position it holds. */
module Joins {
  import opened Outcomes
  import opened Promises
  import opened ZipJoin
  import opened FlattenJoin
  import opened Reactions

  /** The group an `append` joins an input to. */
  datatype Join = ZipOf(zip: ZipGroup<Callback>) | FlattenOf(flatten: FlattenGroup<Callback>)

  /** The two callbacks `append` adds to the input in position `i`:
      `then { fulfill($0); leave() }` and `catch { reject($0); leave() }`,
      where a zip's `fulfill` fills slot `i` and flatten's appends. */
  function CallbacksAt(j: Join, i: nat): seq<Callback>
  {
    match j
    case ZipOf(z) => [Callback(ZipFulfilled(z, i), IgnoreError), Callback(IgnoreValue, ZipRejected(z, i))]
    case FlattenOf(g) => [Callback(FlattenFulfilled(g), IgnoreError), Callback(IgnoreValue, FlattenRejected(g))]
  }

  /** The callbacks `q` has received once the inputs before position `n`
      are appended. */
  function Registrations(inputs: seq<P>, j: Join, q: P, n: nat): (r: seq<Callback>)
    requires n <= |inputs|
    ensures q !in inputs[..n] ==> r == []
    decreases n
  {
    if n == 0 then []
    else Registrations(inputs, j, q, n - 1) + (if inputs[n - 1] == q then CallbacksAt(j, n - 1) else [])
  }

  /** Every input `q` has received, since its snapshot in `before`, the
      callbacks of the positions before `n`. */
  ghost predicate AppendedUpTo(inputs: seq<P>, j: Join, before: map<P, Snapshot>, n: nat)
    requires n <= |inputs|
    reads inputs
  {
    && (forall q :: q in inputs ==> q in before)
    && forall q {:trigger Registrations(inputs, j, q, n)} :: q in inputs ==>
         q.Valid() && Extends(SnapshotOf(q), before[q], Registrations(inputs, j, q, n))
  }

  /** Before any `append`, every input has received nothing. */
  lemma NothingAppended(inputs: seq<P>, j: Join, before: map<P, Snapshot>)
    requires forall q :: q in inputs ==> q in before && q.Valid() && before[q] == SnapshotOf(q)
    ensures AppendedUpTo(inputs, j, before, 0)
  {
    forall q | q in inputs
      ensures Extends(SnapshotOf(q), before[q], Registrations(inputs, j, q, 0))
    {
      ExtendsByNothing(before[q]);
    }
  }

  /** The snapshots of the inputs in the current state. */
  ghost function Snapshots(inputs: seq<P>): (r: map<P, Snapshot>)
    reads inputs
    ensures forall q :: q in inputs ==> q in r && r[q] == SnapshotOf(q)
  {
    map q | q in inputs :: SnapshotOf(q)
  }

  /** What one `append` does to one input `q`: the input appended is
      extended by the callbacks of its position, any other keeps what it
      had. */
  lemma AppendStepAt(inputs: seq<P>, j: Join, i: nat, q: P, before: Snapshot, mid: Snapshot, after: Snapshot)
    requires i < |inputs|
    requires Extends(mid, before, Registrations(inputs, j, q, i))
    requires q == inputs[i] ==> Extends(after, mid, CallbacksAt(j, i))
    requires q != inputs[i] ==> after == mid
    ensures Extends(after, before, Registrations(inputs, j, q, i + 1))
  {
    if q == inputs[i] {
      ExtendsTransitive(before, mid, after, Registrations(inputs, j, q, i), CallbacksAt(j, i));
    } else {
      var r := Registrations(inputs, j, q, i);
      assert r + [] == r;
    }
  }

  /** One `append`: input `i` is extended by its callbacks and every other
      input keeps its snapshot, so every input has received the callbacks
      of the positions up to `i`. */
  lemma AppendStep(inputs: seq<P>, j: Join, i: nat,
                   before: map<P, Snapshot>, mid: map<P, Snapshot>, after: map<P, Snapshot>)
    requires i < |inputs|
    requires forall q :: q in inputs ==> q in before && q in mid && q in after
    requires forall q :: q in inputs ==> Extends(mid[q], before[q], Registrations(inputs, j, q, i))
    requires Extends(after[inputs[i]], mid[inputs[i]], CallbacksAt(j, i))
    requires forall q :: q in inputs && q != inputs[i] ==> after[q] == mid[q]
    ensures forall q :: q in inputs ==> Extends(after[q], before[q], Registrations(inputs, j, q, i + 1))
  {
    forall q | q in inputs
      ensures Extends(after[q], before[q], Registrations(inputs, j, q, i + 1))
    {
      AppendStepAt(inputs, j, i, q, before[q], mid[q], after[q]);
    }
  }

  /** Every input received, between the two states, the callbacks of
      every position it holds, in argument order, and nothing else: its
      snapshot extends its old one by exactly those callbacks. */
  twostate predicate AllAdded(inputs: seq<P>, new j: Join)
    reads inputs
  {
    AppendedUpTo(inputs, j, old(Snapshots(inputs)), |inputs|)
  }

  /** A promise passed once, at position `i`, receives exactly that
      position's callbacks. */
  lemma {:induction false} RegistrationsOfOnce(inputs: seq<P>, j: Join, i: nat, n: nat)
    requires i < n <= |inputs|
    requires forall k :: 0 <= k < n && k != i ==> inputs[k] != inputs[i]
    ensures Registrations(inputs, j, inputs[i], n) == CallbacksAt(j, i)
    decreases n
  {
    var cs := CallbacksAt(j, i);
    if n - 1 == i {
      assert inputs[i] !in inputs[..i];
      assert Registrations(inputs, j, inputs[i], i) == [];
      assert [] + cs == cs;
    } else {
      RegistrationsOfOnce(inputs, j, i, n - 1);
      assert inputs[n - 1] != inputs[i];
      assert cs + [] == cs;
    }
  }
}
