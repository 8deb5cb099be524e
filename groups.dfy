/** What the joins `zip` and `flatten` share: the inputs they wait for
    settle one after the other, in an order nobody controls, and each
    settlement runs one of the two reactions `DispatchGroup.append`
    registered for it. */
module Groups {
  import opened Outcomes

  /** One input of a join settling: which input, and how. */
  datatype Arrival = Arrival(input: nat, outcome: Outcome<Value>)

  /** `0, 1, …, n - 1`. */
  function Range(n: nat): (r: seq<nat>)
    ensures |r| == n && forall i :: 0 <= i < n ==> r[i] == i
  {
    seq(n, i => i)
  }

  /** `order` lists every input of an `n`-input join exactly once: it is a
      permutation of `Range(n)`. */
  ghost predicate IsOrder(order: seq<nat>, n: nat)
  {
    && |order| == n
    && (forall k :: 0 <= k < |order| ==> order[k] < n)
    && multiset(order) == multiset(Range(n))
  }

  /** Every input appears in a settlement order. */
  lemma OrderCovers(order: seq<nat>, n: nat)
    requires IsOrder(order, n)
    ensures forall i :: 0 <= i < n ==> i in order
  {
    forall i | 0 <= i < n ensures i in order {
      assert Range(n)[i] == i;
      assert i in multiset(Range(n));
    }
  }

  /** The arrivals of inputs settling in `order`, input `i` with `outs[i]`. */
  function Arrivals(outs: seq<Outcome<Value>>, order: seq<nat>): (r: seq<Arrival>)
    requires forall k :: 0 <= k < |order| ==> order[k] < |outs|
    ensures |r| == |order|
    ensures forall k :: 0 <= k < |r| ==> r[k] == Arrival(order[k], outs[order[k]])
  {
    seq(|order|, k requires 0 <= k < |order| => Arrival(order[k], outs[order[k]]))
  }

  /** The error of the earliest rejection among `arrivals`, if any. */
  function FirstFailure(arrivals: seq<Arrival>): (r: Option<Error>)
    ensures r.None? <==> forall k :: 0 <= k < |arrivals| ==> arrivals[k].outcome.Success?
    ensures r.Some? ==> exists k :: 0 <= k < |arrivals| && arrivals[k].outcome == Failure(r.value) &&
                          forall j :: 0 <= j < k ==> arrivals[j].outcome.Success?
    decreases |arrivals|
  {
    if arrivals == [] then None
    else
      var front := arrivals[..|arrivals| - 1];
      var last := arrivals[|arrivals| - 1];
      if FirstFailure(front).Some? then FirstFailure(front)
      else if last.outcome.Failure? then Some(last.outcome.error)
      else None
  }

  /** The first rejection, wherever it sits, is the one `FirstFailure` names. */
  lemma {:induction false} FirstFailureAt(arrivals: seq<Arrival>, k: nat)
    requires k < |arrivals| && arrivals[k].outcome.Failure?
    requires forall j :: 0 <= j < k ==> arrivals[j].outcome.Success?
    ensures FirstFailure(arrivals) == Some(arrivals[k].outcome.error)
    decreases |arrivals|
  {
    var front := arrivals[..|arrivals| - 1];
    if k < |arrivals| - 1 {
      FirstFailureAt(front, k);
    } else {
      assert FirstFailure(front).None?;
    }
  }
}
