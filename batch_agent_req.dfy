/** BatchAgentReq: splits the time range of one request into consecutive
    sub-requests of at most one slice each. */
module BatchAgentReqs {
  import opened Wrappers
  import opened IndexQueries
  import opened AgentReqs

  /** The boundary timestamps computeInterval produces: lower, lower + slice,
      lower + 2 * slice, ... while below upper, then upper itself. */
  function Boundaries(lower: int, upper: int, slice: int): seq<int>
    requires slice > 0
    decreases if lower < upper then upper - lower else 0
  {
    if lower < upper then [lower] + Boundaries(lower + slice, upper, slice) else [upper]
  }

  /** computeInterval: the while loop that collects the boundaries. */
  method ComputeInterval(lower: int, upper: int, slice: int) returns (interval: seq<int>)
    requires slice > 0
    ensures interval == Boundaries(lower, upper, slice)
  {
    var current := lower;
    interval := [];
    assert interval + Boundaries(current, upper, slice) == Boundaries(lower, upper, slice);
    while current < upper
      invariant interval + Boundaries(current, upper, slice) == Boundaries(lower, upper, slice)
      decreases upper - current
    {
      assert Boundaries(current, upper, slice) == [current] + Boundaries(current + slice, upper, slice);
      interval := interval + [current];
      current := current + slice;
    }
    interval := interval + [upper];
  }

  /** The sub-request for the i-th pair of neighbouring boundaries. */
  function SubRequest(path: PathRef, query: IndexQuery, typeRef: ResultShape, lower: int, upper: int): (r: AgentReq)
    ensures r.path == path && r.typeRef == typeRef && r.query.Some?
    ensures r.query.value.from == Some(lower) && r.query.value.to == Some(upper)
    ensures r.query.value.lastOrFirst == query.lastOrFirst && r.query.value.group == query.group
  {
    AgentReq(path, Some(Copy(query, Some(lower), Some(upper))), typeRef)
  }

  /** What getRequests returns: one sub-request per pair of neighbouring
      boundaries, in ascending order. */
  function SubRequests(path: PathRef, query: IndexQuery, typeRef: ResultShape, times: seq<int>): (rs: seq<AgentReq>)
    ensures |rs| == if times == [] then 0 else |times| - 1
  {
    if |times| < 2 then []
    else seq(|times| - 1, i requires 0 <= i < |times| - 1 => SubRequest(path, query, typeRef, times[i], times[i + 1]))
  }

  class BatchAgentReq {
    const path: PathRef
    const query: IndexQuery
    const typeRef: ResultShape
    /** The boundary list computed once by the constructor. */
    const times: seq<int>

    ghost predicate Valid() {
      times != []
    }

    /** The constructor needs a query with a lower bound and a positive
        slice; a missing upper bound means the current time. */
    constructor (path: PathRef, query: IndexQuery, slice: int, now: int, typeRef: ResultShape)
      requires query.from.Some?
      requires slice > 0
      ensures Valid()
      ensures this.path == path && this.query == query && this.typeRef == typeRef
      ensures times == Boundaries(query.from.value, if query.to.Some? then query.to.value else now, slice)
    {
      var upper := if query.to.Some? then query.to.value else now;
      var interval := ComputeInterval(query.from.value, upper, slice);
      BoundariesShape(query.from.value, upper, slice);
      this.path := path;
      this.query := query;
      this.typeRef := typeRef;
      this.times := interval;
    }

    /** getRequests: walks the boundaries, pairing each with the next one.
        The boundary list is never empty, so the IllegalStateException the
        source raises for an empty list cannot occur. */
    method GetRequests() returns (rs: seq<AgentReq>)
      requires Valid()
      ensures rs == SubRequests(path, query, typeRef, times)
    {
      rs := [];
      var lower := times[0];
      var k := 1;
      while k < |times|
        invariant 1 <= k <= |times|
        invariant lower == times[k - 1]
        invariant |rs| == k - 1
        invariant forall i :: 0 <= i < k - 1 ==> rs[i] == SubRequest(path, query, typeRef, times[i], times[i + 1])
      {
        var upper := times[k];
        rs := rs + [SubRequest(path, query, typeRef, lower, upper)];
        lower := upper;
        k := k + 1;
      }
      assert forall i :: 0 <= i < |rs| ==> rs[i] == SubRequests(path, query, typeRef, times)[i];
    }
  }

  // ---------------------------------------------------------------------
  // The boundary list

  /** The boundaries are lower + i * slice below upper, followed by upper. */
  lemma {:induction false} BoundariesShape(lower: int, upper: int, slice: int)
    requires slice > 0
    ensures |Boundaries(lower, upper, slice)| >= 1
    ensures Boundaries(lower, upper, slice)[|Boundaries(lower, upper, slice)| - 1] == upper
    ensures forall i :: 0 <= i < |Boundaries(lower, upper, slice)| - 1 ==>
      Boundaries(lower, upper, slice)[i] == lower + i * slice && Boundaries(lower, upper, slice)[i] < upper
    decreases if lower < upper then upper - lower else 0
  {
    if lower < upper {
      var ts := Boundaries(lower, upper, slice);
      var rest := Boundaries(lower + slice, upper, slice);
      BoundariesShape(lower + slice, upper, slice);
      assert ts == [lower] + rest;
      forall i | 1 <= i < |ts| - 1
        ensures ts[i] == lower + i * slice
      {
        assert ts[i] == rest[i - 1] == lower + slice + (i - 1) * slice;
      }
    }
  }

  /** When lower >= upper the list is just [upper]; otherwise it starts at lower. */
  lemma BoundariesEnds(lower: int, upper: int, slice: int)
    requires slice > 0
    ensures lower >= upper ==> Boundaries(lower, upper, slice) == [upper]
    ensures lower < upper ==> |Boundaries(lower, upper, slice)| >= 2 && Boundaries(lower, upper, slice)[0] == lower
  {
    if lower < upper {
      BoundariesShape(lower + slice, upper, slice);
    }
  }

  /** The boundaries are strictly increasing. */
  lemma BoundariesIncreasing(lower: int, upper: int, slice: int)
    requires slice > 0
    ensures forall i, j :: 0 <= i < j < |Boundaries(lower, upper, slice)| ==>
      Boundaries(lower, upper, slice)[i] < Boundaries(lower, upper, slice)[j]
  {
    var ts := Boundaries(lower, upper, slice);
    BoundariesShape(lower, upper, slice);
    forall i, j | 0 <= i < j < |ts|
      ensures ts[i] < ts[j]
    {
      if j < |ts| - 1 {
        MulStrictlyMonotone(i, j, slice);
      }
    }
  }

  lemma MulStrictlyMonotone(i: int, j: int, slice: int)
    requires i < j && slice > 0
    ensures i * slice < j * slice
  {
    assert j * slice - i * slice == (j - i) * slice;
  }

  /** Every slice is exactly one slice wide except the last, which is
      positive and at most one slice wide (upper - lower need not be a multiple
      of the slice). */
  lemma BoundariesWidths(lower: int, upper: int, slice: int)
    requires slice > 0 && lower < upper
    ensures (var ts := Boundaries(lower, upper, slice);
      |ts| >= 2
      && (forall i :: 0 <= i < |ts| - 2 ==> ts[i + 1] - ts[i] == slice)
      && 0 < ts[|ts| - 1] - ts[|ts| - 2] <= slice)
  {
    var ts := Boundaries(lower, upper, slice);
    BoundariesShape(lower, upper, slice);
    BoundariesEnds(lower, upper, slice);
    var n := |ts|;
    forall i | 0 <= i < n - 2
      ensures ts[i + 1] - ts[i] == slice
    {
      assert ts[i + 1] - ts[i] == lower + (i + 1) * slice - (lower + i * slice);
    }
    if n > 2 {
      // the boundary before the last one is the last multiple below upper
      var rest := Boundaries(ts[n - 2] + slice, upper, slice);
      BoundariesSuffix(lower, upper, slice, n - 2);
      assert Boundaries(ts[n - 2], upper, slice) == ts[n - 2..];
      assert ts[n - 2..] == [ts[n - 2], upper];
      assert rest == [upper];
      BoundariesEnds(ts[n - 2] + slice, upper, slice);
    } else {
      assert ts == [lower] + Boundaries(lower + slice, upper, slice);
      BoundariesEnds(lower + slice, upper, slice);
    }
  }

  /** Dropping the first k boundaries leaves the boundaries computed from the k-th one. */
  lemma {:induction false} BoundariesSuffix(lower: int, upper: int, slice: int, k: nat)
    requires slice > 0 && k < |Boundaries(lower, upper, slice)| - 1
    ensures Boundaries(lower, upper, slice)[k..] == Boundaries(Boundaries(lower, upper, slice)[k], upper, slice)
    decreases k
  {
    if k > 0 {
      var ts := Boundaries(lower, upper, slice);
      assert lower < upper;
      assert ts[k..] == Boundaries(lower + slice, upper, slice)[k - 1..];
      BoundariesSuffix(lower + slice, upper, slice, k - 1);
    }
  }

  /** For lower < upper the number of sub-requests n is ceil((upper - lower) / slice):
      (n - 1) * slice < upper - lower <= n * slice. */
  lemma {:induction false} BoundariesCount(lower: int, upper: int, slice: int)
    requires slice > 0 && lower < upper
    ensures (var n := |Boundaries(lower, upper, slice)| - 1;
      (n - 1) * slice < upper - lower <= n * slice)
    decreases upper - lower
  {
    var n := |Boundaries(lower, upper, slice)| - 1;
    if lower + slice < upper {
      BoundariesCount(lower + slice, upper, slice);
      assert |Boundaries(lower + slice, upper, slice)| - 1 == n - 1;
      assert (n - 1) * slice == (n - 2) * slice + slice;
      assert n * slice == (n - 1) * slice + slice;
    } else {
      BoundariesEnds(lower + slice, upper, slice);
      assert n == 1;
    }
  }

  // ---------------------------------------------------------------------
  // The sub-requests

  /** Every sub-request keeps the path, the result tag, the last/first flag
      and the grouping; only the range differs, and it is the i-th pair of
      neighbouring boundaries. */
  lemma SubRequestsKeepAllButRange(path: PathRef, query: IndexQuery, typeRef: ResultShape, times: seq<int>)
    ensures var rs := SubRequests(path, query, typeRef, times);
      forall i :: 0 <= i < |rs| ==>
        rs[i].path == path && rs[i].typeRef == typeRef && rs[i].query.Some?
        && rs[i].query.value.lastOrFirst == query.lastOrFirst
        && rs[i].query.value.group == query.group
        && rs[i].query.value.from == Some(times[i]) && rs[i].query.value.to == Some(times[i + 1])
  {
    var rs := SubRequests(path, query, typeRef, times);
    forall i | 0 <= i < |rs|
      ensures rs[i] == SubRequest(path, query, typeRef, times[i], times[i + 1])
    {
    }
  }

  /** Each sub-request's upper bound is the next one's lower bound. */
  lemma SubRequestsContiguous(path: PathRef, query: IndexQuery, typeRef: ResultShape, times: seq<int>)
    ensures var rs := SubRequests(path, query, typeRef, times);
      forall i :: 0 <= i < |rs| - 1 ==> rs[i].query.value.to == rs[i + 1].query.value.from
  {
  }

  /** The plan for lower < upper: ceil((upper - lower) / slice) sub-requests
      in ascending order, the first starting at lower and the last ending
      exactly at upper. */
  lemma PlanCoversRange(path: PathRef, query: IndexQuery, typeRef: ResultShape, lower: int, upper: int, slice: int)
    requires slice > 0 && lower < upper
    ensures var rs := SubRequests(path, query, typeRef, Boundaries(lower, upper, slice));
      |rs| >= 1 && (|rs| - 1) * slice < upper - lower <= |rs| * slice
      && rs[0].query == Some(Copy(query, Some(lower), Some(Boundaries(lower, upper, slice)[1])))
      && rs[|rs| - 1].query.value.to == Some(upper)
  {
    BoundariesEnds(lower, upper, slice);
    BoundariesShape(lower, upper, slice);
    BoundariesCount(lower, upper, slice);
  }

  /** Every sub-request of the plan is non-empty; all but the last are
      exactly one slice wide and the last is at most one slice wide. */
  lemma PlanWidths(path: PathRef, query: IndexQuery, typeRef: ResultShape, lower: int, upper: int, slice: int)
    requires slice > 0 && lower < upper
    ensures var rs := SubRequests(path, query, typeRef, Boundaries(lower, upper, slice));
      (forall i :: 0 <= i < |rs| ==> rs[i].query.value.from.value < rs[i].query.value.to.value)
      && (forall i :: 0 <= i < |rs| - 1 ==> rs[i].query.value.to.value - rs[i].query.value.from.value == slice)
      && |rs| >= 1
      && rs[|rs| - 1].query.value.to.value - rs[|rs| - 1].query.value.from.value <= slice
  {
    var ts := Boundaries(lower, upper, slice);
    var rs := SubRequests(path, query, typeRef, ts);
    BoundariesIncreasing(lower, upper, slice);
    BoundariesWidths(lower, upper, slice);
    forall i | 0 <= i < |rs|
      ensures rs[i].query.value.from.value == ts[i] && rs[i].query.value.to.value == ts[i + 1]
    {
      SubRequestRange(path, query, typeRef, ts, i);
    }
  }

  /** The i-th sub-request covers the range from the i-th to the (i+1)-th
      boundary. */
  lemma SubRequestRange(path: PathRef, query: IndexQuery, typeRef: ResultShape, times: seq<int>, i: int)
    requires 0 <= i < |times| - 1
    ensures SubRequests(path, query, typeRef, times)[i].query == Some(Copy(query, Some(times[i]), Some(times[i + 1])))
  {
  }

  /** When lower >= upper the boundary list is [upper] and no sub-request
      comes out. */
  lemma EmptyRangeYieldsNothing(path: PathRef, query: IndexQuery, typeRef: ResultShape, lower: int, upper: int, slice: int)
    requires slice > 0 && lower >= upper
    ensures Boundaries(lower, upper, slice) == [upper]
    ensures SubRequests(path, query, typeRef, Boundaries(lower, upper, slice)) == []
  {
  }

  /** 1000 to 5000 in slices of 2000 gives the boundaries [1000, 3000, 5000]:
      the sub-requests (1000, 3000) and (3000, 5000). */
  lemma BoundariesExample()
    ensures Boundaries(1000, 5000, 2000) == [1000, 3000, 5000]
  {
  }
}
