/** BatchReqFactory: the batch counterpart of SingleReqFactory. Each query
    method builds a BatchAgentReq over the same predicate path and the same
    query shape as its single-shot counterpart; the batch splits the range
    into slices of the factory's job timeframe. */
module BatchReqFactories {
  import opened Wrappers
  import opened Groupings
  import opened IndexQueries
  import opened AgentReqs
  import opened EqFilters
  import opened BatchAgentReqs
  import IndexFilterings
  import SingleReqFactories

  /** The upper end a batch splits to: the query's own, or the current time. */
  function UpperOr(upper: Option<int>, now: int): int {
    if upper.Some? then upper.value else now
  }

  class BatchReqFactory {
    /** The job timeframe, in milliseconds. */
    const slice: int

    constructor (slice: int)
      ensures this.slice == slice
    {
      this.slice := slice;
    }

    /** A batch query factory filtering by the client id alone. */
    method ForClientId(clientId: string) returns (f: BatchQueryFactory)
      ensures fresh(f) && fresh(f.filtering) && f.filtering.Valid()
      ensures f.filtering.filtering == [IndexFilterings.ClientPredicate(clientId)]
      ensures f.slice == slice
    {
      var filtering := new IndexFilterings.IndexFiltering.ForClient(clientId);
      f := new BatchQueryFactory(filtering, slice);
    }

    /** A batch query factory filtering by the client id and one more
        predicate. */
    method ForClientIdAnd(clientId: string, equals: Eq) returns (f: BatchQueryFactory)
      ensures fresh(f) && fresh(f.filtering) && f.filtering.Valid()
      ensures f.filtering.filtering == IndexFilterings.Add([IndexFilterings.ClientPredicate(clientId)], equals)
      ensures f.slice == slice
    {
      var filtering := new IndexFilterings.IndexFiltering.ForClientAnd(clientId, equals);
      f := new BatchQueryFactory(filtering, slice);
    }
  }

  class BatchQueryFactory {
    /** The predicate path shared by every batch of this factory. */
    const filtering: IndexFilterings.IndexFiltering
    /** The job timeframe, in milliseconds. */
    const slice: int

    constructor (filtering: IndexFilterings.IndexFiltering, slice: int)
      ensures this.filtering == filtering && this.slice == slice
    {
      this.filtering := filtering;
      this.slice := slice;
    }

    /** A batch of this factory: it reads through this factory's predicate
        path, asks for the result shape its query calls for, and is split
        from the query's lower bound to its upper bound (or now) in slices
        of this factory's timeframe. */
    predicate Plans(b: BatchAgentReq, now: int)
      requires slice > 0
    {
      b.query.from.Some?
      && b.path == Filtering(filtering)
      && b.typeRef == SingleReqFactories.ShapeOf(Some(b.query))
      && b.times == Boundaries(b.query.from.value, UpperOr(b.query.to, now), slice)
    }

    /** Entries in a time range; the lower end is asserted non-null. */
    method ForTimeConstraining(lower: Option<int>, upper: Option<int>, now: int) returns (b: BatchAgentReq)
      requires lower.Some?
      requires slice > 0
      ensures fresh(b) && b.Valid() && Plans(b, now) && b.typeRef == LogEntrySet
      ensures b.query == IndexQuery(lower, upper, None, None)
    {
      var query := IndexQuery(lower, upper, None, None);
      b := new BatchAgentReq(Filtering(filtering), query, slice, now, LogEntrySet);
    }

    /** The last or first entry of each slice; the lower end and the flag
        are asserted non-null. */
    method ForLastOrFirstConstraining(lower: Option<int>, upper: Option<int>, isLastOrFirst: Option<bool>, now: int) returns (b: BatchAgentReq)
      requires lower.Some?
      requires isLastOrFirst.Some?
      requires slice > 0
      ensures fresh(b) && b.Valid() && Plans(b, now) && b.typeRef == SingleLogEntry
      ensures b.query == IndexQuery(lower, upper, isLastOrFirst, None)
    {
      var query := IndexQuery(lower, upper, isLastOrFirst, None);
      b := new BatchAgentReq(Filtering(filtering), query, slice, now, SingleLogEntry);
    }

    /** Entries grouped by one property; the lower end and the grouping are
        asserted non-null. */
    method ForGrouping(lower: Option<int>, upper: Option<int>, group: Option<By>, now: int) returns (b: BatchAgentReq)
      requires lower.Some?
      requires group.Some? && group.value.BySingle?
      requires slice > 0
      ensures fresh(b) && b.Valid() && Plans(b, now) && b.typeRef == LogEntrySetByKey
      ensures b.query == IndexQuery(lower, upper, None, group)
    {
      var query := IndexQuery(lower, upper, None, group);
      b := new BatchAgentReq(Filtering(filtering), query, slice, now, LogEntrySetByKey);
    }

    /** Entries grouped by two properties; the lower end and the grouping
        are asserted non-null. */
    method ForMultipleGrouping(lower: Option<int>, upper: Option<int>, group: Option<By>, now: int) returns (b: BatchAgentReq)
      requires lower.Some?
      requires group.Some? && group.value.ByTuple?
      requires slice > 0
      ensures fresh(b) && b.Valid() && Plans(b, now) && b.typeRef == LogEntrySetByTwoKeys
      ensures b.query == IndexQuery(lower, upper, None, group)
    {
      var query := IndexQuery(lower, upper, None, group);
      b := new BatchAgentReq(Filtering(filtering), query, slice, now, LogEntrySetByTwoKeys);
    }

    /** The last or first entry per pair of keys; the lower end, the
        grouping and the flag are asserted non-null. */
    method ForConstraintMultipleGrouping(lower: Option<int>, upper: Option<int>, isLastOrFirst: Option<bool>, group: Option<By>, now: int) returns (b: BatchAgentReq)
      requires lower.Some?
      requires group.Some? && group.value.ByTuple?
      requires isLastOrFirst.Some?
      requires slice > 0
      ensures fresh(b) && b.Valid() && Plans(b, now) && b.typeRef == LogEntryByTwoKeys
      ensures b.query == IndexQuery(lower, upper, isLastOrFirst, group)
    {
      var query := IndexQuery(lower, upper, isLastOrFirst, group);
      b := new BatchAgentReq(Filtering(filtering), query, slice, now, LogEntryByTwoKeys);
    }

    /** The last or first entry per key; the lower end, the grouping and
        the flag are asserted non-null. */
    method ForConstrainedGrouping(lower: Option<int>, upper: Option<int>, isLastOrFirst: Option<bool>, group: Option<By>, now: int) returns (b: BatchAgentReq)
      requires lower.Some?
      requires group.Some? && group.value.BySingle?
      requires isLastOrFirst.Some?
      requires slice > 0
      ensures fresh(b) && b.Valid() && Plans(b, now) && b.typeRef == LogEntryByKey
      ensures b.query == IndexQuery(lower, upper, isLastOrFirst, group)
    {
      var query := IndexQuery(lower, upper, isLastOrFirst, group);
      b := new BatchAgentReq(Filtering(filtering), query, slice, now, LogEntryByKey);
    }
  }

  // ---------------------------------------------------------------------
  // Batches and single-shot requests

  /** Copying a range into a query keeps its result shape. */
  lemma CopyKeepsShape(query: IndexQuery, lower: Option<int>, upper: Option<int>)
    ensures SingleReqFactories.ShapeOf(Some(Copy(query, lower, upper))) == SingleReqFactories.ShapeOf(Some(query))
  {
  }

  /** Every sub-request of a batch planned over a predicate path is a
      request the single-shot factory over the same path issues: same path,
      same flag and grouping, and the result shape its query calls for. */
  lemma SlicesAreSingleShots(s: SingleReqFactories.SingleQueryFactory, path: PathRef, query: IndexQuery, times: seq<int>)
    requires path == Filtering(s.filtering)
    ensures forall r :: r in SubRequests(path, query, SingleReqFactories.ShapeOf(Some(query)), times) ==>
      s.Issues(r) && r.query.Some?
      && r.query.value.lastOrFirst == query.lastOrFirst && r.query.value.group == query.group
  {
    var typeRef := SingleReqFactories.ShapeOf(Some(query));
    var rs := SubRequests(path, query, typeRef, times);
    forall r | r in rs
      ensures s.Issues(r) && r.query.Some?
      ensures r.query.value.lastOrFirst == query.lastOrFirst && r.query.value.group == query.group
    {
      var i :| 0 <= i < |rs| && rs[i] == r;
      CopyKeepsShape(query, Some(times[i]), Some(times[i + 1]));
    }
  }

  /** The i-th sub-request of each batch method is what the single-shot
      method of the same name builds for the i-th slice. */
  lemma SlicesMatchSingleShotMethods(s: SingleReqFactories.SingleQueryFactory, path: PathRef, query: IndexQuery, times: seq<int>, i: int)
    requires path == Filtering(s.filtering)
    requires 0 <= i < |times| - 1
    ensures var r := SubRequests(path, query, SingleReqFactories.ShapeOf(Some(query)), times)[i];
      var lower, upper := Some(times[i]), Some(times[i + 1]);
      && (query.lastOrFirst.None? && query.group.None? ==>
            r == s.ForTimeConstraining(lower, upper))
      && (query.lastOrFirst.Some? && query.group.None? ==>
            r == s.ForLastOrFirstConstraining(lower, upper, query.lastOrFirst))
      && (query.lastOrFirst.None? && query.group.Some? && query.group.value.BySingle? ==>
            r == s.ForGrouping(lower, upper, query.group))
      && (query.lastOrFirst.None? && query.group.Some? && query.group.value.ByTuple? ==>
            r == s.ForMultipleGrouping(lower, upper, query.group))
      && (query.lastOrFirst.Some? && query.group.Some? && query.group.value.ByTuple? ==>
            r == s.ForConstraintMultipleGrouping(lower, upper, query.lastOrFirst, query.group))
      && (query.lastOrFirst.Some? && query.group.Some? && query.group.value.BySingle? ==>
            r == s.ForConstrainedGrouping(lower, upper, query.lastOrFirst, query.group))
  {
  }
}
