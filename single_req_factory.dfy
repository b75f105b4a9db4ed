/** SingleReqFactory: builds one-shot requests. The administrative requests
    go to fixed literal paths without a query; SingleQueryFactory builds the
    index queries for one client, one method per query shape. */
module SingleReqFactories {
  import opened Wrappers
  import opened Groupings
  import opened IndexQueries
  import opened AgentReqs
  import opened EqFilters
  import IndexFilterings
  import AppendablePaths
  import AgentUrls
  import JavaText

  /** The result shape the agent answers a query with: the last/first flag
      asks for one entry where there would be a set, and each grouped
      property adds one level of keys. */
  function ShapeOf(query: Option<IndexQuery>): (r: ResultShape)
    ensures r in {SingleLogEntry, LogEntryByKey, LogEntryByTwoKeys} <==> query.Some? && query.value.lastOrFirst.Some?
    ensures r in {LogEntrySetByKey, LogEntryByKey} <==> query.Some? && query.value.group.Some? && query.value.group.value.BySingle?
    ensures r in {LogEntrySetByTwoKeys, LogEntryByTwoKeys} <==> query.Some? && query.value.group.Some? && query.value.group.value.ByTuple?
  {
    if query.None? then LogEntrySet
    else
      var flagged := query.value.lastOrFirst.Some?;
      match query.value.group
      case None => if flagged then SingleLogEntry else LogEntrySet
      case Some(BySingle(_)) => if flagged then LogEntryByKey else LogEntrySetByKey
      case Some(ByTuple(_, _)) => if flagged then LogEntryByTwoKeys else LogEntrySetByTwoKeys
  }

  /** The result shape tells which of the flag and the grouping a query
      carries, and whether the grouping is by one property or by two. */
  lemma ShapeRevealsQueryKind(q1: IndexQuery, q2: IndexQuery)
    ensures ShapeOf(Some(q1)) == ShapeOf(Some(q2)) <==>
      (q1.lastOrFirst.Some? == q2.lastOrFirst.Some?
       && q1.group.Some? == q2.group.Some?
       && (q1.group.Some? ==> q1.group.value.BySingle? == q2.group.value.BySingle?))
  {
  }

  // ---------------------------------------------------------------------
  // The administrative requests

  // The status paths spelt out.

  lemma CountsPathText()
    ensures "/" + "agent-status" + "/" + "rcpt-address-counts" == "/agent-status/rcpt-address-counts"
  {
  }

  lemma AddressesPathText()
    ensures "/" + "agent-status" + "/" + "rcpt-addresses" == "/agent-status/rcpt-addresses"
  {
  }

  lemma BouncesPathText()
    ensures "/" + "agent-status" + "/" + "unknown-bounces" == "/agent-status/unknown-bounces"
  {
  }

  /** The counts of recipient addresses: "/agent-status/rcpt-address-counts". */
  method ForRcptAddressCounts() returns (r: AgentReq)
    ensures r.path.Literal? && fresh(r.path.literal) && r.path.literal.Valid()
    ensures r.path.literal.path == "/agent-status/rcpt-address-counts"
    ensures r.query == None && r.typeRef == CountByKey
  {
    var p := new AppendablePaths.AppendablePath("agent-status");
    p := p.AppendSegment("rcpt-address-counts");
    CountsPathText();
    r := ForLiteralPath(p, CountByKey);
  }

  /** The shutdown request: "/agent-shutdown", answered with plain text. */
  method ForAgentShutdown() returns (r: AgentReq)
    ensures r.path.Literal? && fresh(r.path.literal) && r.path.literal.Valid()
    ensures r.path.literal.path == "/agent-shutdown"
    ensures r.query == None && r.typeRef == PlainText
  {
    var p := new AppendablePaths.AppendablePath("agent-shutdown");
    r := ForLiteralPath(p, PlainText);
  }

  /** The recipient addresses: "/agent-status/rcpt-addresses". */
  method ForRcptAddresses() returns (r: AgentReq)
    ensures r.path.Literal? && fresh(r.path.literal) && r.path.literal.Valid()
    ensures r.path.literal.path == "/agent-status/rcpt-addresses"
    ensures r.query == None && r.typeRef == AddressesByKey
  {
    var p := new AppendablePaths.AppendablePath("agent-status");
    p := p.AppendSegment("rcpt-addresses");
    AddressesPathText();
    r := ForLiteralPath(p, AddressesByKey);
  }

  /** The bounces of unknown kind: "/agent-status/unknown-bounces". */
  method ForUnknownBounces() returns (r: AgentReq)
    ensures r.path.Literal? && fresh(r.path.literal) && r.path.literal.Valid()
    ensures r.path.literal.path == "/agent-status/unknown-bounces"
    ensures r.query == None && r.typeRef == LogEntriesByKey
  {
    var p := new AppendablePaths.AppendablePath("agent-status");
    p := p.AppendSegment("unknown-bounces");
    BouncesPathText();
    r := ForLiteralPath(p, LogEntriesByKey);
  }

  // ---------------------------------------------------------------------
  // The index queries

  /** A query factory filtering by the client id alone. */
  method ForClientId(clientId: string) returns (f: SingleQueryFactory)
    ensures fresh(f) && fresh(f.filtering) && f.filtering.Valid()
    ensures f.filtering.filtering == [IndexFilterings.ClientPredicate(clientId)]
  {
    var filtering := new IndexFilterings.IndexFiltering.ForClient(clientId);
    f := new SingleQueryFactory(filtering);
  }

  /** A query factory filtering by the client id and one more predicate. */
  method ForClientIdAnd(clientId: string, equals: Eq) returns (f: SingleQueryFactory)
    ensures fresh(f) && fresh(f.filtering) && f.filtering.Valid()
    ensures f.filtering.filtering == IndexFilterings.Add([IndexFilterings.ClientPredicate(clientId)], equals)
  {
    var filtering := new IndexFilterings.IndexFiltering.ForClientAnd(clientId, equals);
    f := new SingleQueryFactory(filtering);
  }

  class SingleQueryFactory {
    /** The predicate path shared by every request of this factory. */
    const filtering: IndexFilterings.IndexFiltering

    constructor (filtering: IndexFilterings.IndexFiltering)
      ensures this.filtering == filtering
    {
      this.filtering := filtering;
    }

    /** A request of this factory: it reads through this factory's
        predicate path and asks for the result shape its query calls for. */
    predicate Issues(r: AgentReq) {
      r.path == Filtering(filtering) && r.typeRef == ShapeOf(r.query)
    }

    /** Entries in a time range, either end of which may be null. */
    function ForTimeConstraining(lower: Option<int>, upper: Option<int>): (r: AgentReq)
      ensures Issues(r) && r.typeRef == LogEntrySet && r.query.Some?
      ensures r.query.value.from == lower && r.query.value.to == upper
      ensures r.query.value.lastOrFirst == None && r.query.value.group == None
    {
      AgentReq(Filtering(filtering), Some(IndexQuery(lower, upper, None, None)), LogEntrySet)
    }

    /** The last or the first entry of a time range; the flag is asserted
        non-null. */
    function ForLastOrFirstConstraining(lower: Option<int>, upper: Option<int>, isLastOrFirst: Option<bool>): (r: AgentReq)
      requires isLastOrFirst.Some?
      ensures Issues(r) && r.typeRef == SingleLogEntry && r.query.Some?
      ensures r.query.value.from == lower && r.query.value.to == upper
      ensures r.query.value.lastOrFirst == isLastOrFirst && r.query.value.group == None
    {
      AgentReq(Filtering(filtering), Some(IndexQuery(lower, upper, isLastOrFirst, None)), SingleLogEntry)
    }

    /** Entries grouped by one property; the grouping is asserted non-null. */
    function ForGrouping(lower: Option<int>, upper: Option<int>, group: Option<By>): (r: AgentReq)
      requires group.Some? && group.value.BySingle?
      ensures Issues(r) && r.typeRef == LogEntrySetByKey && r.query.Some?
      ensures r.query.value.from == lower && r.query.value.to == upper
      ensures r.query.value.lastOrFirst == None && r.query.value.group == group
    {
      AgentReq(Filtering(filtering), Some(IndexQuery(lower, upper, None, group)), LogEntrySetByKey)
    }

    /** Entries grouped by two properties; the grouping is asserted non-null. */
    function ForMultipleGrouping(lower: Option<int>, upper: Option<int>, group: Option<By>): (r: AgentReq)
      requires group.Some? && group.value.ByTuple?
      ensures Issues(r) && r.typeRef == LogEntrySetByTwoKeys && r.query.Some?
      ensures r.query.value.from == lower && r.query.value.to == upper
      ensures r.query.value.lastOrFirst == None && r.query.value.group == group
    {
      AgentReq(Filtering(filtering), Some(IndexQuery(lower, upper, None, group)), LogEntrySetByTwoKeys)
    }

    /** The last or first entry per pair of keys; both the grouping and the
        flag are asserted non-null. */
    function ForConstraintMultipleGrouping(lower: Option<int>, upper: Option<int>, isLastOrFirst: Option<bool>, group: Option<By>): (r: AgentReq)
      requires group.Some? && group.value.ByTuple?
      requires isLastOrFirst.Some?
      ensures Issues(r) && r.typeRef == LogEntryByTwoKeys && r.query.Some?
      ensures r.query.value.from == lower && r.query.value.to == upper
      ensures r.query.value.lastOrFirst == isLastOrFirst && r.query.value.group == group
    {
      AgentReq(Filtering(filtering), Some(IndexQuery(lower, upper, isLastOrFirst, group)), LogEntryByTwoKeys)
    }

    /** The last or first entry per key; both the grouping and the flag are
        asserted non-null. */
    function ForConstrainedGrouping(lower: Option<int>, upper: Option<int>, isLastOrFirst: Option<bool>, group: Option<By>): (r: AgentReq)
      requires group.Some? && group.value.BySingle?
      requires isLastOrFirst.Some?
      ensures Issues(r) && r.typeRef == LogEntryByKey && r.query.Some?
      ensures r.query.value.from == lower && r.query.value.to == upper
      ensures r.query.value.lastOrFirst == isLastOrFirst && r.query.value.group == group
    {
      AgentReq(Filtering(filtering), Some(IndexQuery(lower, upper, isLastOrFirst, group)), LogEntryByKey)
    }

    /** All entries matching the predicates: no query at all. */
    function QueryLess(): (r: AgentReq)
      ensures Issues(r) && r.query == None && r.typeRef == LogEntrySet
    {
      AgentReq(Filtering(filtering), None, LogEntrySet)
    }
  }

  // ---------------------------------------------------------------------
  // The URLs of the requests

  /** A query-less request addresses the predicate path alone; for a
      factory filtering by client id only, that is "/agent-read/<id>". */
  lemma QueryLessUrl(host: string, port: int, f: SingleQueryFactory)
    ensures AgentUrls.UrlText(host, port, f.QueryLess())
      == AgentUrls.Prefix(host, port) + IndexFilterings.PathOf(f.filtering.filtering)
    ensures forall clientId :: f.filtering.filtering == [IndexFilterings.ClientPredicate(clientId)] ==>
      AgentUrls.UrlText(host, port, f.QueryLess()) == AgentUrls.Prefix(host, port) + "/agent-read/" + clientId
  {
    AgentUrls.QueryLessUrl(host, port, f.QueryLess());
    forall clientId | f.filtering.filtering == [IndexFilterings.ClientPredicate(clientId)]
      ensures AgentUrls.UrlText(host, port, f.QueryLess()) == AgentUrls.Prefix(host, port) + "/agent-read/" + clientId
    {
      IndexFilterings.ClientOnlyPath(clientId);
    }
  }

  /** A closed time range prints as "?from=<from>&to=<to>" after the path. */
  lemma TimeConstrainingUrl(host: string, port: int, f: SingleQueryFactory, lower: int, upper: int)
    requires ParamNamesSound()
    ensures AgentUrls.UrlText(host, port, f.ForTimeConstraining(Some(lower), Some(upper)))
      == AgentUrls.Prefix(host, port) + IndexFilterings.PathOf(f.filtering.filtering)
         + ("?" + Param(FromParam, JavaText.DecimalString(lower)) + "&" + Param(ToParam, JavaText.DecimalString(upper)))
  {
    var r := f.ForTimeConstraining(Some(lower), Some(upper));
    assert AgentUrls.UrlText(host, port, r)
      == AgentUrls.Prefix(host, port) + IndexFilterings.PathOf(f.filtering.filtering) + IndexQueries.Print(r.query.value);
    IndexQueries.PrintRange(r.query.value);
  }

  /** A time-constrained request with both ends null has an empty query
      string: the URL is the path alone, as for the query-less request. */
  lemma UnboundedTimeConstrainingUrl(host: string, port: int, f: SingleQueryFactory)
    ensures AgentUrls.UrlText(host, port, f.ForTimeConstraining(None, None))
      == AgentUrls.UrlText(host, port, f.QueryLess())
  {
    AgentUrls.EmptyQueryUrl(host, port, f.ForTimeConstraining(None, None));
    AgentUrls.QueryLessUrl(host, port, f.QueryLess());
  }
}
