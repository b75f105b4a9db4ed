/** AgentReq: the request descriptor handed to the transport layer: a path,
    an optional query and a tag naming the shape of the expected result. */
module AgentReqs {
  import opened Wrappers
  import opened IndexQueries
  import IndexFilterings
  import AppendablePaths

  /** The AgentUrlPath a request refers to: a predicate path, a literal path,
      or null. The request holds a reference, so requests built from one path
      share it. */
  datatype PathRef =
    | NoPath
    | Filtering(filtering: IndexFilterings.IndexFiltering)
    | Literal(literal: AppendablePaths.AppendablePath)

  function PathObjects(p: PathRef): set<object> {
    match p
    case NoPath => {}
    case Filtering(f) => {f}
    case Literal(a) => {a}
  }

  /** What path.print() returns for a present path. */
  function PathText(p: PathRef): (s: string)
    requires !p.NoPath?
    reads PathObjects(p)
    ensures p.Filtering? ==> s == IndexFilterings.PathOf(p.filtering.filtering)
    ensures p.Literal? ==> s == p.literal.path
  {
    match p
    case Filtering(f) => IndexFilterings.PathOf(f.filtering)
    case Literal(a) => a.path
  }

  /** The TypeReference of the expected response, as a tag: the result
      types the factories ask for. */
  datatype ResultShape =
    | LogEntrySet            // TreeSet<SmtpLogEntry>
    | SingleLogEntry         // SmtpLogEntry
    | LogEntrySetByKey       // Map<String, TreeSet<SmtpLogEntry>>
    | LogEntrySetByTwoKeys   // Map<String, Map<String, TreeSet<SmtpLogEntry>>>
    | LogEntryByTwoKeys      // Map<String, Map<String, SmtpLogEntry>>
    | LogEntryByKey          // Map<String, SmtpLogEntry>
    | CountByKey             // Map<String, Integer>
    | PlainText              // String
    | AddressesByKey         // Map<String, Set<String>>
    | LogEntriesByKey        // Map<String, Set<SmtpLogEntry>>

  /** The three-argument constructor: the fields are stored as given, the
      query may be null, and nothing reassigns them afterwards. */
  datatype AgentReq = AgentReq(path: PathRef, query: Option<IndexQuery>, typeRef: ResultShape)

  /** The literal-path constructor: the query is always null. */
  function ForLiteralPath(path: AppendablePaths.AppendablePath, typeRef: ResultShape): (r: AgentReq)
    ensures r.path == Literal(path) && r.typeRef == typeRef
    ensures r.query == None
  {
    AgentReq(Literal(path), None, typeRef)
  }
}
