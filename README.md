# Request building in the Postfix-Deliverability-Analytics client

This project models the request-building core of the Postfix-Deliverability-Analytics
Java client in Dafny. The client asks the log agent for SMTP log entries. It
describes what it wants with an `AgentReq`, which has three parts:

- a resource path;
- an optional `IndexQuery`;
- a tag for the shape of the expected answer.

`AgentUrl` turns a request into a URL string. The path is one of two kinds.
An `IndexFiltering` path is built from `Eq` predicates, for example
`/agent-read/<client id>/queue/<queue id>`. An `AppendablePath` is a literal path,
for example `/agent-status/rcpt-addresses`. The query carries four optional
parameters:

- the time range `from` and `to`;
- a grouping, `BySingle` or `ByTuple`;
- the last-or-first flag.

`SingleReqFactory` builds one-shot requests. `BatchReqFactory` builds
`BatchAgentReq`s, which split a wide time range into consecutive sub-requests of
one job timeframe each. `SmtpLogEntry`'s `equals`, `hashCode`, `compareTo` and
reverse comparator decide how answers are ordered: newest first, or oldest first.

Module layout (one file per source class):

| file | module | source |
|---|---|---|
| wrappers.dfy | `Wrappers` | `Option` for a nullable reference, `Result` for a call that may throw a NullPointerException |
| java_text.dfy | `JavaText` | `String.valueOf(long)`, `Boolean.toString`, `String`/`Date` hash codes, 32-bit wrap-around |
| url_path_part.dfy | `UrlPathParts` | `UrlPathPart` |
| eq.dfy | `EqFilters` | `Eq` |
| index_filtering.dfy | `IndexFilterings` | `IndexFiltering` (class; the constructors fill the set, `print` is a loop) |
| appendable_path.dfy | `AppendablePaths` | `AppendablePath` (class; `appendSegment` grows the path in place) |
| grouping.dfy | `Groupings` | `BySingle`, `ByTuple` |
| index_query.dfy | `IndexQueries` | `IndexQuery` |
| agent_req.dfy | `AgentReqs` | `AgentReq` |
| agent_url.dfy | `AgentUrls` | `AgentUrl` (class; `print` appends step by step) |
| batch_agent_req.dfy | `BatchAgentReqs` | `BatchAgentReq` (class; `computeInterval` and `getRequests` are loops) |
| single_req_factory.dfy | `SingleReqFactories` | `SingleReqFactory`, `SingleQueryFactory` |
| batch_req_factory.dfy | `BatchReqFactories` | `BatchReqFactory`, `BatchQueryFactory` |
| smtp_log_entry.dfy | `SmtpLogEntries` | `SmtpLogEntry` (class; the setters update fields in place) |

Modelling choices:

- Java `null` is `None`.
- A call that would dereference `null` returns `NullPointerException`, not a precondition.
- The Java `assert`s in the constructors and factory methods become `requires`.
- Timestamps and ports are mathematical integers.
- `IndexQuery.print` is modelled as the source computes it, in four steps:
  1. `put` into a `LinkedHashMap`, which replaces an existing key in place;
  2. reverse the entries;
  3. fold them into a string by prepending, with the `&` rule of `buildQueryString`;
  4. prefix `?`.

  `PrintIsQueryText` then proves that this equals a reference definition:
  "`?` + the present parameters joined by `&`, in the order from, to, group,
  lastOrFirst".
- `Grouping.P_NAME` and `LastOrFirst.P_NAME` are defined outside the classes
  modelled here. They are uninterpreted constants `GroupParam` and `LastOrFirstParam`. Every
  lemma about the printed query assumes `ParamNamesSound()`: the four parameter
  names are distinct and none starts with `&`.
- A `Property` is its `toString()` text.
- The Jackson `TypeReference` is the tag `ResultShape`. `SingleReqFactories.ShapeOf`
  says which tag goes with which query shape (the flag and the grouping present or
  not, single or tuple). Every factory method is proved to choose its tag that way.

## Model

| member | source | states |
|---|---|---|
| UrlPathParts.Name | client/src/main/java/com/fg/mail/smtp/client/request/filter/UrlPathPart.java:9-19 | every wire name is non-empty and contains no `/` |
| UrlPathParts.NameRoundTrip | client/src/main/java/com/fg/mail/smtp/client/request/filter/UrlPathPart.java:9-19 | reading a wire name back gives the constant it came from |
| UrlPathParts.NameInjective | client/src/main/java/com/fg/mail/smtp/client/request/filter/UrlPathPart.java:9 | two constants share a wire name iff they are the same constant |
| UrlPathParts.WireNames | client/src/main/java/com/fg/mail/smtp/client/request/filter/UrlPathPart.java:9 | clientId is `agent-read` (not `clientId`), rcptEmail `rcptEmail`, queueId `queue`, msgId `message` |
| EqFilters.PropertyName | client/src/main/java/com/fg/mail/smtp/client/request/filter/Eq.java:13-15 | the result is the wire name of the stored property (it reads back as that property) |
| EqFilters.ValueText | client/src/main/java/com/fg/mail/smtp/client/request/factory/IndexFiltering.java:35 | the value is appended unescaped; a null value appends `null` |
| EqFilters.Equals | client/src/main/java/com/fg/mail/smtp/client/request/filter/Eq.java:22-32 | true iff the other object is non-null with the same property and an equal value, two nulls counting as equal |
| EqFilters.EqualsIsEquivalence | client/src/main/java/com/fg/mail/smtp/client/request/filter/Eq.java:22-32 | equals is reflexive and symmetric, and false against null |
| EqFilters.HashCode | client/src/main/java/com/fg/mail/smtp/client/request/filter/Eq.java:34-39 | the hash is a 32-bit int |
| EqFilters.HashConsistent | client/src/main/java/com/fg/mail/smtp/client/request/filter/Eq.java:22-39 | equal filters have equal hash codes |
| IndexFilterings.Add | client/src/main/java/com/fg/mail/smtp/client/request/factory/IndexFiltering.java:17-26 | LinkedHashSet.add: the element is present afterwards, the old elements keep their order, at most one element is appended, and distinctness is kept |
| IndexFilterings.PathOf | client/src/main/java/com/fg/mail/smtp/client/request/factory/IndexFiltering.java:28-29 | the path always starts with `/` |
| IndexFilterings.PairsAppend | client/src/main/java/com/fg/mail/smtp/client/request/factory/IndexFiltering.java:32-39 | pairs are written in insertion order, with a `/` only between pairs: one more predicate appends `/name/value` |
| IndexFilterings.PathOfAppend | client/src/main/java/com/fg/mail/smtp/client/request/factory/IndexFiltering.java:32-39 | one more predicate appends `/` + property name + `/` + value text to the path |
| IndexFilterings.IndexFiltering.ForClient | client/src/main/java/com/fg/mail/smtp/client/request/factory/IndexFiltering.java:19-21 | the set holds exactly the client-id predicate; the filtering is valid: non-empty, client id first, no duplicates |
| IndexFilterings.IndexFiltering.ForClientAnd | client/src/main/java/com/fg/mail/smtp/client/request/factory/IndexFiltering.java:23-26 | the set is the client-id predicate with the extra predicate added, as LinkedHashSet.add does; the filtering is valid |
| IndexFilterings.IndexFiltering.Print | client/src/main/java/com/fg/mail/smtp/client/request/factory/IndexFiltering.java:28-43 | the loop writes exactly `PathOf` of the set, `/name1/value1/.../nameN/valueN`, and changes nothing |
| IndexFilterings.ClientOnlyPath | client/src/main/java/com/fg/mail/smtp/client/request/factory/IndexFiltering.java:19-43 | filtering by client id alone prints `/agent-read/<client id>` |
| IndexFilterings.ClientAndPath | client/src/main/java/com/fg/mail/smtp/client/request/factory/IndexFiltering.java:23-39 | an extra predicate different from the client-id one prints as `/agent-read/<id>/<name>/<value>`; one equal to it is dropped and the path is `/agent-read/<id>` |
| AppendablePaths.LiteralText | client/src/main/java/com/fg/mail/smtp/client/request/filter/AppendablePath.java:14-18 | a literal path always starts with `/` |
| AppendablePaths.LiteralTextAppend | client/src/main/java/com/fg/mail/smtp/client/request/filter/AppendablePath.java:17-18 | appending a segment adds `/` + segment at the end and leaves the prefix unchanged |
| AppendablePaths.AppendablePath.constructor | client/src/main/java/com/fg/mail/smtp/client/request/filter/AppendablePath.java:11-15 | rejects a path starting with `/`; afterwards the text is `/` + path and no segment is appended |
| AppendablePaths.AppendablePath.AppendSegment | client/src/main/java/com/fg/mail/smtp/client/request/filter/AppendablePath.java:17-20 | mutates this object and returns it (not a copy): the text gains `/` + segment, the first part is unchanged, the segment list gains the segment |
| AppendablePaths.AppendablePath.Print | client/src/main/java/com/fg/mail/smtp/client/request/filter/AppendablePath.java:22-24 | returns the text without changing it, and the text is `/p/s1/.../sn` for the first part p and segments s1..sn |
| Groupings.Print | client/src/main/java/com/fg/mail/smtp/client/request/query/BySingle.java:16-18 | a single grouping prints as its property; a tuple prints as outer, then `-and-`, then inner, of length \|outer\| + 5 + \|inner\| |
| Groupings.TupleRoundTrip | client/src/main/java/com/fg/mail/smtp/client/request/query/ByTuple.java:19-21 | when the outer property has no `-`, splitting the printed tuple at the first `-and-` gives back (outer, inner), so the order of the two matters |
| Groupings.SeparatorFrom | client/src/main/java/com/fg/mail/smtp/client/request/query/ByTuple.java:20 | the position found is the first occurrence of `-and-` at or after the start, and none is found only when no occurrence exists |
| IndexQueries.Copy | client/src/main/java/com/fg/mail/smtp/client/request/factory/IndexQuery.java:50-52 | the copy has the given from and to, and the original flag and grouping |
| IndexQueries.CopyLaws | client/src/main/java/com/fg/mail/smtp/client/request/factory/IndexQuery.java:50-52 | copying a query's own range gives the query back; copying a copy equals copying the original |
| IndexQueries.Put | client/src/main/java/com/fg/mail/smtp/client/request/factory/IndexQuery.java:55-59 | LinkedHashMap.put: the map either keeps its size or gains the new entry at the end, and no entry other than the old ones and the new one appears |
| IndexQueries.PutFresh | client/src/main/java/com/fg/mail/smtp/client/request/factory/IndexQuery.java:55-59 | put of a key not yet in the map appends its entry at the end |
| IndexQueries.PutExisting | client/src/main/java/com/fg/mail/smtp/client/request/factory/IndexQuery.java:55-59 | put of a key first held at position i replaces that entry in place with the new value; every other entry keeps its position |
| IndexQueries.Entries | client/src/main/java/com/fg/mail/smtp/client/request/factory/IndexQuery.java:55-59 | the four puts leave one to four entries; `EntriesInOrder` gives their exact contents and order |
| IndexQueries.Prepend | client/src/main/java/com/fg/mail/smtp/client/request/factory/IndexQuery.java:64-72 | a null value leaves the result unchanged, a present one makes it longer; `PrependJoin` gives the exact text |
| IndexQueries.BuildQueryString | client/src/main/java/com/fg/mail/smtp/client/request/factory/IndexQuery.java:63-77 | the result is empty or starts with `?`, and is non-empty whenever the accumulated text is |
| IndexQueries.Print | client/src/main/java/com/fg/mail/smtp/client/request/factory/IndexQuery.java:54-61 | the printed query is empty or starts with `?`; `PrintIsQueryText` gives its exact text |
| IndexQueries.Reverse | client/src/main/java/com/fg/mail/smtp/client/request/factory/IndexQuery.java:60 | Lists.reverse: same length, element i is the original's element n-1-i |
| IndexQueries.EntriesInOrder | client/src/main/java/com/fg/mail/smtp/client/request/factory/IndexQuery.java:55-59 | with sound names the map holds from, to, group, lastOrFirst in that order, each with its rendered value or null |
| IndexQueries.BuildReversed | client/src/main/java/com/fg/mail/smtp/client/request/factory/IndexQuery.java:63-77 | folding the reversed entries by prepending gives `?` + the present parameters joined by single `&`s, in the original order |
| IndexQueries.PrintIsQueryText | client/src/main/java/com/fg/mail/smtp/client/request/factory/IndexQuery.java:54-77 | print emits the present parameters in the order from, to, group, lastOrFirst, drops null ones, joins them with single `&`s and prefixes `?` |
| IndexQueries.JoinStart | client/src/main/java/com/fg/mail/smtp/client/request/factory/IndexQuery.java:68-71 | the joined parameters are empty iff there are none, and otherwise do not start with `&` |
| IndexQueries.EmptyQueryPrintsNothing | client/src/main/java/com/fg/mail/smtp/client/request/factory/IndexQuery.java:75 | a query whose four parameters are null prints as the empty string, whatever the parameter names |
| IndexQueries.PrintEmptyIff | client/src/main/java/com/fg/mail/smtp/client/request/factory/IndexQuery.java:63-77 | print is empty iff all four parameters are null, and otherwise starts with `?` |
| IndexQueries.PrintRange | client/src/main/java/com/fg/mail/smtp/client/request/factory/IndexQuery.java:54-77 | a range alone prints as `?from=<from>&to=<to>` with decimal timestamps |
| IndexQueries.PrintRangeAndFlag | client/src/main/java/com/fg/mail/smtp/client/request/query/TimeConstraint.java:11-12 | a range with a flag prints as `?from=<from>&to=<to>&<lastOrFirst name>=true` (or `false`) |
| JavaText.DecimalString | client/src/main/java/com/fg/mail/smtp/client/request/factory/IndexQuery.java:56-57 | String.valueOf(long): non-empty, a `-` exactly for negative numbers, then decimal digits |
| JavaText.DecimalRoundTrip | client/src/main/java/com/fg/mail/smtp/client/request/factory/IndexQuery.java:56-57 | parsing the decimal text gives the number back, so distinct timestamps print differently |
| JavaText.ThousandsInDecimal | client/src/main/java/com/fg/mail/smtp/client/request/query/TimeConstraint.java:11-12 | 1000 and 2000 print as `1000` and `2000` |
| JavaText.BoolString | client/src/main/java/com/fg/mail/smtp/client/request/factory/IndexQuery.java:59 | Boolean.toString gives `true` exactly for true and `false` exactly for false |
| JavaText.Wrap32 | client/src/main/java/com/fg/mail/smtp/client/model/SmtpLogEntry.java:121-128 | int arithmetic: the result is a 32-bit int congruent to the exact value modulo 2^32 and equal to it when it fits |
| JavaText.StringHash | client/src/main/java/com/fg/mail/smtp/client/request/filter/Eq.java:36 | String.hashCode, s[0]*31^(n-1) + ... + s[n-1] in int arithmetic: always a 32-bit int |
| JavaText.DateHash | client/src/main/java/com/fg/mail/smtp/client/model/SmtpLogEntry.java:121 | Date.hashCode, the low and high 32-bit halves of the timestamp xor-ed: always a 32-bit int |
| AgentReqs.ForLiteralPath | client/src/main/java/com/fg/mail/smtp/client/request/factory/AgentReq.java:27-29 | the literal-path constructor stores the path and tag and always sets the query to null |
| AgentReqs.PathText | client/src/main/java/com/fg/mail/smtp/client/AgentUrl.java:51-53 | a predicate path prints as `PathOf` of its set, a literal path as its text |
| AgentUrls.UrlText | client/src/main/java/com/fg/mail/smtp/client/AgentUrl.java:49-60 | every URL starts with `http://` + host + `:` + port in decimal |
| AgentUrls.AgentUrl.constructor | client/src/main/java/com/fg/mail/smtp/client/AgentUrl.java:20-26 | rejects a host ending in `/` and stores host, port and request unchanged |
| AgentUrls.AgentUrl.Print | client/src/main/java/com/fg/mail/smtp/client/AgentUrl.java:49-60 | the successive appends produce exactly `UrlText` of host, port and request; host, port and request are constants and are not changed |
| AgentUrls.NoPathUrl | client/src/main/java/com/fg/mail/smtp/client/AgentUrl.java:52 | with a null path neither path nor query is appended |
| AgentUrls.QueryLessUrl | client/src/main/java/com/fg/mail/smtp/client/AgentUrl.java:54-57 | with a null query the URL ends right after the path |
| AgentUrls.FilteredQueryUrl | client/src/main/java/com/fg/mail/smtp/client/AgentUrl.java:50-57 | with a predicate path and a query, the URL is the prefix, the predicate pairs and `?` + the present parameters joined by `&` |
| AgentUrls.EmptyQueryUrl | client/src/main/java/com/fg/mail/smtp/client/AgentUrl.java:55-57 | a query whose parameters are all null adds nothing to the URL |
| BatchAgentReqs.Boundaries | client/src/main/java/com/fg/mail/smtp/client/request/factory/BatchAgentReq.java:39-47 | specification function of computeInterval: from, from + slice, ... while below to, then to; its properties are stated by the `Boundaries*` lemmas below |
| BatchAgentReqs.ComputeInterval | client/src/main/java/com/fg/mail/smtp/client/request/factory/BatchAgentReq.java:39-47 | the loop returns exactly `Boundaries(from, to, slice)` |
| BatchAgentReqs.BoundariesShape | client/src/main/java/com/fg/mail/smtp/client/request/factory/BatchAgentReq.java:39-47 | the list is non-empty, its last element is exactly `to`, and every other element i is `from + i * slice` and below `to` |
| BatchAgentReqs.BoundariesEnds | client/src/main/java/com/fg/mail/smtp/client/request/factory/BatchAgentReq.java:41-45 | when from >= to the list is just `[to]`; otherwise it starts at from |
| BatchAgentReqs.BoundariesIncreasing | client/src/main/java/com/fg/mail/smtp/client/request/factory/BatchAgentReq.java:41-45 | for from < to the list is strictly increasing |
| BatchAgentReqs.BoundariesWidths | client/src/main/java/com/fg/mail/smtp/client/request/factory/BatchAgentReq.java:41-45 | all gaps but the last are exactly one slice; the last is positive and at most one slice, even when to - from is not a multiple of the slice |
| BatchAgentReqs.BoundariesCount | client/src/main/java/com/fg/mail/smtp/client/request/factory/BatchAgentReq.java:41-45 | the number of gaps n is ceil((to - from) / slice): (n - 1) * slice < to - from <= n * slice |
| BatchAgentReqs.BoundariesSuffix | client/src/main/java/com/fg/mail/smtp/client/request/factory/BatchAgentReq.java:41-44 | the boundaries after the k-th are the boundaries computed from the k-th |
| BatchAgentReqs.BatchAgentReq.constructor | client/src/main/java/com/fg/mail/smtp/client/request/factory/BatchAgentReq.java:23-34 | requires a lower bound and a positive slice; a null upper bound becomes now; the boundary list is computed once and is non-empty |
| BatchAgentReqs.BatchAgentReq.GetRequests | client/src/main/java/com/fg/mail/smtp/client/request/factory/BatchAgentReq.java:49-63 | the loop returns exactly `SubRequests` of the boundary list; the empty-list exception cannot occur |
| BatchAgentReqs.SubRequest | client/src/main/java/com/fg/mail/smtp/client/request/factory/BatchAgentReq.java:59 | `query.copy(lower, upper)` under the batch's path and tag: range lower to upper, flag and grouping kept |
| BatchAgentReqs.SubRequests | client/src/main/java/com/fg/mail/smtp/client/request/factory/BatchAgentReq.java:56-61 | there is one sub-request fewer than boundaries |
| BatchAgentReqs.SubRequestsKeepAllButRange | client/src/main/java/com/fg/mail/smtp/client/request/factory/BatchAgentReq.java:59 | every sub-request keeps the path, tag, flag and grouping, and covers (times[i], times[i+1]) |
| BatchAgentReqs.SubRequestsContiguous | client/src/main/java/com/fg/mail/smtp/client/request/factory/BatchAgentReq.java:56-61 | each sub-request's upper bound is the next one's lower bound |
| BatchAgentReqs.PlanCoversRange | client/src/main/java/com/fg/mail/smtp/client/request/factory/BatchAgentReq.java:39-62 | for from < to there are ceil((to - from) / slice) sub-requests, the first starting at from and the last ending exactly at to |
| BatchAgentReqs.PlanWidths | client/src/main/java/com/fg/mail/smtp/client/request/factory/BatchAgentReq.java:39-62 | every sub-request is non-empty; all but the last are exactly one slice wide and the last is at most one slice wide |
| BatchAgentReqs.EmptyRangeYieldsNothing | client/src/main/java/com/fg/mail/smtp/client/request/factory/BatchAgentReq.java:41-62 | when from >= to the list is `[to]` and no sub-request comes out |
| BatchAgentReqs.BoundariesExample | client/src/main/java/com/fg/mail/smtp/client/request/factory/BatchAgentReq.java:39-47 | 1000 to 5000 in slices of 2000 gives the boundaries 1000, 3000, 5000 |
| SingleReqFactories.ShapeOf | client/src/main/java/com/fg/mail/smtp/client/request/factory/SingleReqFactory.java:55-90 | the tag is a single-entry shape exactly when the query carries the flag, a by-key shape exactly for a single grouping, and a by-two-keys shape exactly for a tuple grouping |
| SingleReqFactories.ShapeRevealsQueryKind | client/src/main/java/com/fg/mail/smtp/client/request/factory/SingleReqFactory.java:55-90 | two queries get the same result tag iff both or neither carry a flag, both or neither carry a grouping, and the groupings are of the same kind |
| SingleReqFactories.ForRcptAddressCounts | client/src/main/java/com/fg/mail/smtp/client/request/factory/SingleReqFactory.java:31-33 | a fresh literal path `/agent-status/rcpt-address-counts`, a null query, the count-by-key tag |
| SingleReqFactories.ForAgentShutdown | client/src/main/java/com/fg/mail/smtp/client/request/factory/SingleReqFactory.java:35-37 | a fresh literal path `/agent-shutdown`, a null query, the plain-text tag |
| SingleReqFactories.ForRcptAddresses | client/src/main/java/com/fg/mail/smtp/client/request/factory/SingleReqFactory.java:39-41 | a fresh literal path `/agent-status/rcpt-addresses`, a null query, the addresses-by-key tag |
| SingleReqFactories.ForUnknownBounces | client/src/main/java/com/fg/mail/smtp/client/request/factory/SingleReqFactory.java:43-45 | a fresh literal path `/agent-status/unknown-bounces`, a null query, the entries-by-key tag |
| SingleReqFactories.ForClientId | client/src/main/java/com/fg/mail/smtp/client/request/factory/SingleReqFactory.java:23-25 | a fresh factory whose filtering holds the client-id predicate only |
| SingleReqFactories.ForClientIdAnd | client/src/main/java/com/fg/mail/smtp/client/request/factory/SingleReqFactory.java:27-29 | a fresh factory whose filtering holds the client-id predicate with the given one added |
| SingleReqFactories.SingleQueryFactory.constructor | client/src/main/java/com/fg/mail/smtp/client/request/factory/SingleReqFactory.java:51-53 | stores the filtering |
| SingleReqFactories.SingleQueryFactory.ForTimeConstraining | client/src/main/java/com/fg/mail/smtp/client/request/factory/SingleReqFactory.java:55-58 | from and to pass through (either may be null); flag and grouping are null; the tag matches the query shape |
| SingleReqFactories.SingleQueryFactory.ForLastOrFirstConstraining | client/src/main/java/com/fg/mail/smtp/client/request/factory/SingleReqFactory.java:60-64 | requires a non-null flag, which it sets; the grouping is null; the tag matches the query shape |
| SingleReqFactories.SingleQueryFactory.ForGrouping | client/src/main/java/com/fg/mail/smtp/client/request/factory/SingleReqFactory.java:66-70 | requires a non-null single grouping, which it sets; the flag is null; the tag matches the query shape |
| SingleReqFactories.SingleQueryFactory.ForMultipleGrouping | client/src/main/java/com/fg/mail/smtp/client/request/factory/SingleReqFactory.java:72-76 | requires a non-null tuple grouping, which it sets; the flag is null; the tag matches the query shape |
| SingleReqFactories.SingleQueryFactory.ForConstraintMultipleGrouping | client/src/main/java/com/fg/mail/smtp/client/request/factory/SingleReqFactory.java:78-83 | requires a tuple grouping and a flag and sets both; the tag matches the query shape |
| SingleReqFactories.SingleQueryFactory.ForConstrainedGrouping | client/src/main/java/com/fg/mail/smtp/client/request/factory/SingleReqFactory.java:85-90 | requires a single grouping and a flag and sets both; the tag matches the query shape |
| SingleReqFactories.SingleQueryFactory.QueryLess | client/src/main/java/com/fg/mail/smtp/client/request/factory/SingleReqFactory.java:92-94 | the query is null and the request reads through the factory's filtering |
| SingleReqFactories.QueryLessUrl | client/src/main/java/com/fg/mail/smtp/client/request/factory/SingleReqFactory.java:92-94 | the query-less URL is the prefix and the predicate path only; for a client-id-only factory it ends in `/agent-read/<id>` |
| SingleReqFactories.TimeConstrainingUrl | client/src/main/java/com/fg/mail/smtp/client/request/factory/SingleReqFactory.java:55-58 | a closed time range yields the URL prefix + predicate path + `?from=<from>&to=<to>` |
| SingleReqFactories.UnboundedTimeConstrainingUrl | client/src/main/java/com/fg/mail/smtp/client/request/factory/SingleReqFactory.java:55-94 | a time-constrained request with both ends null has the same URL as the query-less one |
| BatchReqFactories.BatchReqFactory.constructor | client/src/main/java/com/fg/mail/smtp/client/request/factory/BatchReqFactory.java:25-28 | stores the job timeframe, in milliseconds |
| BatchReqFactories.BatchReqFactory.ForClientId | client/src/main/java/com/fg/mail/smtp/client/request/factory/BatchReqFactory.java:30-32 | the same client-id-only filtering as the single-shot factory, and the factory's timeframe passed on |
| BatchReqFactories.BatchReqFactory.ForClientIdAnd | client/src/main/java/com/fg/mail/smtp/client/request/factory/BatchReqFactory.java:34-36 | the same client-id-plus-predicate filtering as the single-shot factory, and the factory's timeframe passed on |
| BatchReqFactories.BatchQueryFactory.constructor | client/src/main/java/com/fg/mail/smtp/client/request/factory/BatchReqFactory.java:44-48 | stores the filtering and the job timeframe |
| BatchReqFactories.BatchQueryFactory.ForTimeConstraining | client/src/main/java/com/fg/mail/smtp/client/request/factory/BatchReqFactory.java:50-54 | requires a non-null from; no flag, no grouping; the batch is split from from to to (or now) in the factory's timeframe |
| BatchReqFactories.BatchQueryFactory.ForLastOrFirstConstraining | client/src/main/java/com/fg/mail/smtp/client/request/factory/BatchReqFactory.java:56-61 | requires from and the flag; flag set, no grouping; split as above |
| BatchReqFactories.BatchQueryFactory.ForGrouping | client/src/main/java/com/fg/mail/smtp/client/request/factory/BatchReqFactory.java:63-68 | requires from and a single grouping; grouping set, no flag; split as above |
| BatchReqFactories.BatchQueryFactory.ForMultipleGrouping | client/src/main/java/com/fg/mail/smtp/client/request/factory/BatchReqFactory.java:70-75 | requires from and a tuple grouping; grouping set, no flag; split as above |
| BatchReqFactories.BatchQueryFactory.ForConstraintMultipleGrouping | client/src/main/java/com/fg/mail/smtp/client/request/factory/BatchReqFactory.java:77-83 | requires from, a tuple grouping and the flag; both set; split as above |
| BatchReqFactories.BatchQueryFactory.ForConstrainedGrouping | client/src/main/java/com/fg/mail/smtp/client/request/factory/BatchReqFactory.java:85-91 | requires from, a single grouping and the flag; both set; split as above |
| BatchReqFactories.SlicesAreSingleShots | client/src/main/java/com/fg/mail/smtp/client/request/factory/BatchReqFactory.java:50-91 | every sub-request of a batch is a request the single-shot factory over the same path would issue, with the batch's flag and grouping |
| BatchReqFactories.SlicesMatchSingleShotMethods | client/src/main/java/com/fg/mail/smtp/client/request/factory/BatchReqFactory.java:50-91 | the i-th sub-request of each batch method equals its single-shot counterpart applied to the i-th slice |
| SmtpLogEntries.EqualFields | client/src/main/java/com/fg/mail/smtp/client/model/SmtpLogEntry.java:107-116 | once the receiver's date, queue id, message id, status and state are set, the answer is whether all fields but the sender agree; it throws only when one of those is null |
| SmtpLogEntries.HashFields | client/src/main/java/com/fg/mail/smtp/client/model/SmtpLogEntry.java:120-130 | the hash exists iff date, queue id, message id, recipient, status and state are set, and is a 32-bit int |
| SmtpLogEntries.SmtpLogEntry.constructor | client/src/main/java/com/fg/mail/smtp/client/model/SmtpLogEntry.java:10-26 | a new entry has every field null |
| SmtpLogEntries.SmtpLogEntry.SetDate | client/src/main/java/com/fg/mail/smtp/client/model/SmtpLogEntry.java:32-34 | only the date changes |
| SmtpLogEntries.SmtpLogEntry.SetQueueId | client/src/main/java/com/fg/mail/smtp/client/model/SmtpLogEntry.java:40-42 | only the queue id changes |
| SmtpLogEntries.SmtpLogEntry.SetMsgId | client/src/main/java/com/fg/mail/smtp/client/model/SmtpLogEntry.java:48-50 | only the message id changes |
| SmtpLogEntries.SmtpLogEntry.SetRcptEmail | client/src/main/java/com/fg/mail/smtp/client/model/SmtpLogEntry.java:56-58 | only the recipient changes |
| SmtpLogEntries.SmtpLogEntry.SetSenderEmail | client/src/main/java/com/fg/mail/smtp/client/model/SmtpLogEntry.java:64-66 | only the sender changes |
| SmtpLogEntries.SmtpLogEntry.SetStatus | client/src/main/java/com/fg/mail/smtp/client/model/SmtpLogEntry.java:72-74 | only the status changes |
| SmtpLogEntries.SmtpLogEntry.SetInfo | client/src/main/java/com/fg/mail/smtp/client/model/SmtpLogEntry.java:80-82 | only the info changes |
| SmtpLogEntries.SmtpLogEntry.SetState | client/src/main/java/com/fg/mail/smtp/client/model/SmtpLogEntry.java:88-90 | only the state changes |
| SmtpLogEntries.SmtpLogEntry.SetStateInfo | client/src/main/java/com/fg/mail/smtp/client/model/SmtpLogEntry.java:96-98 | only the state info changes |
| SmtpLogEntries.SmtpLogEntry.Equals | client/src/main/java/com/fg/mail/smtp/client/model/SmtpLogEntry.java:101-117 | true for the same object, false against null; otherwise (when the receiver's required fields are set) true iff every field but the sender agrees |
| SmtpLogEntries.SmtpLogEntry.HashCode | client/src/main/java/com/fg/mail/smtp/client/model/SmtpLogEntry.java:120-130 | throws unless date, queue id, message id, recipient, status and state are set |
| SmtpLogEntries.SmtpLogEntry.CompareTo | client/src/main/java/com/fg/mail/smtp/client/model/SmtpLogEntry.java:148-155 | the result is -1, 0 or 1: -1 exactly when this entry's date is strictly later (newest first); otherwise 0 exactly when equals holds and 1 exactly when equals is false; it throws on a null argument or date, or when equals throws |
| SmtpLogEntries.ReverseCompare | client/src/main/java/com/fg/mail/smtp/client/model/SmtpLogEntry.java:157-168 | the result is -1, 0 or 1: 1 exactly when the first entry's date is strictly later (oldest first); otherwise 0 exactly when equals holds and -1 exactly when equals is false |
| SmtpLogEntries.SameIsEquivalence | client/src/main/java/com/fg/mail/smtp/client/model/SmtpLogEntry.java:101-117 | the equality of equals is an equivalence and ignores the sender |
| SmtpLogEntries.EqualsSymmetric | client/src/main/java/com/fg/mail/smtp/client/model/SmtpLogEntry.java:101-117 | equals is symmetric between entries whose required fields are set |
| SmtpLogEntries.HashConsistent | client/src/main/java/com/fg/mail/smtp/client/model/SmtpLogEntry.java:101-130 | equal entries with a defined hash code have equal hash codes |
| SmtpLogEntries.CompareReflexive | client/src/main/java/com/fg/mail/smtp/client/model/SmtpLogEntry.java:151-152 | an entry with a date compares as 0 with itself |
| SmtpLogEntries.CompareEqualEntries | client/src/main/java/com/fg/mail/smtp/client/model/SmtpLogEntry.java:149-152 | equal entries compare as 0 |
| SmtpLogEntries.SameDateNotAntisymmetric | client/src/main/java/com/fg/mail/smtp/client/model/SmtpLogEntry.java:148-155 | two different entries with the same date each compare as 1 against the other, so compareTo is not antisymmetric |
| SmtpLogEntries.ReverseIsNegation | client/src/main/java/com/fg/mail/smtp/client/model/SmtpLogEntry.java:148-167 | the reverse comparator is compareTo with the sign flipped, throwing exactly when compareTo throws |
| SmtpLogEntries.DistinctDatesOrdered | client/src/main/java/com/fg/mail/smtp/client/model/SmtpLogEntry.java:148-155 | for distinct dates, a compares ahead of b iff b compares behind a, iff a is later |

## Left out

- client/src/main/java/com/fg/mail/smtp/client/JsonHttpClient.java, client/src/main/java/com/fg/mail/smtp/client/ConnectionConfig.java and client/src/main/java/com/fg/mail/smtp/client/SmtpAgentClient.java are not part of this model. They cover network I/O, connection headers and timeouts, Base64 encoding and JSON decoding. The batch loop in the HTTP client visits `getRequests()` in order, and that order is covered by the `BatchAgentReq` lemmas.
- client/src/main/java/com/fg/mail/smtp/client/model/AgentResponse.java and client/src/main/java/com/fg/mail/smtp/client/model/ResponseStatus.java are not part of this model. They are JSON decoding targets.
- client/src/main/java/com/fg/mail/smtp/client/javax/ClientIdMimeMessage.java is not part of this model. It depends on javax.mail, `SecureRandom` and a static counter.
- `AgentUrl.getURL` is left out. It builds a `java.net.URL`. The string it parses is `Print`.
- The `toString` methods are left out. The ones on `IndexFiltering` and `IndexQuery` only call `print`. The one on `SmtpLogEntry` is debug text.
- `appendSegment(null)` appends `/null`, and `print()` on an `AgentUrl` built with a null request throws. Neither is modelled: a segment is a string and the request is never null here.
- The getters are the datatype fields and class constants themselves.
- `System.currentTimeMillis()` is the parameter `now` of the `BatchAgentReq` constructor and of the batch factory methods.
- `TimeUnit.toMillis` is not modelled. The job timeframe is given in milliseconds (`slice`), and the factories pass it on unchanged.
- Timestamps are unbounded integers. A `long` overflow of `current += batchTimeframe` near `Long.MAX_VALUE` is not modelled.
- BatchAgentReqs.BatchAgentReq.constructor: requires slice > 0. The source never checks the slice. A slice of zero or less makes `computeInterval` loop without end, or until the long wraps.
- The Java `assert`s are `requires`. With assertions disabled, the JVM would let a null flag, grouping or `from` through. Those runs are not modelled.
- A null client id, a null `Eq` passed to `forClientIdAnd`, and an `Eq` with a null property are not modelled. The types here rule them out.
- A null `Property` in `BySingle`/`ByTuple`, a null root in `AppendablePath` and a null host in `AgentUrl` are not modelled either. The source rejects them with `assert`, and the types here rule them out.
- `Grouping.P_NAME`, `LastOrFirst.P_NAME` and `Property.toString()` are defined outside the classes modelled here. The first two are uninterpreted constants. A property is its text.
- IndexQueries.PrintIsQueryText: proved only under `ParamNamesSound()`, because the two uninterpreted names could collide with `from`/`to` or start with `&`.
- SmtpLogEntries.SmtpLogEntry.Equals: the `getClass()` comparison is not modelled. Every entry has the same class.
- JavaText.StringHash: hashes each character as one code point. Java hashes UTF-16 code units, so characters outside the Basic Multilingual Plane hash differently.
- SmtpLogEntries.HashFields: the state is an unbounded integer wrapped to 32 bits. In the source it is already an `Integer`.
- The class comment of `BatchAgentReq` (lines 13-15) and the comment on `computeInterval` (line 37) describe a list of at least two elements whose last element may be null. The code always ends the list with `to` (or now). When from >= to it yields the one-element list `[to]` and no sub-request. The model follows the code.
