/** AgentUrl: the URL string http://host:port + path + query of a request. */
module AgentUrls {
  import opened Wrappers
  import opened JavaText
  import opened AgentReqs
  import IndexQueries
  import IndexFilterings

  predicate EndsWithSlash(s: string) {
    |s| > 0 && s[|s| - 1] == '/'
  }

  /** "http://" + host + ":" + port in decimal. */
  function Prefix(host: string, port: int): string {
    "http://" + host + ":" + DecimalString(port)
  }

  /** The URL of a request: the prefix, then the path when there is one, then
      the query when there is both a path and a query. */
  function UrlText(host: string, port: int, request: AgentReq): (url: string)
    reads PathObjects(request.path)
    ensures |Prefix(host, port)| <= |url| && url[..|Prefix(host, port)|] == Prefix(host, port)
  {
    var prefix := Prefix(host, port);
    if request.path.NoPath? then prefix
    else
      var withPath := prefix + PathText(request.path);
      if request.query.None? then withPath
      else withPath + IndexQueries.Print(request.query.value)
  }

  class AgentUrl {
    const host: string
    const port: int
    const request: AgentReq

    /** The constructor rejects a host ending in "/". */
    constructor (host: string, port: int, request: AgentReq)
      requires !EndsWithSlash(host)
      ensures this.host == host && this.port == port && this.request == request
    {
      this.host := host;
      this.port := port;
      this.request := request;
    }

    /** print: appends host, port, path and query in turn; changes nothing. */
    method Print() returns (url: string)
      ensures url == UrlText(host, port, request)
    {
      var base := "http://";
      base := base + host;
      base := base + ":";
      base := base + DecimalString(port);
      var query := request.query;
      match request.path {
        case NoPath =>
        case Filtering(f) =>
          var path := f.Print();
          base := base + path;
          if query.Some? {
            base := base + IndexQueries.Print(query.value);
          }
        case Literal(a) =>
          var path := a.Print();
          base := base + path;
          if query.Some? {
            base := base + IndexQueries.Print(query.value);
          }
      }
      url := base;
    }
  }

  /** Without a path, neither path nor query is appended. */
  lemma NoPathUrl(host: string, port: int, request: AgentReq)
    requires request.path.NoPath?
    ensures UrlText(host, port, request) == Prefix(host, port)
  {
  }

  /** Without a query, the URL ends right after the path. */
  lemma QueryLessUrl(host: string, port: int, request: AgentReq)
    requires !request.path.NoPath? && request.query.None?
    ensures UrlText(host, port, request) == Prefix(host, port) + PathText(request.path)
  {
  }

  /** With a predicate path and a query, the URL is the prefix, the
      predicate pairs and the query string of the present parameters. */
  lemma FilteredQueryUrl(host: string, port: int, request: AgentReq)
    requires request.path.Filtering? && request.query.Some?
    requires IndexQueries.ParamNamesSound()
    ensures UrlText(host, port, request)
      == Prefix(host, port) + IndexFilterings.PathOf(request.path.filtering.filtering)
         + IndexQueries.QueryText(IndexQueries.Params(request.query.value))
  {
    IndexQueries.PrintIsQueryText(request.query.value);
  }

  /** A query whose parameters are all null adds nothing to the URL. */
  lemma EmptyQueryUrl(host: string, port: int, request: AgentReq)
    requires !request.path.NoPath?
    requires request.query == Some(IndexQueries.IndexQuery(None, None, None, None))
    ensures UrlText(host, port, request) == Prefix(host, port) + PathText(request.path)
  {
    IndexQueries.EmptyQueryPrintsNothing();
  }
}
