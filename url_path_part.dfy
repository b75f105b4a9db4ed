/** The closed set of filterable attributes and the wire name each one has as
    a path segment key. */
module UrlPathParts {
  import opened Wrappers

  datatype UrlPathPart = ClientId | RcptEmail | QueueId | MsgId

  /** getName: the wire name fixed for each constant. The client id travels
      under the historical key "agent-read". */
  function Name(p: UrlPathPart): (name: string)
    ensures |name| > 0 && '/' !in name
  {
    match p
    case ClientId => "agent-read"
    case RcptEmail => "rcptEmail"
    case QueueId => "queue"
    case MsgId => "message"
  }

  /** The attribute a wire name stands for, if any. */
  function PartNamed(name: string): (p: Option<UrlPathPart>)
    ensures p.Some? ==> Name(p.value) == name
  {
    if name == "agent-read" then Some(ClientId)
    else if name == "rcptEmail" then Some(RcptEmail)
    else if name == "queue" then Some(QueueId)
    else if name == "message" then Some(MsgId)
    else None
  }

  /** Every wire name reads back as its own attribute. */
  lemma NameRoundTrip(p: UrlPathPart)
    ensures PartNamed(Name(p)) == Some(p)
  {
  }

  /** The mapping is injective: the four wire names are pairwise distinct. */
  lemma NameInjective(p: UrlPathPart, q: UrlPathPart)
    ensures Name(p) == Name(q) <==> p == q
  {
    NameRoundTrip(p);
    NameRoundTrip(q);
  }

  /** The four wire names as the enum declares them. */
  lemma WireNames()
    ensures Name(ClientId) == "agent-read" && Name(ClientId) != "clientId"
    ensures Name(RcptEmail) == "rcptEmail"
    ensures Name(QueueId) == "queue"
    ensures Name(MsgId) == "message"
  {
  }
}
