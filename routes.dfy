/** The routing table of client/endpoints.go: for each of the thirteen
    operations, the HTTP method, the URL template with its optional query
    parameter, the transport used and whether a payload is sent. */
module Routes {
  import opened Wrappers
  import opened Models
  import opened Format
  import opened Transport

  const EndpointPath := "/v2/endpoint/"

  /** One operation of the client with the arguments that shape its URL. */
  datatype Operation =
    | List(tags: Option<string>)
    | Create
    | Get(name: string)
    | Update(name: string)
    | Delete(name: string)
    | Logs(name: string, replica: Option<string>)
    | LogsStream(name: string, replica: Option<string>)
    | Metrics(name: string)
    | Metric(name: string, metricType: string)
    | Pause(name: string)
    | Replicas(name: string)
    | Resume(name: string)
    | ScaleToZero(name: string)
    | Sse(name: string)

  /** Operations on one endpoint, as opposed to the namespace's collection. */
  predicate Named(op: Operation)
  {
    !(op.List? || op.Create?)
  }

  /** What follows the endpoint name in the path. */
  function Suffix(op: Operation): string
  {
    match op
    case Logs(_, _) => "/logs"
    case LogsStream(_, _) => "/logs/sse"
    case Metrics(_) => "/metrics"
    case Metric(_, metricType) => "/metrics/" + metricType
    case Pause(_) => "/pause"
    case Replicas(_) => "/replicas"
    case Resume(_) => "/resume"
    case ScaleToZero(_) => "/scale-to-zero"
    case Sse(_) => "/sse"
    case _ => ""
  }

  /** The query string appended by plain concatenation, without escaping. */
  function Query(op: Operation): string
  {
    match op
    case List(Some(tags)) => "?tags=" + tags
    case Logs(_, Some(replica)) => "?replica=" + replica
    case LogsStream(_, Some(replica)) => "?replica=" + replica
    case _ => ""
  }

  /** `fmt.Sprintf("%s/v2/endpoint/%s", host, namespace)`. */
  function CollectionUrl(host: string, namespace: string): string
  {
    host + EndpointPath + namespace
  }

  function Path(namespace: string, op: Operation): string
  {
    namespace + (if Named(op) then "/" + op.name + Suffix(op) else "")
  }

  /** The URL an operation targets. */
  function UrlOf(host: string, namespace: string, op: Operation): (url: string)
    ensures HasPrefix(url, CollectionUrl(host, namespace))
  {
    host + EndpointPath + Path(namespace, op) + Query(op)
  }

  function VerbOf(op: Operation): Verb
  {
    match op
    case Create | Pause(_) | Resume(_) | ScaleToZero(_) => POST
    case Update(_) => PUT
    case Delete(_) => DELETE
    case _ => GET
  }

  /** The operations served by the streaming transport. */
  predicate Streams(op: Operation)
  {
    op.LogsStream? || op.Sse?
  }

  /** The request an operation sends through a client with the given host and
      token; `payload` is the serialised body (create and update only). */
  function RequestOf(host: string, token: string, namespace: string, op: Operation, payload: Option<seq<byte>>): (req: Outbound)
    ensures "Authorization" in req.header && req.header["Authorization"] == "Bearer " + token
    ensures ("Content-Type" in req.header) <==> !Streams(op)
    ensures "Accept" in req.header && req.header["Accept"] == if Streams(op) then EventStreamType else JsonType
  {
    var header := if Streams(op) then StreamHeaders(map[], Some(token)) else BufferedHeaders(map[], Some(token));
    Outbound(VerbOf(op), UrlOf(host, namespace, op), header, payload)
  }

  /** The path segments after the namespace. */
  function PathSegments(op: Operation): seq<string>
  {
    match op
    case List(_) => []
    case Create => []
    case Get(name) => [name]
    case Update(name) => [name]
    case Delete(name) => [name]
    case Logs(name, _) => [name, "logs"]
    case LogsStream(name, _) => [name, "logs", "sse"]
    case Metrics(name) => [name, "metrics"]
    case Metric(name, metricType) => [name, "metrics", metricType]
    case Pause(name) => [name, "pause"]
    case Replicas(name) => [name, "replicas"]
    case Resume(name) => [name, "resume"]
    case ScaleToZero(name) => [name, "scale-to-zero"]
    case Sse(name) => [name, "sse"]
  }

  /** `strings.Join(parts, "/")`. */
  function Join(parts: seq<string>): string
    requires |parts| > 0
  {
    if |parts| == 1 then parts[0] else parts[0] + "/" + Join(parts[1..])
  }

  /** A character `url.Parse` keeps as it is in a path: printable ASCII
      other than `#`, which starts the fragment, `%`, which starts an escape,
      and the characters it escapes (space, `"`, `<`, `>`, `\`, `^`, a
      backquote, `{`, `|` and `}`). */
  predicate Verbatim(c: char)
  {
    && 0x20 < c as int < 0x7f
    && c != '#' && c != '%' && c != '"' && c != '<' && c != '>'
    && c != '\\' && c != '^' && c != '`' && c != '{' && c != '|' && c != '}'
  }

  /** A string every character of which `url.Parse` keeps as it is. */
  predicate VerbatimString(s: string)
  {
    forall i :: 0 <= i < |s| ==> Verbatim(s[i])
  }

  /** A string that can stand as one path segment, and is sent as it is: it
      ends no segment early, starts no query and needs no escaping. */
  predicate Segment(s: string)
  {
    '/' !in s && '?' !in s && VerbatimString(s)
  }

  /** The namespace, name and metric type are single path segments, and a
      filter value holds no `#`. */
  predicate WellFormed(namespace: string, op: Operation)
  {
    && Segment(namespace)
    && (Named(op) ==> Segment(op.name))
    && (op.Metric? ==> Segment(op.metricType))
    && '#' !in Query(op)
  }

  lemma {:induction false} SplitJoin(parts: seq<string>)
    requires |parts| > 0
    requires forall i :: 0 <= i < |parts| ==> '/' !in parts[i]
    ensures SplitOn(Join(parts), '/') == parts
    decreases |parts|
  {
    if |parts| == 1 {
      SplitWithout(parts[0], '/');
    } else {
      SplitJoin(parts[1..]);
      assert Join(parts) == parts[0] + ['/'] + Join(parts[1..]);
      SplitAt(parts[0], Join(parts[1..]), '/');
      assert parts == [parts[0]] + parts[1..];
    }
  }

  lemma {:induction false} JoinAvoids(parts: seq<string>, c: char)
    requires |parts| > 0 && c != '/'
    requires forall i :: 0 <= i < |parts| ==> c !in parts[i]
    ensures c !in Join(parts)
    decreases |parts|
  {
    if |parts| > 1 {
      JoinAvoids(parts[1..], c);
      assert Join(parts) == parts[0] + ("/" + Join(parts[1..]));
    }
  }

  /** Each part preceded by a `/`. */
  function Slashed(parts: seq<string>): string
  {
    if parts == [] then "" else "/" + parts[0] + Slashed(parts[1..])
  }

  lemma {:induction false} JoinSlashed(first: string, rest: seq<string>)
    ensures Join([first] + rest) == first + Slashed(rest)
    decreases |rest|
  {
    if rest != [] {
      assert ([first] + rest)[1..] == [rest[0]] + rest[1..];
      JoinSlashed(rest[0], rest[1..]);
    }
  }

  /** The suffix of a path of two segments: a slash and the second. */
  lemma SlashedTail1(segs: seq<string>)
    requires |segs| == 2
    ensures Slashed(segs[1..]) == "/" + segs[1]
  {
    assert segs[1..] == [segs[1]];
    assert [segs[1]][1..] == [];
  }

  /** The suffix of a path of three segments: the second and the third, each after a slash. */
  lemma SlashedTail2(segs: seq<string>)
    requires |segs| == 3
    ensures Slashed(segs[1..]) == "/" + segs[1] + "/" + segs[2]
  {
    var tail := segs[1..];
    SlashedTail1(tail);
    assert tail[0] == segs[1] && tail[1] == segs[2];
  }

  /** The suffixes of the two log operations. */
  lemma LogsSuffixIsSlashed(op: Operation)
    requires op.Logs? || op.LogsStream?
    ensures Suffix(op) == Slashed(PathSegments(op)[1..])
  {
    if op.Logs? {
      SlashedTail1(PathSegments(op));
    } else {
      SlashedTail2(PathSegments(op));
    }
  }

  /** The suffixes of the two metric operations. */
  lemma MetricsSuffixIsSlashed(op: Operation)
    requires op.Metrics? || op.Metric?
    ensures Suffix(op) == Slashed(PathSegments(op)[1..])
  {
    if op.Metrics? {
      SlashedTail1(PathSegments(op));
    } else {
      SlashedTail2(PathSegments(op));
    }
  }

  /** The suffixes of pause, resume and scale-to-zero. */
  lemma ActionSuffixIsSlashed(op: Operation)
    requires op.Pause? || op.Resume? || op.ScaleToZero?
    ensures Suffix(op) == Slashed(PathSegments(op)[1..])
  {
    SlashedTail1(PathSegments(op));
  }

  /** The suffixes of replicas and sse. */
  lemma StatusSuffixIsSlashed(op: Operation)
    requires op.Replicas? || op.Sse?
    ensures Suffix(op) == Slashed(PathSegments(op)[1..])
  {
    SlashedTail1(PathSegments(op));
  }

  lemma SuffixIsSlashed(op: Operation)
    requires Named(op)
    ensures Suffix(op) == Slashed(PathSegments(op)[1..])
  {
    if op.Get? || op.Update? || op.Delete? {
      assert PathSegments(op)[1..] == [];
    } else if op.Logs? || op.LogsStream? {
      LogsSuffixIsSlashed(op);
    } else if op.Metrics? || op.Metric? {
      MetricsSuffixIsSlashed(op);
    } else if op.Pause? || op.Resume? || op.ScaleToZero? {
      ActionSuffixIsSlashed(op);
    } else {
      StatusSuffixIsSlashed(op);
    }
  }

  /** The path of an operation is its segments joined with `/`. */
  lemma PathIsJoin(namespace: string, op: Operation)
    ensures Path(namespace, op) == Join([namespace] + PathSegments(op))
  {
    JoinSlashed(namespace, PathSegments(op));
    if Named(op) {
      var t := PathSegments(op)[1..];
      assert PathSegments(op) == [op.name] + t;
      assert Slashed(PathSegments(op)) == "/" + op.name + Slashed(t);
      SuffixIsSlashed(op);
    }
  }

  /** Reads the value of `key=value` when the query is present. */
  function ParseFilter(query: Option<string>, key: string): Option<Option<string>>
  {
    match query
    case None => Some(None)
    case Some(q) => if HasPrefix(q, key + "=") then Some(Some(q[|key| + 1..])) else None
  }

  /** Recognises an operation from its method, the segments after the namespace and the query. */
  function ParseOperation(verb: Verb, segments: seq<string>, query: Option<string>): Option<Operation>
  {
    if segments == [] then
      if verb == GET then
        match ParseFilter(query, "tags")
        case Some(tags) => Some(List(tags))
        case None => None
      else if verb == POST && query.None? then Some(Create)
      else None
    else
      var name := segments[0];
      var tail := segments[1..];
      if verb == GET && (tail == ["logs"] || tail == ["logs", "sse"]) then
        match ParseFilter(query, "replica")
        case Some(replica) => Some(if tail == ["logs"] then Logs(name, replica) else LogsStream(name, replica))
        case None => None
      else if query.Some? then None
      else if tail == [] then
        match verb
        case GET => Some(Get(name))
        case PUT => Some(Update(name))
        case DELETE => Some(Delete(name))
        case POST => None
      else if verb == GET && tail == ["metrics"] then Some(Metrics(name))
      else if verb == GET && |tail| == 2 && tail[0] == "metrics" then Some(Metric(name, tail[1]))
      else if verb == GET && tail == ["replicas"] then Some(Replicas(name))
      else if verb == GET && tail == ["sse"] then Some(Sse(name))
      else if verb == POST && tail == ["pause"] then Some(Pause(name))
      else if verb == POST && tail == ["resume"] then Some(Resume(name))
      else if verb == POST && tail == ["scale-to-zero"] then Some(ScaleToZero(name))
      else None
  }

  /** Takes a URL on `host` apart into the path segments after the
      endpoint prefix and the query after the first `?`. */
  function SplitUrl(host: string, url: string): Option<(seq<string>, Option<string>)>
  {
    var prefix := host + EndpointPath;
    if !HasPrefix(url, prefix) then None
    else
      var rest := url[|prefix|..];
      var q := IndexOf(rest, '?');
      Some((SplitOn(rest[..q], '/'), if q == |rest| then None else Some(rest[q + 1..])))
  }

  /** Recognises the namespace and the operation a request addresses on `host`. */
  function ParseRequest(host: string, verb: Verb, url: string): Option<(string, Operation)>
  {
    match SplitUrl(host, url)
    case None => None
    case Some((segments, query)) =>
      match ParseOperation(verb, segments[1..], query)
      case Some(op) => Some((segments[0], op))
      case None => None
  }

  /** The query of an operation, without its `?`. */
  function QueryParameter(op: Operation): Option<string>
  {
    if Query(op) == [] then None else Some(Query(op)[1..])
  }

  lemma FilterRoundTrip(key: string, value: string)
    ensures ParseFilter(Some(key + "=" + value), key) == Some(Some(value))
  {
    assert (key + "=" + value)[..|key| + 1] == key + "=";
    assert (key + "=" + value)[|key| + 1..] == value;
  }

  /** The method, the segments after the namespace and the query identify the operation. */
  lemma OperationRoundTrip(op: Operation)
    ensures ParseOperation(VerbOf(op), PathSegments(op), QueryParameter(op)) == Some(op)
  {
    match op
    case List(Some(tags)) =>
      assert Query(op)[1..] == "tags" + "=" + tags;
      FilterRoundTrip("tags", tags);
    case Logs(_, Some(replica)) =>
      assert Query(op)[1..] == "replica" + "=" + replica;
      FilterRoundTrip("replica", replica);
    case LogsStream(_, Some(replica)) =>
      assert Query(op)[1..] == "replica" + "=" + replica;
      FilterRoundTrip("replica", replica);
    case _ =>
  }

  /** What `SplitUrl` does once the prefix is recognised. */
  lemma SplitUrlAfterPrefix(host: string, path: string, query: string)
    ensures var rest := path + query;
      var q := IndexOf(rest, '?');
      SplitUrl(host, host + EndpointPath + path + query)
      == Some((SplitOn(rest[..q], '/'), if q == |rest| then None else Some(rest[q + 1..])))
  {
    var prefix := host + EndpointPath;
    var rest := path + query;
    var url := prefix + rest;
    assert host + EndpointPath + path + query == url;
    assert url[..|prefix|] == prefix;
    assert HasPrefix(url, prefix);
    assert url[|prefix|..] == rest;
  }

  /** The path ends at the first `?`, and splits back into its segments. */
  lemma PathThenQuery(segments: seq<string>, query: string)
    requires |segments| > 0
    requires forall i :: 0 <= i < |segments| ==> Segment(segments[i])
    requires query != [] ==> query[0] == '?'
    ensures var path := Join(segments);
      && IndexOf(path + query, '?') == |path|
      && (path + query)[..|path|] == path
      && SplitOn(path, '/') == segments
      && (query != [] ==> (path + query)[|path| + 1..] == query[1..])
  {
    var path := Join(segments);
    assert '?' !in path by {
      JoinAvoids(segments, '?');
    }
    IndexOfAfter(path, query, '?');
    assert (path + query)[..|path|] == path;
    SplitJoin(segments);
    assert query != [] ==> (path + query)[|path| + 1..] == query[1..];
  }

  /** How a URL made of well-formed segments and a query is taken apart. */
  lemma UrlParts(host: string, segments: seq<string>, query: string)
    requires |segments| > 0
    requires forall i :: 0 <= i < |segments| ==> Segment(segments[i])
    requires query != [] ==> query[0] == '?'
    ensures SplitUrl(host, host + EndpointPath + Join(segments) + query)
      == Some((segments, if query == [] then None else Some(query[1..])))
  {
    var path := Join(segments);
    var rest := path + query;
    SplitUrlAfterPrefix(host, path, query);
    PathThenQuery(segments, query);
    var q := IndexOf(rest, '?');
    assert q == |path|;
    assert SplitOn(rest[..q], '/') == segments;
    assert q == |rest| <==> query == [];
  }

  /** The words the paths spell out are segments. */
  lemma WordsAreSegments()
    ensures Segment("logs") && Segment("sse") && Segment("metrics")
    ensures Segment("pause") && Segment("replicas") && Segment("resume") && Segment("scale-to-zero")
  {
  }

  /** An operation's path segments are segments when its name and metric type are. */
  lemma OperationSegments(op: Operation)
    requires Named(op) ==> Segment(op.name)
    requires op.Metric? ==> Segment(op.metricType)
    ensures forall i :: 0 <= i < |PathSegments(op)| ==> Segment(PathSegments(op)[i])
  {
    WordsAreSegments();
  }

  /** A well-formed operation's path, namespace first, is made of segments. */
  lemma WellFormedSegments(namespace: string, op: Operation)
    requires WellFormed(namespace, op)
    ensures var segs := [namespace] + PathSegments(op);
      forall i :: 0 <= i < |segs| ==> Segment(segs[i])
  {
    var segs := [namespace] + PathSegments(op);
    OperationSegments(op);
    forall i | 0 <= i < |segs|
      ensures Segment(segs[i])
    {
      if i > 0 {
        assert segs[i] == PathSegments(op)[i - 1];
      }
    }
  }

  lemma RouteRoundTrip(host: string, namespace: string, op: Operation)
    requires WellFormed(namespace, op)
    ensures ParseRequest(host, VerbOf(op), UrlOf(host, namespace, op)) == Some((namespace, op))
  {
    var segs := [namespace] + PathSegments(op);
    WellFormedSegments(namespace, op);
    PathIsJoin(namespace, op);
    assert Query(op) != [] ==> Query(op)[0] == '?';
    UrlParts(host, segs, Query(op));
    assert segs[1..] == PathSegments(op);
    OperationRoundTrip(op);
  }

  /** Two well-formed operations never share a method and a URL. */
  lemma RoutesAreDistinct(host: string, ns1: string, op1: Operation, ns2: string, op2: Operation)
    requires WellFormed(ns1, op1) && WellFormed(ns2, op2)
    requires VerbOf(op1) == VerbOf(op2) && UrlOf(host, ns1, op1) == UrlOf(host, ns2, op2)
    ensures ns1 == ns2 && op1 == op2
  {
    RouteRoundTrip(host, ns1, op1);
    RouteRoundTrip(host, ns2, op2);
  }

  /** A URL string up to its first `#`: `url.Parse` takes the rest as a
      fragment, which never leaves the client. When nothing before the `#`
      needs escaping, this is the URL that is sent; escaping is not modelled. */
  function SentUrl(url: string): (sent: string)
    ensures sent <= url && '#' !in sent
    ensures '#' !in url ==> sent == url
  {
    url[..IndexOf(url, '#')]
  }

  /** On a host that needs no escaping, a well-formed operation's URL holds
      no `#` and so loses nothing to a fragment. */
  lemma UrlIsSentWhole(host: string, namespace: string, op: Operation)
    requires VerbatimString(host) && WellFormed(namespace, op)
    ensures SentUrl(UrlOf(host, namespace, op)) == UrlOf(host, namespace, op)
  {
    var segs := [namespace] + PathSegments(op);
    PathIsJoin(namespace, op);
    WellFormedSegments(namespace, op);
    JoinAvoids(segs, '#');
    assert UrlOf(host, namespace, op) == host + EndpointPath + Join(segs) + Query(op);
  }

  /** On a host that needs no escaping, two well-formed operations never
      share a method and a URL up to its fragment. */
  lemma SentRoutesAreDistinct(host: string, ns1: string, op1: Operation, ns2: string, op2: Operation)
    requires VerbatimString(host) && WellFormed(ns1, op1) && WellFormed(ns2, op2)
    ensures VerbOf(op1) == VerbOf(op2) && SentUrl(UrlOf(host, ns1, op1)) == SentUrl(UrlOf(host, ns2, op2))
            ==> ns1 == ns2 && op1 == op2
  {
    UrlIsSentWhole(host, ns1, op1);
    UrlIsSentWhole(host, ns2, op2);
    if VerbOf(op1) == VerbOf(op2) && UrlOf(host, ns1, op1) == UrlOf(host, ns2, op2) {
      RoutesAreDistinct(host, ns1, op1, ns2, op2);
    }
  }

  /** A `#` in a namespace cuts what is sent: getting endpoint `n` of
      namespace `x#y` sends the same request line as listing namespace `x`,
      which is why a segment holds no `#`. */
  lemma FragmentsAreNotSent(host: string)
    requires '#' !in host
    ensures VerbOf(Get("n")) == VerbOf(List(None))
    ensures SentUrl(UrlOf(host, "x#y", Get("n"))) == SentUrl(UrlOf(host, "x", List(None)))
  {
    var listed := host + EndpointPath + "x";
    assert UrlOf(host, "x", List(None)) == listed;
    assert UrlOf(host, "x#y", Get("n")) == listed + "#y/n";
    IndexOfAfter(listed, "#y/n", '#');
  }

  /** Names that `url.Parse` would rewrite are not segments: a namespace
      `a b` is sent as `a%20b`, the same as the namespace `a%20b`. */
  lemma EscapedNamesAreNotSegments()
    ensures !Segment("a b") && !Segment("a%20b")
  {
    assert !Verbatim("a b"[1]);
    assert !Verbatim("a%20b"[1]);
  }

  /** Names are not escaped: a name holding a slash can spell another
      operation's URL, which is why the two lemmas above ask for segments. */
  lemma NamesAreNotEscaped(host: string, namespace: string)
    ensures VerbOf(Get("api/logs")) == VerbOf(Logs("api", None))
    ensures UrlOf(host, namespace, Get("api/logs")) == UrlOf(host, namespace, Logs("api", None))
  {
    assert "/" + "api/logs" == "/" + "api" + "/logs";
  }
}
