/** The thirteen operations of client/endpoints.go. Each builds its URL from
    the client's host, sends one request through the buffered or the
    streaming transport with the client's own token, and shapes the result.

    JSON encoding and decoding are outside the model: `encode` and `decode`
    stand for `json.Marshal` and `json.Unmarshal` into the expected shape. */
module Endpoints {
  import opened Wrappers
  import opened Models
  import opened Errors
  import opened Transport
  import opened Routes

  /** A buffered outcome decoded into the operation's result shape. */
  function Decoded<T>(raw: Result<seq<byte>, Error>, decode: seq<byte> -> Result<T, string>): (r: Result<T, Error>)
    ensures raw.Err? ==> r == Err(raw.error)
    ensures raw.Ok? && decode(raw.value).Err? ==> r == Err(DecodeError(decode(raw.value).error))
    ensures r.Ok? <==> raw.Ok? && decode(raw.value).Ok?
    ensures r.Ok? ==> r.value == decode(raw.value).value
  {
    match raw
    case Err(e) => Err(e)
    case Ok(body) =>
      match decode(body)
      case Ok(v) => Ok(v)
      case Err(reason) => Err(DecodeError(reason))
  }

  /** The error of an operation that only reports success; the body is discarded. */
  function Discarded(raw: Result<seq<byte>, Error>): (err: Option<Error>)
    ensures err.None? <==> raw.Ok?
    ensures raw.Err? ==> err == Some(raw.error)
  {
    if raw.Ok? then None else Some(raw.error)
  }

  /** The client kept its host and token, installed the fallback HTTP client
      if it had none, and exactly one request, `sent`, went out. */
  twostate predicate SentOnce(c: Client, net: Network, sent: Outbound, fallbackTimeout: nat)
    reads c, net
  {
    && c.host == old(c.host) && c.token == old(c.token)
    && c.httpClient == (if old(c.httpClient).None? then Some(HttpClient(fallbackTimeout)) else old(c.httpClient))
    && net.log == old(net.log) + [sent]
  }

  /** The reply to `sent` through the client's HTTP client. */
  function ReplyTo(c: Client, net: Network, sent: Outbound): Reply
    reads c
    requires c.httpClient.Some?
  {
    net.respond(c.httpClient.value.timeoutSeconds, sent)
  }

  /** The URL of an operation on one endpoint, in the order the source assembles it. */
  lemma UrlOfNamed(host: string, namespace: string, op: Operation)
    requires Named(op)
    ensures UrlOf(host, namespace, op) == CollectionUrl(host, namespace) + "/" + op.name + Suffix(op) + Query(op)
  {
    assert UrlOf(host, namespace, op) == host + EndpointPath + (namespace + ("/" + op.name + Suffix(op))) + Query(op);
  }

  /** The URL of an operation on the collection. */
  lemma UrlOfCollection(host: string, namespace: string, op: Operation)
    requires !Named(op)
    ensures UrlOf(host, namespace, op) == CollectionUrl(host, namespace) + Query(op)
  {
    assert Path(namespace, op) == namespace + "";
  }

  method ListEndpoints(c: Client, net: Network, namespace: string, tags: Option<string>,
                       decode: seq<byte> -> Result<seq<EndpointWithStatus>, string>)
    returns (r: Result<seq<EndpointWithStatus>, Error>)
    modifies c, net
    ensures var sent := RequestOf(old(c.host), old(c.token), namespace, List(tags), None);
      && SentOnce(c, net, sent, BufferedFallbackTimeout)
      && r == Decoded(Classify(ReplyTo(c, net, sent)), decode)
  {
    var url := CollectionUrl(c.host, namespace);
    if tags.Some? {
      url := url + "?tags=" + tags.value;
    }
    UrlOfCollection(c.host, namespace, List(tags));
    var req := new Request(GET, url, None);
    var raw;
    ghost var resp;
    raw, resp := c.DoRequest(req, Some(c.token), net);
    assert req.Snapshot() == RequestOf(old(c.host), old(c.token), namespace, List(tags), None);
    if raw.Err? {
      return Err(raw.error);
    }
    var items := decode(raw.value);
    if items.Err? {
      return Err(DecodeError(items.error));
    }
    return Ok(items.value);
  }

  method CreateEndpoint(c: Client, net: Network, namespace: string, endpoint: Endpoint,
                        encode: Endpoint -> seq<byte>, decode: seq<byte> -> Result<EndpointWithStatus, string>)
    returns (r: Result<EndpointWithStatus, Error>)
    modifies c, net
    ensures var sent := RequestOf(old(c.host), old(c.token), namespace, Create, Some(encode(endpoint)));
      && SentOnce(c, net, sent, BufferedFallbackTimeout)
      && r == Decoded(Classify(ReplyTo(c, net, sent)), decode)
  {
    var rb := encode(endpoint);
    UrlOfCollection(c.host, namespace, Create);
    var req := new Request(POST, CollectionUrl(c.host, namespace), Some(rb));
    var raw;
    ghost var resp;
    raw, resp := c.DoRequest(req, Some(c.token), net);
    assert req.Snapshot() == RequestOf(old(c.host), old(c.token), namespace, Create, Some(encode(endpoint)));
    if raw.Err? {
      return Err(raw.error);
    }
    var created := decode(raw.value);
    if created.Err? {
      return Err(DecodeError(created.error));
    }
    return Ok(created.value);
  }

  method GetEndpoint(c: Client, net: Network, namespace: string, name: string,
                     decode: seq<byte> -> Result<EndpointWithStatus, string>)
    returns (r: Result<EndpointWithStatus, Error>)
    modifies c, net
    ensures var sent := RequestOf(old(c.host), old(c.token), namespace, Get(name), None);
      && SentOnce(c, net, sent, BufferedFallbackTimeout)
      && r == Decoded(Classify(ReplyTo(c, net, sent)), decode)
  {
    UrlOfNamed(c.host, namespace, Get(name));
    var req := new Request(GET, CollectionUrl(c.host, namespace) + "/" + name, None);
    var raw;
    ghost var resp;
    raw, resp := c.DoRequest(req, Some(c.token), net);
    assert req.Snapshot() == RequestOf(old(c.host), old(c.token), namespace, Get(name), None);
    if raw.Err? {
      return Err(raw.error);
    }
    var endpoint := decode(raw.value);
    if endpoint.Err? {
      return Err(DecodeError(endpoint.error));
    }
    return Ok(endpoint.value);
  }

  method UpdateEndpoint(c: Client, net: Network, namespace: string, name: string, update: EndpointUpdate,
                        encode: EndpointUpdate -> seq<byte>, decode: seq<byte> -> Result<EndpointWithStatus, string>)
    returns (r: Result<EndpointWithStatus, Error>)
    modifies c, net
    ensures var sent := RequestOf(old(c.host), old(c.token), namespace, Update(name), Some(encode(update)));
      && SentOnce(c, net, sent, BufferedFallbackTimeout)
      && r == Decoded(Classify(ReplyTo(c, net, sent)), decode)
  {
    var rb := encode(update);
    UrlOfNamed(c.host, namespace, Update(name));
    var req := new Request(PUT, CollectionUrl(c.host, namespace) + "/" + name, Some(rb));
    var raw;
    ghost var resp;
    raw, resp := c.DoRequest(req, Some(c.token), net);
    assert req.Snapshot() == RequestOf(old(c.host), old(c.token), namespace, Update(name), Some(encode(update)));
    if raw.Err? {
      return Err(raw.error);
    }
    var updated := decode(raw.value);
    if updated.Err? {
      return Err(DecodeError(updated.error));
    }
    return Ok(updated.value);
  }

  method DeleteEndpoint(c: Client, net: Network, namespace: string, name: string)
    returns (err: Option<Error>)
    modifies c, net
    ensures var sent := RequestOf(old(c.host), old(c.token), namespace, Delete(name), None);
      && SentOnce(c, net, sent, BufferedFallbackTimeout)
      && err == Discarded(Classify(ReplyTo(c, net, sent)))
  {
    UrlOfNamed(c.host, namespace, Delete(name));
    var req := new Request(DELETE, CollectionUrl(c.host, namespace) + "/" + name, None);
    var raw;
    ghost var resp;
    raw, resp := c.DoRequest(req, Some(c.token), net);
    assert req.Snapshot() == RequestOf(old(c.host), old(c.token), namespace, Delete(name), None);
    err := if raw.Err? then Some(raw.error) else None;
  }

  method GetEndpointLogs(c: Client, net: Network, namespace: string, name: string, replicaId: Option<string>)
    returns (r: Result<seq<byte>, Error>)
    modifies c, net
    ensures var sent := RequestOf(old(c.host), old(c.token), namespace, Logs(name, replicaId), None);
      && SentOnce(c, net, sent, BufferedFallbackTimeout)
      && r == Classify(ReplyTo(c, net, sent))
  {
    var url := CollectionUrl(c.host, namespace) + "/" + name + "/logs";
    if replicaId.Some? {
      url := url + "?replica=" + replicaId.value;
    }
    UrlOfNamed(c.host, namespace, Logs(name, replicaId));
    var req := new Request(GET, url, None);
    ghost var resp;
    r, resp := c.DoRequest(req, Some(c.token), net);
    assert req.Snapshot() == RequestOf(old(c.host), old(c.token), namespace, Logs(name, replicaId), None);
  }

  method StreamEndpointLogs(c: Client, net: Network, namespace: string, name: string, replicaId: Option<string>)
    returns (r: Result<Body, Error>, ghost resp: Body?)
    modifies c, net
    ensures var sent := RequestOf(old(c.host), old(c.token), namespace, LogsStream(name, replicaId), None);
      && SentOnce(c, net, sent, StreamFallbackTimeout)
      && var outcome := Classify(ReplyTo(c, net, sent));
      && (r.Ok? <==> outcome.Ok?)
      && (r.Err? ==> r.error == outcome.error)
      && (r.Ok? ==> r.value == resp && r.value.content == outcome.value)
      && (r.Ok? ==> r.value.eofWithData == ReplyTo(c, net, sent).eofWithData)
    ensures r.Ok? ==> fresh(resp) && resp.Valid() && resp.consumed == [] && !resp.closed
    ensures r.Err? && resp != null ==> fresh(resp) && resp.closed
  {
    var url := CollectionUrl(c.host, namespace) + "/" + name + "/logs/sse";
    if replicaId.Some? {
      url := url + "?replica=" + replicaId.value;
    }
    UrlOfNamed(c.host, namespace, LogsStream(name, replicaId));
    var req := new Request(GET, url, None);
    r, resp := c.DoStreamRequest(req, Some(c.token), net);
    assert req.Snapshot() == RequestOf(old(c.host), old(c.token), namespace, LogsStream(name, replicaId), None);
  }

  method GetEndpointMetrics(c: Client, net: Network, namespace: string, name: string)
    returns (r: Result<seq<byte>, Error>)
    modifies c, net
    ensures var sent := RequestOf(old(c.host), old(c.token), namespace, Metrics(name), None);
      && SentOnce(c, net, sent, BufferedFallbackTimeout)
      && r == Classify(ReplyTo(c, net, sent))
  {
    UrlOfNamed(c.host, namespace, Metrics(name));
    var req := new Request(GET, CollectionUrl(c.host, namespace) + "/" + name + "/metrics", None);
    ghost var resp;
    r, resp := c.DoRequest(req, Some(c.token), net);
    assert req.Snapshot() == RequestOf(old(c.host), old(c.token), namespace, Metrics(name), None);
  }

  method GetEndpointMetric(c: Client, net: Network, namespace: string, name: string, metricType: string)
    returns (r: Result<seq<byte>, Error>)
    modifies c, net
    ensures var sent := RequestOf(old(c.host), old(c.token), namespace, Metric(name, metricType), None);
      && SentOnce(c, net, sent, BufferedFallbackTimeout)
      && r == Classify(ReplyTo(c, net, sent))
  {
    var url := CollectionUrl(c.host, namespace) + "/" + name + "/metrics/" + metricType;
    UrlOfNamed(c.host, namespace, Metric(name, metricType));
    var req := new Request(GET, url, None);
    ghost var resp;
    r, resp := c.DoRequest(req, Some(c.token), net);
    assert req.Snapshot() == RequestOf(old(c.host), old(c.token), namespace, Metric(name, metricType), None);
  }

  method PauseEndpoint(c: Client, net: Network, namespace: string, name: string)
    returns (err: Option<Error>)
    modifies c, net
    ensures var sent := RequestOf(old(c.host), old(c.token), namespace, Pause(name), None);
      && SentOnce(c, net, sent, BufferedFallbackTimeout)
      && err == Discarded(Classify(ReplyTo(c, net, sent)))
  {
    UrlOfNamed(c.host, namespace, Pause(name));
    var req := new Request(POST, CollectionUrl(c.host, namespace) + "/" + name + "/pause", None);
    var raw;
    ghost var resp;
    raw, resp := c.DoRequest(req, Some(c.token), net);
    assert req.Snapshot() == RequestOf(old(c.host), old(c.token), namespace, Pause(name), None);
    err := if raw.Err? then Some(raw.error) else None;
  }

  method GetEndpointReplicasStatuses(c: Client, net: Network, namespace: string, name: string)
    returns (r: Result<seq<byte>, Error>)
    modifies c, net
    ensures var sent := RequestOf(old(c.host), old(c.token), namespace, Replicas(name), None);
      && SentOnce(c, net, sent, BufferedFallbackTimeout)
      && r == Classify(ReplyTo(c, net, sent))
  {
    UrlOfNamed(c.host, namespace, Replicas(name));
    var req := new Request(GET, CollectionUrl(c.host, namespace) + "/" + name + "/replicas", None);
    ghost var resp;
    r, resp := c.DoRequest(req, Some(c.token), net);
    assert req.Snapshot() == RequestOf(old(c.host), old(c.token), namespace, Replicas(name), None);
  }

  method ResumeEndpoint(c: Client, net: Network, namespace: string, name: string)
    returns (err: Option<Error>)
    modifies c, net
    ensures var sent := RequestOf(old(c.host), old(c.token), namespace, Resume(name), None);
      && SentOnce(c, net, sent, BufferedFallbackTimeout)
      && err == Discarded(Classify(ReplyTo(c, net, sent)))
  {
    UrlOfNamed(c.host, namespace, Resume(name));
    var req := new Request(POST, CollectionUrl(c.host, namespace) + "/" + name + "/resume", None);
    var raw;
    ghost var resp;
    raw, resp := c.DoRequest(req, Some(c.token), net);
    assert req.Snapshot() == RequestOf(old(c.host), old(c.token), namespace, Resume(name), None);
    err := if raw.Err? then Some(raw.error) else None;
  }

  method ScaleEndpointToZero(c: Client, net: Network, namespace: string, name: string)
    returns (err: Option<Error>)
    modifies c, net
    ensures var sent := RequestOf(old(c.host), old(c.token), namespace, ScaleToZero(name), None);
      && SentOnce(c, net, sent, BufferedFallbackTimeout)
      && err == Discarded(Classify(ReplyTo(c, net, sent)))
  {
    UrlOfNamed(c.host, namespace, ScaleToZero(name));
    var req := new Request(POST, CollectionUrl(c.host, namespace) + "/" + name + "/scale-to-zero", None);
    var raw;
    ghost var resp;
    raw, resp := c.DoRequest(req, Some(c.token), net);
    assert req.Snapshot() == RequestOf(old(c.host), old(c.token), namespace, ScaleToZero(name), None);
    err := if raw.Err? then Some(raw.error) else None;
  }

  method GetEndpointSse(c: Client, net: Network, namespace: string, name: string)
    returns (r: Result<Body, Error>, ghost resp: Body?)
    modifies c, net
    ensures var sent := RequestOf(old(c.host), old(c.token), namespace, Sse(name), None);
      && SentOnce(c, net, sent, StreamFallbackTimeout)
      && var outcome := Classify(ReplyTo(c, net, sent));
      && (r.Ok? <==> outcome.Ok?)
      && (r.Err? ==> r.error == outcome.error)
      && (r.Ok? ==> r.value == resp && r.value.content == outcome.value)
      && (r.Ok? ==> r.value.eofWithData == ReplyTo(c, net, sent).eofWithData)
    ensures r.Ok? ==> fresh(resp) && resp.Valid() && resp.consumed == [] && !resp.closed
    ensures r.Err? && resp != null ==> fresh(resp) && resp.closed
  {
    UrlOfNamed(c.host, namespace, Sse(name));
    var req := new Request(GET, CollectionUrl(c.host, namespace) + "/" + name + "/sse", None);
    r, resp := c.DoStreamRequest(req, Some(c.token), net);
    assert req.Snapshot() == RequestOf(old(c.host), old(c.token), namespace, Sse(name), None);
  }
}
