/** The transport client of client/client.go: a `Client` holding the API host,
    the bearer token and an HTTP client, and the two ways it sends a request,
    buffered and streaming.

    The HTTP exchange itself is not modelled: a `Network` stands for the
    transport and the remote service, answering each request through an
    oracle and recording, as ghost state, every request it was given. */
module Transport {
  import opened Wrappers
  import opened Models
  import opened Errors

  /** The API origin used when no host is given. */
  const HostURL: string := "https://api.endpoints.huggingface.cloud"

  // Timeouts, in seconds; 0 means no timeout.
  const NewClientTimeout: nat := 10
  const BufferedFallbackTimeout: nat := 30
  const StreamFallbackTimeout: nat := 0

  const JsonType := "application/json"
  const EventStreamType := "text/event-stream"

  /** An `http.Client`, of which the model keeps only the timeout. */
  datatype HttpClient = HttpClient(timeoutSeconds: nat)

  datatype Verb = GET | POST | PUT | DELETE

  /** A request as the client hands it to `http.NewRequest`: `url` is the
      URL string built, before `url.Parse` drops any fragment from it
      (`Routes.SentUrl` is the part that is sent). */
  datatype Outbound = Outbound(verb: Verb, url: string, header: map<string, string>, body: Option<seq<byte>>)

  /** What the transport produces for a request: a failure to exchange, or a
      response. `eofWithData` says whether reading the body reports the end
      together with its last bytes, as net/http does for a body of known
      Content-Length, rather than on a read of its own. */
  datatype Reply = TransportFailure(cause: string) | Response(status: int, body: seq<byte>, eofWithData: bool)

  /** The header after the optional `Authorization` is set. */
  function Authorized(header: map<string, string>, authToken: Option<string>): (h: map<string, string>)
    ensures authToken.None? ==> h == header
    ensures authToken.Some? ==> h.Keys == header.Keys + {"Authorization"}
    ensures authToken.Some? ==> h["Authorization"] == "Bearer " + authToken.value
    ensures forall k :: k in header && k != "Authorization" ==> h[k] == header[k]
  {
    if authToken.Some? then header["Authorization" := "Bearer " + authToken.value] else header
  }

  /** The header a buffered request is sent with. */
  function BufferedHeaders(header: map<string, string>, authToken: Option<string>): (h: map<string, string>)
    ensures h.Keys == header.Keys + {"Content-Type", "Accept"} + (if authToken.Some? then {"Authorization"} else {})
    ensures h["Content-Type"] == JsonType && h["Accept"] == JsonType
    ensures authToken.Some? ==> h["Authorization"] == "Bearer " + authToken.value
    ensures forall k :: k in header && k !in {"Authorization", "Content-Type", "Accept"} ==> h[k] == header[k]
  {
    Authorized(header, authToken)["Content-Type" := JsonType]["Accept" := JsonType]
  }

  /** The header a streaming request is sent with: no content type is added. */
  function StreamHeaders(header: map<string, string>, authToken: Option<string>): (h: map<string, string>)
    ensures h.Keys == header.Keys + {"Accept"} + (if authToken.Some? then {"Authorization"} else {})
    ensures h["Accept"] == EventStreamType
    ensures ("Content-Type" in h) <==> ("Content-Type" in header)
    ensures authToken.Some? ==> h["Authorization"] == "Bearer " + authToken.value
    ensures forall k :: k in header && k !in {"Authorization", "Accept"} ==> h[k] == header[k]
  {
    Authorized(header, authToken)["Accept" := EventStreamType]
  }

  /** How both transports classify a reply: the body the caller is given, or the error. */
  function Classify(reply: Reply): (r: Result<seq<byte>, Error>)
    ensures r.Ok? <==> reply.Response? && reply.status < 400
    ensures r.Ok? ==> r.value == reply.body
    ensures reply.TransportFailure? ==> r == Err(TransportError(reply.cause))
    ensures reply.Response? && reply.status >= 400 ==> r == Err(HttpError(reply.status, reply.body))
  {
    match reply
    case TransportFailure(cause) => Err(TransportError(cause))
    case Response(status, body, _) => if status >= 400 then Err(HttpError(status, body)) else Ok(body)
  }

  /** An `*http.Request`: its header is filled in place before it is sent. */
  class Request {
    const verb: Verb
    const url: string
    const body: Option<seq<byte>>
    var header: map<string, string>

    /** `http.NewRequest`: a request with an empty header. */
    constructor (verb: Verb, url: string, body: Option<seq<byte>>)
      ensures this.verb == verb && this.url == url && this.body == body && header == map[]
    {
      this.verb := verb;
      this.url := url;
      this.body := body;
      header := map[];
    }

    /** The request as it would go on the wire now. */
    function Snapshot(): Outbound
      reads this
    {
      Outbound(verb, url, header, body)
    }

    /** `req.Header.Set(key, value)`: replaces every value the key had. */
    method SetHeader(key: string, value: string)
      modifies this
      ensures header == old(header)[key := value]
    {
      header := header[key := value];
    }
  }

  /** A response body: a byte stream that is read once and must be closed once by its owner. */
  class Body {
    ghost const content: seq<byte>  // every byte the server sent
    const eofWithData: bool         // the end is reported with the last bytes
    ghost var consumed: seq<byte>   // the bytes handed out by reads so far
    var unread: seq<byte>
    var closed: bool

    ghost predicate Valid()
      reads this
    {
      consumed + unread == content
    }

    constructor (payload: seq<byte>, eofWithData: bool)
      ensures Valid() && content == payload && unread == payload && consumed == [] && !closed
      ensures this.eofWithData == eofWithData
    {
      content := payload;
      this.eofWithData := eofWithData;
      consumed := [];
      unread := payload;
      closed := false;
    }

    /** One `Read` into a buffer of `max` bytes: hands out as many unread
        bytes as fit, and reports the end (`io.EOF`) when none were left, or,
        on a body that reports it with its last bytes, when this read took
        the last of them. */
    method Read(max: nat) returns (chunk: seq<byte>, eof: bool)
      requires Valid() && !closed && max > 0
      modifies this
      ensures Valid() && !closed
      ensures |chunk| == if max < |old(unread)| then max else |old(unread)|
      ensures old(unread) == chunk + unread
      ensures consumed == old(consumed) + chunk
      ensures eof <==> old(unread) == [] || (eofWithData && unread == [])
    {
      var n := if max < |unread| then max else |unread|;
      chunk := unread[..n];
      eof := unread == [] || (eofWithData && n == |unread|);
      unread := unread[n..];
      consumed := consumed + chunk;
    }

    /** `io.ReadAll`: everything that is left. */
    method ReadAll() returns (data: seq<byte>)
      requires Valid() && !closed
      modifies this
      ensures Valid() && !closed
      ensures data == old(unread) && unread == [] && consumed == content
    {
      data := unread;
      consumed := consumed + unread;
      unread := [];
    }

    /** `Close`: may be called again on a closed body. */
    method Close()
      modifies this
      ensures closed && unread == old(unread) && consumed == old(consumed)
    {
      closed := true;
    }
  }

  /** The transport and the remote service: `respond` answers a request sent
      with a given timeout, and `log` records every request sent. */
  class Network {
    const respond: (nat, Outbound) -> Reply
    ghost var log: seq<Outbound>

    constructor (respond: (nat, Outbound) -> Reply)
      ensures this.respond == respond && log == []
    {
      this.respond := respond;
      log := [];
    }

    /** `client.Do(req)`. */
    method Do(client: HttpClient, request: Outbound) returns (reply: Reply)
      modifies this
      ensures log == old(log) + [request]
      ensures reply == respond(client.timeoutSeconds, request)
    {
      reply := respond(client.timeoutSeconds, request);
      log := log + [request];
    }
  }

  class Client {
    var host: string
    var token: string
    var httpClient: Option<HttpClient>

    /** The struct literal `Client{Host: host, Token: token, Client: httpClient}`. */
    constructor (host: string, token: string, httpClient: Option<HttpClient>)
      ensures this.host == host && this.token == token && this.httpClient == httpClient
    {
      this.host := host;
      this.token := token;
      this.httpClient := httpClient;
    }

    /** `NewClient(host, token)`: the default host unless a non-empty one is
        given, an empty token unless one is given, a 10-second HTTP client,
        and never an error. */
    static method NewClient(host: Option<string>, token: Option<string>) returns (c: Client, err: Option<Error>)
      ensures fresh(c)
      ensures c.host == (if host.Some? && host.value != "" then host.value else HostURL)
      ensures c.token == (if token.Some? then token.value else "")
      ensures c.httpClient == Some(HttpClient(NewClientTimeout))
      ensures err == None
    {
      c := new Client(HostURL, "", Some(HttpClient(NewClientTimeout)));
      if host.Some? && host.value != "" {
        c.host := host.value;
      }
      if token.None? {
        return c, None;
      }
      c.token := token.value;
      return c, None;
    }

    /** `doRequest`: sends `req` with JSON headers and returns the whole body,
        or the error. The response body, when there is one, is read to the
        end and closed before returning. */
    method DoRequest(req: Request, authToken: Option<string>, net: Network)
      returns (r: Result<seq<byte>, Error>, ghost resp: Body?)
      modifies this, req, net
      ensures host == old(host) && token == old(token)
      ensures httpClient == if old(httpClient).None? then Some(HttpClient(BufferedFallbackTimeout)) else old(httpClient)
      ensures req.header == BufferedHeaders(old(req.header), authToken)
      ensures net.log == old(net.log) + [req.Snapshot()]
      ensures r == Classify(net.respond(httpClient.value.timeoutSeconds, req.Snapshot()))
      ensures net.respond(httpClient.value.timeoutSeconds, req.Snapshot()).Response? <==> resp != null
      ensures resp != null ==> fresh(resp) && resp.Valid() && resp.unread == [] && resp.closed
    {
      if httpClient.None? {
        httpClient := Some(HttpClient(BufferedFallbackTimeout));
      }
      if authToken.Some? {
        req.SetHeader("Authorization", "Bearer " + authToken.value);
      }
      req.SetHeader("Content-Type", JsonType);
      req.SetHeader("Accept", JsonType);

      var reply := net.Do(httpClient.value, req.Snapshot());
      if reply.TransportFailure? {
        return Err(TransportError(reply.cause)), null;
      }
      var b := new Body(reply.body, reply.eofWithData);
      resp := b;
      var data := b.ReadAll();
      b.Close();  // deferred in the source: runs on both paths below
      if reply.status >= 400 {
        r := Err(HttpError(reply.status, data));
      } else {
        r := Ok(data);
      }
    }

    /** `doStreamRequest`: sends `req` asking for an event stream. On success
        the response body is handed to the caller open and unread; on an HTTP
        error it is read and closed here and no handle is returned. */
    method DoStreamRequest(req: Request, authToken: Option<string>, net: Network)
      returns (r: Result<Body, Error>, ghost resp: Body?)
      modifies this, req, net
      ensures host == old(host) && token == old(token)
      ensures httpClient == if old(httpClient).None? then Some(HttpClient(StreamFallbackTimeout)) else old(httpClient)
      ensures req.header == StreamHeaders(old(req.header), authToken)
      ensures net.log == old(net.log) + [req.Snapshot()]
      ensures var outcome := Classify(net.respond(httpClient.value.timeoutSeconds, req.Snapshot()));
        && (r.Ok? <==> outcome.Ok?)
        && (r.Err? ==> r.error == outcome.error)
        && (r.Ok? ==> r.value == resp && r.value.content == outcome.value)
      ensures r.Ok? ==> r.value.eofWithData == net.respond(httpClient.value.timeoutSeconds, req.Snapshot()).eofWithData
      ensures net.respond(httpClient.value.timeoutSeconds, req.Snapshot()).Response? <==> resp != null
      ensures r.Ok? ==> fresh(resp) && resp.Valid() && resp.consumed == [] && !resp.closed
      ensures r.Err? && resp != null ==> fresh(resp) && resp.Valid() && resp.unread == [] && resp.closed
    {
      if httpClient.None? {
        httpClient := Some(HttpClient(StreamFallbackTimeout));
      }
      if authToken.Some? {
        req.SetHeader("Authorization", "Bearer " + authToken.value);
      }
      req.SetHeader("Accept", EventStreamType);

      var reply := net.Do(httpClient.value, req.Snapshot());
      if reply.TransportFailure? {
        return Err(TransportError(reply.cause)), null;
      }
      var b := new Body(reply.body, reply.eofWithData);
      resp := b;
      if reply.status >= 400 {
        var data := b.ReadAll();
        b.Close();
        return Err(HttpError(reply.status, data)), b;
      }
      r := Ok(b);
    }
  }
}
