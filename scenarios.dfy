/** Worked cases in the manner of client/endpoints_test.go: a client aimed at
    a fake host, a network that gives a fixed reply, and what each operation
    then sends and returns. */
module Scenarios {
  import opened Wrappers
  import opened Models
  import opened Format
  import opened Errors
  import opened Transport
  import opened Routes
  import opened Endpoints
  import opened EndpointCmd

  /** A test double that gives the same reply to every request. */
  function Always(reply: Reply): (nat, Outbound) -> Reply
  {
    (timeout: nat, request: Outbound) => reply
  }

  /** The client the tests build by hand: an HTTP client with no timeout. */
  method TestClient() returns (c: Client)
    ensures fresh(c) && c.host == "https://fake.api" && c.token == "fake-token" && c.httpClient == Some(HttpClient(0))
  {
    c := new Client("https://fake.api", "fake-token", Some(HttpClient(0)));
  }

  /** The URL of the logs of `endpoint` in `namespace` on the fake host. */
  lemma LogsUrl()
    ensures UrlOf("https://fake.api", "namespace", Logs("endpoint", None))
         == "https://fake.api/v2/endpoint/namespace/endpoint/logs"
  {
    UrlOfNamed("https://fake.api", "namespace", Logs("endpoint", None));
  }

  /** Logs come back verbatim, and the GET goes to the logs URL with the bearer token. */
  method GetLogsScenario()
  {
    var c := TestClient();
    var payload: seq<byte> := [108, 111, 103, 115];  // "logs"
    var net := new Network(Always(Response(200, payload, true)));
    var data := GetEndpointLogs(c, net, "namespace", "endpoint", None);
    assert data == Ok(payload);
    assert |net.log| == 1;
    assert net.log[0].verb == GET;
    assert net.log[0].url == UrlOf("https://fake.api", "namespace", Logs("endpoint", None));
    LogsUrl();
    assert net.log[0].url == "https://fake.api/v2/endpoint/namespace/endpoint/logs";
  }

  /** A stream is handed back unread; reading it to the end yields the injected bytes. */
  method StreamLogsScenario()
  {
    var c := TestClient();
    var payload: seq<byte> := [100, 97, 116, 97];  // "data"
    var net := new Network(Always(Response(200, payload, true)));
    var stream;
    ghost var resp;
    stream, resp := StreamEndpointLogs(c, net, "namespace", "endpoint", Some("r-1"));
    assert stream.Ok?;
    var data := stream.value.ReadAll();
    stream.value.Close();
    assert data == payload;
  }

  /** A 204 with an empty body is a successful delete. */
  method DeleteScenario()
  {
    var c := TestClient();
    var net := new Network(Always(Response(204, [], true)));
    var err := DeleteEndpoint(c, net, "namespace", "endpoint");
    assert err == None;
    assert net.log[0].verb == DELETE;
  }

  /** A status of 400 or more becomes an HTTP error carrying status and body. */
  method HttpErrorScenario()
  {
    var c := TestClient();
    var payload: seq<byte> := [98, 111, 111, 109];  // "boom"
    var net := new Network(Always(Response(503, payload, true)));
    var err := PauseEndpoint(c, net, "namespace", "endpoint");
    assert err == Some(HttpError(503, payload));
    HttpErrorMessageRoundTrip(503, payload);
    assert ParseHttpErrorMessage(Message(err.value)) == Some((503, BytesToString(payload)));
  }

  /** A client made by `NewClient` already has its 10-second HTTP client, so
      a stream is sent with that timeout and not with the unbounded fallback. */
  method NewClientStreamScenario()
  {
    var c, _ := Client.NewClient(None, None);
    var net := new Network((timeout: nat, request: Outbound) =>
      if timeout == StreamFallbackTimeout then Response(200, [], false) else TransportFailure("deadline exceeded"));
    var stream;
    ghost var resp;
    stream, resp := GetEndpointSse(c, net, "namespace", "endpoint");
    assert stream == Err(TransportError("deadline exceeded"));
    assert net.log[0].header["Authorization"] == "Bearer ";
  }

  /** `logs-stream` on a response whose end is reported with its last bytes,
      as net/http does when the length is known: the loop as written prints
      none of the body. Reported on a read of its own, the body prints in full. */
  method LogsStreamScenario()
  {
    var g := Globals("https://fake.api", "fake-token", "namespace");
    var payload: seq<byte> := [115, 116, 114, 101, 97, 109, 45, 100, 97, 116, 97];  // "stream-data"
    ShortStreamPrintsNothing(payload);
    var sized := new Network(Always(Response(200, payload, true)));
    var printed;
    ghost var stream;
    printed, stream := LogsStreamCommand(g, "endpoint", "", sized);
    assert printed == Ok([]);
    var chunked := new Network(Always(Response(200, payload, false)));
    printed, stream := LogsStreamCommand(g, "endpoint", "", chunked);
    assert printed == Ok(payload);
  }
}
