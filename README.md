# huggingface-client: a verified model of the endpoint client

This project models the decision logic of a small Go client for the Hugging
Face Inference Endpoints REST API, and of the command line built on it:

- **Transport** (`client.dfy`, module `Transport`) covers `client/client.go`.
  - A `Client` class holds the host, the token and an optional HTTP client.
    Of the HTTP client, only its timeout is kept.
  - `NewClient` picks the host and the token.
  - `doRequest` and `doStreamRequest` install a fallback HTTP client when
    there is none. They set the request's headers in place, classify the
    reply (status 400 or more is an error carrying the status and body) and
    follow the body's ownership rule. A buffered body is read in full and
    closed. A stream is handed back unread and open on success, and closed
    on error.
  - The network is a `Network` object. Its function `respond` stands for the
    remote service. Its ghost `log` records every request sent, so "no
    request was made" is a statement about the log.
- **Routes** (`routes.dfy`) is the routing table of `client/endpoints.go`
  as pure functions. Each of the thirteen operations has:
  - an HTTP method;
  - a URL of the form `host + "/v2/endpoint/" + namespace [+ "/" + name + suffix] [+ "?key=value"]`;
  - a transport, buffered or streaming;
  - the headers and body it sends.

  A parser of method and URL is the inverse of the table. The lemmas prove
  the round trip. They also prove that no two operations share a method
  and a URL string, provided that:
  - names, namespaces and metric types are path segments (`Routes.Segment`):
    no `/`, no `?`, and only printable ASCII that `url.Parse` keeps as it
    is (no `#`, no `%`, none of the characters it escapes);
  - filter values hold no `#`.

  On a host that needs no escaping either, the same holds for the URL up to
  its first `#` (`Routes.SentUrl`), which is then what is sent. Names are
  not escaped, so without these conditions two operations can collide
  (`Routes.NamesAreNotEscaped`, `Routes.FragmentsAreNotSent`,
  `Routes.EscapedNamesAreNotSegments`).
- **Endpoints** (`endpoints.dfy`) holds the thirteen operations as methods
  on a client. Each sends exactly the request the routing table gives, once,
  and shapes the transport's result. The shapes are a decoded value, the raw
  bytes, a stream, or only the error.
- **Utils** (`utils.dfy`) covers `utils/utils.go`:
  - the image-variant builder behind `--image`, `--url`, `--port` and `--path`;
  - the whitelist of metric names.
- **EndpointCmd** (`cmd.dfy`) covers the decisions in `cmd/endpoint.go`:
  - the assembly of the `update` payload from the set of changed flags,
    and the rejection of an empty update;
  - the replica filter of `logs` and `logs-stream`, and the print loop of
    `logs-stream`, which loses the bytes that arrive with the end of the
    stream (see "## Findings");
  - the checks `metric` makes before it calls the client.
- The supporting modules are:
  - `Wrappers`: `Option`, `Result`;
  - `Models`: the request and response shapes of `client/models.go`;
  - `Format`: decimal formatting, byte strings, splitting;
  - `Errors`: the error kinds and their texts.

  `Scenarios` replays cases in the manner of the repository's tests.

JSON encoding and decoding are function parameters (`encode`, `decode`).
Time parsing is one as well (`parseTime`). None of them is modelled.

A note on timeouts: `doStreamRequest` falls back to an HTTP client with a
zero timeout, meaning none, and marks it as the setting for streams
(client/client.go:70). But `NewClient` always installs a client with a
10-second timeout (client/client.go:21), so that fallback applies only to a
`Client` whose HTTP client is nil, which `NewClient` never produces. A
stream opened through `NewClient` therefore runs under the 10-second limit.
The model follows the code. `Scenarios.NewClientStreamScenario` shows a
stream sent with the 10-second timeout.

## Model

| member | source | states |
|---|---|---|
| Transport.Client.NewClient | client/client.go:19-38 | The new client's host is the given host when one is given and non-empty, and the default API host otherwise. The token is the given token, or empty. The HTTP client always has a 10-second timeout. No error is ever returned. |
| Transport.Authorized | client/client.go:46-48 | With a token, the header gains exactly one `Authorization` entry, `"Bearer " + token`, and every other entry is kept. Without a token, the header is unchanged. |
| Transport.BufferedHeaders | client/client.go:46-50 | `Content-Type` and `Accept` are `application/json`. `Authorization` is set as in `Authorized`. The keys are exactly the old keys plus those set. Other entries are kept. |
| Transport.StreamHeaders | client/client.go:73-76 | `Accept` is `text/event-stream`. `Content-Type` is present only if it already was. `Authorization` is set as in `Authorized`. Other entries are kept. |
| Transport.Classify | client/client.go:52-64 | The result is success exactly for a response with status below 400, and then it is the whole body. A transport failure is returned unchanged. A status of 400 or more gives an HTTP error with that status and body. |
| Transport.Client.DoRequest | client/client.go:41-65 | A 30-second client is installed only when there is none; an existing one is kept. The request's headers become the buffered headers. Exactly this request is sent. The result is the classification of the reply. Any response body is read in full and closed. Host and token are unchanged. |
| Transport.Client.DoStreamRequest | client/client.go:68-91 | The fallback timeout is 0 and the headers are the stream headers. Success and error agree with the classification, and errors are equal. On success the stream is the response body: fresh, unread, open, its content the body, reporting its end as the response does. On an error response the body has been read and closed. |
| Transport.Body.Read | cmd/endpoint.go:324-331 | A read returns as many unread bytes as fit in the buffer and removes exactly those from the unread part. It reports the end (`io.EOF`) when nothing was left, or, on a body that reports the end with its last bytes, when it took the last of them. Consumed and unread always make up the content. |
| Transport.Body.ReadAll | client/client.go:60-64 | Returns everything unread and leaves the body fully consumed. |
| Transport.Body.Close | client/client.go:85 | The body is closed, and may be closed again. Its contents are untouched. |
| Transport.Request.SetHeader | client/client.go:47-50 | `Header.Set`: the key maps to the value, replacing any earlier value. |
| Format.DecimalRoundTrip | client/client.go:61 | The `%d` rendering of any integer parses back to that integer. |
| Format.DigitsRoundTrip | client/client.go:61 | The digits of a natural number denote that number. |
| Format.OctetsRoundTrip | client/client.go:61 | Rendering bytes as a string (`string(bodyBytes)`) loses nothing: the bytes are recovered from it. |
| Errors.HttpErrorMessageRoundTrip | client/client.go:59-62 | The text `"HTTP error <status>: <body>"` determines the status and the body it was made from: the status parses back, and the text after `": "` converts back to the body's exact bytes. |
| Routes.UrlOf | client/endpoints.go:13-16 | Every operation's URL starts with `host + "/v2/endpoint/" + namespace`. |
| Routes.RequestOf | client/endpoints.go:18-23 | Every operation sends `Authorization: Bearer <token>`, even for an empty token. `Content-Type` is sent exactly for the buffered operations. `Accept` is `text/event-stream` for the two streams and `application/json` for the rest. |
| Routes.OperationRoundTrip | client/endpoints.go:12-226 | The method, the path segments after the namespace and the query determine the operation, including its optional `tags` or `replica` filter. |
| Routes.FilterRoundTrip | client/endpoints.go:14-16 | A `key=value` query gives back its value. |
| Routes.UrlParts | client/endpoints.go:13-16 | A URL built from the host, `/v2/endpoint/`, slash-joined segments and an optional `?` query splits back into those segments and that query. |
| Routes.PathIsJoin | client/endpoints.go:125-220 | Each operation's path is the namespace followed by its segments joined with `/`. The suffixes are `/logs`, `/logs/sse`, `/metrics`, `/metrics/<type>`, `/pause`, `/replicas`, `/resume`, `/scale-to-zero` and `/sse`. |
| Routes.SplitJoin | client/endpoints.go:13 | Splitting on `/` undoes joining segments that hold no `/`. |
| Routes.RouteRoundTrip | client/endpoints.go:12-226 | For names, namespaces and metric types that are path segments, and filter values without `#`, the parser recovers namespace and operation from the method and URL each operation uses. |
| Routes.RoutesAreDistinct | client/endpoints.go:12-226 | Two operations on well-formed names that use the same method and URL string are the same operation on the same namespace. |
| Routes.SentUrl | client/endpoints.go:18 | The URL string up to its first `#`, the fragment that `url.Parse` drops: a prefix of the string holding no `#`, and the whole string when it holds none. |
| Routes.UrlIsSentWhole | client/endpoints.go:12-226 | On a host that needs no escaping, a well-formed operation's URL holds no `#`, so nothing of it is dropped as a fragment. Since it needs no escaping either, it is sent as it is. |
| Routes.SentRoutesAreDistinct | client/endpoints.go:12-226 | On a host that needs no escaping, two well-formed operations with the same method and the same URL up to its first `#` are the same operation on the same namespace. |
| Routes.EscapedNamesAreNotSegments | client/endpoints.go:67 | `a b`, which `url.Parse` sends as `a%20b`, and `a%20b` itself are both excluded from segments, so the distinctness lemmas never meet that collision. |
| Routes.FragmentsAreNotSent | client/endpoints.go:14-16 | A `#` in a namespace is not escaped. Getting endpoint `n` in namespace `x#y` sends the same GET as listing namespace `x`. |
| Routes.NamesAreNotEscaped | client/endpoints.go:67 | Names are not escaped: `Get("api/logs")` and `Logs("api", None)` send the same method to the same URL. |
| Endpoints.Decoded | client/endpoints.go:23-35 | A transport error passes through unchanged. A body that does not decode gives a decode error. Success holds exactly the decoded value. |
| Endpoints.Discarded | client/endpoints.go:119-120 | Success exactly when the transport succeeded; otherwise its error. The body is discarded. |
| Endpoints.UrlOfNamed | client/endpoints.go:67 | An operation on one endpoint targets `collection + "/" + name + suffix + query`. |
| Endpoints.UrlOfCollection | client/endpoints.go:13-16 | List and create target the collection URL, plus the tags query for a list. |
| Endpoints.ListEndpoints | client/endpoints.go:12-37 | Sends exactly one GET to the collection, with `?tags=` exactly when tags are given. The result is the decoded reply. The client keeps its host and token, and installs the 30-second client only if it had none. |
| Endpoints.CreateEndpoint | client/endpoints.go:40-63 | Sends exactly one POST of the encoded endpoint to the collection. The result is the decoded reply. |
| Endpoints.GetEndpoint | client/endpoints.go:66-84 | Sends exactly one GET to `.../namespace/name`. The result is the decoded reply. |
| Endpoints.UpdateEndpoint | client/endpoints.go:87-110 | Sends exactly one PUT of the encoded update to `.../namespace/name`. The result is the decoded reply. |
| Endpoints.DeleteEndpoint | client/endpoints.go:113-121 | Sends exactly one DELETE with no body. It succeeds exactly when the transport does. |
| Endpoints.GetEndpointLogs | client/endpoints.go:124-136 | Sends exactly one GET to `/logs`, with `?replica=` exactly when a replica is given. The result is the classified reply. |
| Endpoints.StreamEndpointLogs | client/endpoints.go:139-151 | Sends exactly one streaming GET to `/logs/sse`, with `?replica=` exactly when a replica is given. On success it returns a fresh, unread, open stream of the body. On an error response that body has been closed. |
| Endpoints.GetEndpointMetrics | client/endpoints.go:154-161 | Sends exactly one GET to `/metrics`. The result is the classified reply. |
| Endpoints.GetEndpointMetric | client/endpoints.go:164-173 | Sends exactly one GET to `/metrics/<metricType>`. The result is the classified reply. |
| Endpoints.PauseEndpoint | client/endpoints.go:176-184 | Sends exactly one POST to `/pause` with no body. It succeeds exactly when the transport does. |
| Endpoints.GetEndpointReplicasStatuses | client/endpoints.go:187-194 | Sends exactly one GET to `/replicas`. The result is the classified reply. |
| Endpoints.ResumeEndpoint | client/endpoints.go:197-205 | Sends exactly one POST to `/resume` with no body. It succeeds exactly when the transport does. |
| Endpoints.ScaleEndpointToZero | client/endpoints.go:208-216 | Sends exactly one POST to `/scale-to-zero` with no body. It succeeds exactly when the transport does. |
| Endpoints.GetEndpointSse | client/endpoints.go:219-226 | Sends exactly one streaming GET to `/sse`. On success it returns a fresh, unread, open stream of the body. |
| Utils.BuildInferenceImage | utils/utils.go:11-79 | An image is built exactly when the tag is one of the seven known and its required fields are present: a URL for all but the two managed images, and also a model path for llamacpp. A built image has exactly the named variant set. URL-bearing variants carry the given URL and port. TGI disables custom kernels. llamacpp has context size 4096, one parallel slot and the given model path. custom has the given username and a present password. Each failure has its exact message, and an unknown tag gives `unsupported image type: <tag>`. |
| Utils.ManagedImageIgnoresArguments | utils/utils.go:22-25 | `huggingface` and `huggingfaceNeuron` never fail, and their result does not depend on URL, port, path or credentials. |
| Utils.IsMetricValid | utils/utils.go:114-124 | True exactly for the twenty listed metric names. |
| EndpointCmd.UpdateIsDetermined | cmd/endpoint.go:157-233 | The changed flags and their values determine the update payload: at most one update meets the specification. |
| EndpointCmd.BuildCompute | cmd/endpoint.go:165-195 | The compute part is present exactly when accelerator, instance-type, instance-size, min-replica or max-replica changed. Each field is set exactly when its own flag changed, to that flag's value. Scaling is present exactly when min-replica or max-replica changed. |
| EndpointCmd.BuildModel | cmd/endpoint.go:197-233 | A failing image build aborts with its error. Otherwise the model part is present exactly when repository, framework, task, image, url or path changed, with each field set exactly when its flag changed. The image is rebuilt exactly when image, url or path changed. |
| EndpointCmd.BuildUpdate | cmd/endpoint.go:157-238 | `Type` is set exactly when `type` changed. The payload is the update the changed flags call for. An image failure aborts with that error. If no payload flag changed, including when only vendor or region changed, the result is `no update flags were provided, nothing to update`. |
| EndpointCmd.UpdateCommand | cmd/endpoint.go:151-249 | The command is rejected exactly when the image fails or no payload flag changed, and then no request is made. Otherwise it sends exactly one PUT carrying that update. |
| EndpointCmd.LogsCommand | cmd/endpoint.go:278-297 | Sends exactly one GET of the logs, with the replica filter exactly when `--replica` is non-empty. The command prints the classified reply. |
| EndpointCmd.PrintedBeforeEof | cmd/endpoint.go:323-331 | What the loop shows is a prefix of the stream. It is the whole stream when the end is reported on a read of its own. When the end comes with the last bytes, between one byte and one buffer's worth at the end of a non-empty stream is not shown. |
| EndpointCmd.PrintUntilEof | cmd/endpoint.go:323-331 | The loop as written reads 4096 bytes at a time until a read reports the end, and prints exactly `PrintedBeforeEof` of the stream. The stream is read to the end and left open. |
| EndpointCmd.PrintToEof | cmd/endpoint.go:323-331 | The loop with the final read printed before stopping prints the whole stream, whichever way the end is reported. |
| EndpointCmd.ShortStreamPrintsNothing | cmd/endpoint.go:323-331 | A non-empty stream that fits in one buffer and reports its end with its bytes prints nothing under the loop as written. Reported on a read of its own, it prints in full. |
| EndpointCmd.LogsStreamCommand | cmd/endpoint.go:305-333 | Streams the logs with the replica filter exactly when `--replica` is non-empty. An error response or transport failure gives that error. On success it prints `PrintedBeforeEof` of the response body, given how the response reports its end, and then closes the stream. |
| EndpointCmd.MetricPrecheck | cmd/endpoint.go:383-413 | The checks pass exactly when both bounds are given, both parse and the metric name is valid. The first failing check gives its message: missing bound, invalid start, invalid stop, invalid metric. |
| EndpointCmd.MetricCommand | cmd/endpoint.go:382-420 | Rejected exactly when a pre-call check fails, with that check's error, and then no request is made. Otherwise it sends exactly one GET of that metric. |

## Left out

- HTTP itself (`http.Client.Do`, connections, the meaning of a timeout) is not modelled. `Network.respond` stands for the remote side, and a timeout is kept only as the value the client carries.
- The URL in the model's requests (`Transport.Outbound`) is the string given to `http.NewRequest`. Anything after a `#` in the host, a namespace, a name, a metric type or a `tags` or `replica` value never leaves the client. The routing lemmas therefore exclude `#`.
- Routes.SentUrl: models only the fragment cut of `url.Parse`, not its escaping. `url.Parse` sends a path character that needs escaping in escaped form, so namespaces `a b` and `a%20b` both go out as `a%20b`. For such strings, what is sent is not a prefix of the string. `Routes.UrlIsSentWhole` and `Routes.SentRoutesAreDistinct` are therefore stated only for hosts and segments that need no escaping (`Routes.VerbatimString`). Also not modelled: the scheme's letter case, which `url.Parse` lowers, and its error cases.
- A failure of `http.NewRequest` is not modelled; it arises only for malformed URLs and methods (client/endpoints.go:18-21 and the same check in each operation).
- A read error in the middle of a body is not modelled. `io.ReadAll` is taken to return the whole body, and the HTTP-error text ignores a failed read as the source does.
- Transport.Classify: Go's `string(bodyBytes)` copies the bytes unchanged into the string. The model reads each byte as one character (`Format.BytesToString`), so it does not capture how a multi-byte character would later be printed.
- JSON marshalling and unmarshalling are not modelled. They are the `encode` and `decode` parameters, so the list-shape test (client/endpoints_test.go:30-46) is not restated.
- `utils.ParseTime` (utils/utils.go:82-112) depends on time layouts, duration parsing and the wall clock. It is the `parseTime` parameter of `EndpointCmd.MetricCommand`.
- The float fields of the models (`Threshold`, `ScalingMeasure`) and the timestamps of `EndpointStatus` are dropped.
- The `metrics` command and the payload of `metric` (cmd/endpoint.go:337-377 and 402-409) are not modelled. Those call sites pass payload arguments and types that `client/endpoints.go:154` and `:164` do not declare. The model follows the signatures in client/endpoints.go.
- EndpointCmd.LogsStreamCommand: on a failed stream the source prints the error and then calls `Close` on the nil handle (cmd/endpoint.go:317-320, and the same at 528). The model returns the error without that call, and makes no claim that the source's path is safe.
- EndpointCmd.LogsStreamCommand: a read error other than the end of the stream also stops the source's loop. The model has no such errors, as stated above.
- The `if err != nil` checks after `NewClient` in every command are not modelled, because `NewClient` never returns an error.
- Cobra wiring, flag registration and defaults, `printJSON`, and `cmd/root.go` are not modelled.
- EndpointCmd.MetricCommand: `metric` declares no argument-count check, unlike the other commands (cmd/endpoint.go:379-382). Given one argument, it indexes `args[1]` once the bound checks pass (cmd/endpoint.go:411), which panics. The model takes `name` and `metric` as parameters, so that path does not arise in it.
- The `list`, `get`, `delete`, `pause`, `resume`, `scale-to-zero` and `replica` commands (the last declared at cmd/endpoint.go:450) only call one operation and print its result. They are not modelled.
- The `create` command is not modelled. It runs `BuildInferenceImage` and returns its error (cmd/endpoint.go:77-87), which `Utils.BuildInferenceImage` covers. It then builds the `Endpoint` from its flags (cmd/endpoint.go:89-111) and calls `CreateEndpoint`.
- The `sse` command is not modelled. It has the same print loop as `logs-stream`, with the same loss at the end of the stream, and the same `Close` on a nil handle after a failed call (cmd/endpoint.go:525-540).
- A stream in the model is finite: its bytes are fixed when the response arrives, and the print loop ends because fewer bytes stay unread after each read. A live event stream may never end, and its bytes arrive over time. Neither is modelled.
- Transport.Body.Read: a read takes as many unread bytes as fit in the buffer. A real read may return fewer, depending on what has arrived, so the chunk boundaries of `EndpointCmd.PrintedBeforeEof` are those of a stream that is already complete.
- Which flags changed comes from cobra. The model takes it as the set `changed` of flag names.

## Findings

| source | as written | input that shows it | evidently intended | confidence | as-written member | corrected member |
|---|---|---|---|---|---|---|
| cmd/endpoint.go:324-331 | The loop stops on the first read that returns an error, before printing the `n` bytes that read returned. `io.Reader` allows the end (`io.EOF`) to come together with the last bytes, and net/http does this for a body whose Content-Length is known. | A 200 response with the 11-byte body `stream-data` and a known length. The one read returns the 11 bytes together with `io.EOF`, and nothing is printed (`Scenarios.LogsStreamScenario`, `EndpointCmd.ShortStreamPrintsNothing`). | Print what every read returned, then stop on the error, so the whole stream is shown. | not executed; the exact read pattern depends on the transport | EndpointCmd.PrintUntilEof | EndpointCmd.PrintToEof |

`EndpointCmd.LogsStreamCommand` keeps the loop as written, because it models the command as the source has it.
