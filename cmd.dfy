/** cmd/endpoint.go: the decision logic of the `update`, `logs`,
    `logs-stream` and `metric` commands. Flag parsing is outside the model:
    a command receives the flag values and, for `update`, the set of flag
    names the user changed. Each command builds its client with `NewClient`
    from the `--host` and `--token` flags, whose error result is never set. */
module EndpointCmd {
  import opened Wrappers
  import opened Models
  import opened Errors
  import opened Transport
  import opened Routes
  import opened Endpoints
  import opened Utils

  /** The persistent flags shared by every command. */
  datatype Globals = Globals(host: string, token: string, namespace: string)

  /** The host `NewClient` picks for the `--host` flag. */
  function HostOf(g: Globals): string
  {
    if g.host != "" then g.host else HostURL
  }

  /** What a command does: it fails before any request, or it makes its call
      and prints the result (a failed call is printed, not returned). */
  datatype Outcome<T> = Rejected(error: Error) | Called(response: Result<T, Error>)

  // ---------------------------------------------------------------- update

  /** The values of the `update` flags, whether changed or left at their defaults. */
  datatype UpdateFlags = UpdateFlags(
    inferenceType: string,
    accelerator: string,
    instanceType: string,
    instanceSize: string,
    minReplica: int,
    maxReplica: int,
    repository: string,
    framework: string,
    task: string,
    image: string,
    url: string,
    port: int,
    path: string,
    username: string,
    password: string)

  const ScalingFlags: set<string> := {"min-replica", "max-replica"}
  const ComputeFlags: set<string> := {"accelerator", "instance-type", "instance-size"} + ScalingFlags
  const ImageFlags: set<string> := {"image", "url", "path"}
  const ModelFlags: set<string> := {"repository", "framework", "task"} + ImageFlags
  /** The flags that put something into the update; `vendor` and `region` are not among them. */
  const PayloadFlags: set<string> := {"type"} + ComputeFlags + ModelFlags

  const NothingToUpdate := "no update flags were provided, nothing to update"

  /** `value` when `flag` changed, absent otherwise. */
  function IfChanged<T>(changed: set<string>, flag: string, value: T): Option<T>
  {
    if flag in changed then Some(value) else None
  }

  /** The image the image flags describe. */
  function ImageOf(f: UpdateFlags): Result<EndpointModelImage, Error>
  {
    BuildInferenceImage(f.image, f.url, f.port, f.path, f.username, f.password)
  }

  /** An image flag changed and the flags describe no valid image. */
  predicate ImageFails(changed: set<string>, f: UpdateFlags)
  {
    changed * ImageFlags != {} && ImageOf(f).Err?
  }

  predicate ScalingFor(changed: set<string>, f: UpdateFlags, s: EndpointScalingUpdate)
  {
    && s.minReplica == IfChanged(changed, "min-replica", f.minReplica)
    && s.maxReplica == IfChanged(changed, "max-replica", f.maxReplica)
    && s.metric.None? && s.scaleToZeroTimeout.None?
  }

  predicate ComputeFor(changed: set<string>, f: UpdateFlags, c: EndpointComputeUpdate)
  {
    && c.accelerator == IfChanged(changed, "accelerator", f.accelerator)
    && c.instanceType == IfChanged(changed, "instance-type", f.instanceType)
    && c.instanceSize == IfChanged(changed, "instance-size", f.instanceSize)
    && (c.scaling.Some? <==> changed * ScalingFlags != {})
    && (c.scaling.Some? ==> ScalingFor(changed, f, c.scaling.value))
  }

  predicate ModelFor(changed: set<string>, f: UpdateFlags, m: EndpointModelUpdate)
  {
    && m.repository == IfChanged(changed, "repository", f.repository)
    && m.framework == IfChanged(changed, "framework", f.framework)
    && m.task == IfChanged(changed, "task", f.task)
    && (m.image.Some? <==> changed * ImageFlags != {})
    && (m.image.Some? ==> ImageOf(f) == Ok(m.image.value))
    && m.args == [] && m.command == [] && m.env == map[] && m.secrets == map[] && m.revision.None?
  }

  /** `u` is the update the changed flags call for: each part is present
      exactly when one of its flags changed, and each field is set exactly
      when its own flag changed, to that flag's value. */
  predicate IsUpdateFor(changed: set<string>, f: UpdateFlags, u: EndpointUpdate)
  {
    && u.endpointType == IfChanged(changed, "type", f.inferenceType)
    && (u.compute.Some? <==> changed * ComputeFlags != {})
    && (u.compute.Some? ==> ComputeFor(changed, f, u.compute.value))
    && (u.model.Some? <==> changed * ModelFlags != {})
    && (u.model.Some? ==> ModelFor(changed, f, u.model.value))
    && u.experimentalFeatures.None? && u.route.None? && u.tags == []
  }

  /** The changed flags determine the update. */
  lemma UpdateIsDetermined(changed: set<string>, f: UpdateFlags, u1: EndpointUpdate, u2: EndpointUpdate)
    requires IsUpdateFor(changed, f, u1) && IsUpdateFor(changed, f, u2)
    ensures u1 == u2
  {
    if u1.compute.Some? {
      assert u1.compute.value.scaling == u2.compute.value.scaling;
    }
  }

  /** The compute part of the update: `present` iff a compute flag changed. */
  method BuildCompute(changed: set<string>, f: UpdateFlags) returns (compute: EndpointComputeUpdate, present: bool)
    ensures present <==> changed * ComputeFlags != {}
    ensures present ==> ComputeFor(changed, f, compute)
  {
    compute := EmptyComputeUpdate;
    present := false;
    if "accelerator" in changed {
      compute := compute.(accelerator := Some(f.accelerator));
      present := true;
    }
    if "instance-type" in changed {
      compute := compute.(instanceType := Some(f.instanceType));
      present := true;
    }
    if "instance-size" in changed {
      compute := compute.(instanceSize := Some(f.instanceSize));
      present := true;
    }
    if "min-replica" in changed || "max-replica" in changed {
      var scaling := EmptyScalingUpdate;
      if "min-replica" in changed {
        scaling := scaling.(minReplica := Some(f.minReplica));
      }
      if "max-replica" in changed {
        scaling := scaling.(maxReplica := Some(f.maxReplica));
      }
      compute := compute.(scaling := Some(scaling));
      present := true;
    }
    assert present <==> "accelerator" in changed || "instance-type" in changed || "instance-size" in changed
                         || "min-replica" in changed || "max-replica" in changed;
  }

  /** The model part of the update: `present` iff a model flag changed, or
      the image error when an image flag changed and the image is invalid. */
  method BuildModel(changed: set<string>, f: UpdateFlags) returns (r: Result<EndpointModelUpdate, Error>, present: bool)
    ensures ImageFails(changed, f) ==> r == Err(ImageOf(f).error)
    ensures !ImageFails(changed, f) ==> r.Ok?
    ensures r.Ok? ==> (present <==> changed * ModelFlags != {})
    ensures r.Ok? && present ==> ModelFor(changed, f, r.value)
  {
    var model := EmptyModelUpdate;
    present := false;
    if "repository" in changed {
      model := model.(repository := Some(f.repository));
      present := true;
    }
    if "framework" in changed {
      model := model.(framework := Some(f.framework));
      present := true;
    }
    if "task" in changed {
      model := model.(task := Some(f.task));
      present := true;
    }
    if "image" in changed || "url" in changed || "path" in changed {
      var image := BuildInferenceImage(f.image, f.url, f.port, f.path, f.username, f.password);
      if image.Err? {
        return Err(image.error), present;
      }
      model := model.(image := Some(image.value));
      present := true;
    }
    assert changed * ImageFlags != {} <==> "image" in changed || "url" in changed || "path" in changed;
    assert present <==> "repository" in changed || "framework" in changed || "task" in changed
                        || changed * ImageFlags != {};
    r := Ok(model);
  }

  /** The assembly of the update payload in the `update` command. */
  method BuildUpdate(changed: set<string>, f: UpdateFlags) returns (r: Result<EndpointUpdate, Error>)
    ensures ImageFails(changed, f) ==> r == Err(ImageOf(f).error)
    ensures !ImageFails(changed, f) && changed !! PayloadFlags ==> r == Err(UsageError(NothingToUpdate))
    ensures !ImageFails(changed, f) && !(changed !! PayloadFlags) ==> r.Ok? && IsUpdateFor(changed, f, r.value)
  {
    var update := EmptyUpdate;
    if "type" in changed {
      update := update.(endpointType := Some(f.inferenceType));
    }
    var compute, anyComputeField := BuildCompute(changed, f);
    if anyComputeField {
      update := update.(compute := Some(compute));
    }
    var model, anyModelField := BuildModel(changed, f);
    if model.Err? {
      return Err(model.error);
    }
    if anyModelField {
      update := update.(model := Some(model.value));
    }

    if update.compute.None? && update.model.None? && update.endpointType.None? {
      assert changed !! PayloadFlags by {
        assert PayloadFlags == {"type"} + ComputeFlags + ModelFlags;
      }
      return Err(UsageError(NothingToUpdate));
    }
    assert !(changed !! PayloadFlags);
    return Ok(update);
  }

  /** `update [name]`: either rejected before any request, or exactly one PUT
      carrying the update the changed flags call for. */
  method UpdateCommand(g: Globals, name: string, changed: set<string>, f: UpdateFlags, net: Network,
                       encode: EndpointUpdate -> seq<byte>, decode: seq<byte> -> Result<EndpointWithStatus, string>)
    returns (o: Outcome<EndpointWithStatus>, ghost update: EndpointUpdate)
    modifies net
    ensures o.Rejected? <==> ImageFails(changed, f) || changed !! PayloadFlags
    ensures o.Rejected? ==> net.log == old(net.log)
    ensures ImageFails(changed, f) ==> o == Rejected(ImageOf(f).error)
    ensures !ImageFails(changed, f) && changed !! PayloadFlags ==> o == Rejected(UsageError(NothingToUpdate))
    ensures o.Called? ==>
      && IsUpdateFor(changed, f, update)
      && var sent := RequestOf(HostOf(g), g.token, g.namespace, Update(name), Some(encode(update)));
      && net.log == old(net.log) + [sent]
      && o.response == Decoded(Classify(net.respond(NewClientTimeout, sent)), decode)
  {
    var c, _ := Client.NewClient(Some(g.host), Some(g.token));
    var built := BuildUpdate(changed, f);
    if built.Err? {
      return Rejected(built.error), EmptyUpdate;
    }
    update := built.value;
    var updated := UpdateEndpoint(c, net, g.namespace, name, built.value, encode, decode);
    return Called(updated), update;
  }

  // ------------------------------------------------------ logs, logs-stream

  /** The size of the buffer `logs-stream` reads into. */
  const StreamBufferSize: nat := 4096

  /** `logs [name]`: one GET of the logs, filtered by replica iff `--replica` is non-empty. */
  method LogsCommand(g: Globals, name: string, logsReplicaId: string, net: Network)
    returns (r: Result<seq<byte>, Error>)
    modifies net
    ensures var sent := RequestOf(HostOf(g), g.token, g.namespace,
                                  Logs(name, if logsReplicaId != "" then Some(logsReplicaId) else None), None);
      && net.log == old(net.log) + [sent]
      && r == Classify(net.respond(NewClientTimeout, sent))
  {
    var c, _ := Client.NewClient(Some(g.host), Some(g.token));
    var replicaParam: Option<string> := None;
    if logsReplicaId != "" {
      replicaParam := Some(logsReplicaId);
    }
    r := GetEndpointLogs(c, net, g.namespace, name, replicaParam);
  }

  /** What the print loop of `logs-stream` shows of a stream whose bytes are
      `content`, read `size` at a time: every chunk up to the read that
      reports the end. On a stream that reports the end together with its
      last bytes, that last chunk is not shown. */
  function PrintedBeforeEof(content: seq<byte>, size: nat, eofWithData: bool): (printed: seq<byte>)
    requires size > 0
    ensures printed <= content
    ensures !eofWithData ==> printed == content
    ensures eofWithData && content != [] ==> 0 < |content| - |printed| <= size
    decreases |content|
  {
    if |content| == 0 then []
    else if |content| <= size then (if eofWithData then [] else content)
    else content[..size] + PrintedBeforeEof(content[size..], size, eofWithData)
  }

  /** The print loop of `logs-stream` as written: reads into a buffer of
      `StreamBufferSize` bytes, stops at the first read that returns an error
      (the end of the stream among them) before printing what that read
      returned, and returns what was printed. */
  method PrintUntilEof(body: Body) returns (printed: seq<byte>)
    requires body.Valid() && !body.closed && body.consumed == []
    modifies body
    ensures body.Valid() && !body.closed && body.unread == []
    ensures printed == PrintedBeforeEof(body.content, StreamBufferSize, body.eofWithData)
  {
    printed := [];
    assert body.unread == body.content;
    while true
      invariant body.Valid() && !body.closed
      invariant printed == body.consumed
      invariant printed + PrintedBeforeEof(body.unread, StreamBufferSize, body.eofWithData)
                == PrintedBeforeEof(body.content, StreamBufferSize, body.eofWithData)
      decreases |body.unread|
    {
      ghost var before := body.unread;
      var chunk, eof := body.Read(StreamBufferSize);
      if eof {
        break;
      }
      if |before| > StreamBufferSize {
        assert chunk == before[..StreamBufferSize] && body.unread == before[StreamBufferSize..];
      }
      printed := printed + chunk;
    }
  }

  /** The print loop as evidently intended: prints what every read returned,
      the read that reports the end included, and only then stops; so it
      shows the whole stream whichever way the end is reported. */
  method PrintToEof(body: Body) returns (printed: seq<byte>)
    requires body.Valid() && !body.closed && body.consumed == []
    modifies body
    ensures body.Valid() && !body.closed && body.unread == []
    ensures printed == body.content
  {
    printed := [];
    while true
      invariant body.Valid() && !body.closed
      invariant printed == body.consumed
      decreases |body.unread|
    {
      var chunk, eof := body.Read(StreamBufferSize);
      printed := printed + chunk;
      if eof {
        break;
      }
    }
  }

  /** A stream that fits in one buffer and reports its end together with its
      bytes, as a response with a Content-Length does, shows nothing at all
      under the loop as written; reported on a read of its own, it shows in
      full. */
  lemma ShortStreamPrintsNothing(content: seq<byte>)
    requires 0 < |content| <= StreamBufferSize
    ensures PrintedBeforeEof(content, StreamBufferSize, true) == []
    ensures PrintedBeforeEof(content, StreamBufferSize, false) == content
  {
  }

  /** `logs-stream [name]`: streams the logs, filtered by replica iff
      `--replica` is non-empty, prints the stream with the loop as written
      and closes it. An HTTP or transport error is returned as such. */
  method LogsStreamCommand(g: Globals, name: string, logsReplicaId: string, net: Network)
    returns (r: Result<seq<byte>, Error>, ghost stream: Body?)
    modifies net
    ensures var sent := RequestOf(HostOf(g), g.token, g.namespace,
                                  LogsStream(name, if logsReplicaId != "" then Some(logsReplicaId) else None), None);
      && net.log == old(net.log) + [sent]
      && var reply := net.respond(NewClientTimeout, sent);
      && (r.Err? <==> Classify(reply).Err?)
      && (r.Err? ==> r.error == Classify(reply).error)
      && (r.Ok? ==> reply.Response? && r.value == PrintedBeforeEof(reply.body, StreamBufferSize, reply.eofWithData))
    ensures stream != null ==> fresh(stream) && stream.closed
    ensures r.Ok? ==> stream != null && stream.consumed == stream.content
  {
    var c, _ := Client.NewClient(Some(g.host), Some(g.token));
    var replicaParam: Option<string> := None;
    if logsReplicaId != "" {
      replicaParam := Some(logsReplicaId);
    }
    var streamed;
    streamed, stream := StreamEndpointLogs(c, net, g.namespace, name, replicaParam);
    if streamed.Err? {
      return Err(streamed.error), stream;
    }
    var body := streamed.value;
    ghost var sent := RequestOf(HostOf(g), g.token, g.namespace, LogsStream(name, replicaParam), None);
    assert body.content == Classify(net.respond(NewClientTimeout, sent)).value;
    var printed := PrintUntilEof(body);
    body.Close();
    r := Ok(printed);
  }

  // ---------------------------------------------------------------- metric

  const MissingRange := "both --start and --stop must be specified"

  const InvalidMetric :=
    "invalid metric. metric needs to be one of the following values : `pending-requests`, `request-count`, "
    + "`median-latency`, `p95-latency`, `success-throughput`, `bad-request-throughput`, `server-error-throughput`, "
    + "`cpu-usage`, `memory-usage`, `gpu-usage`, `gpu-memory-usage`, `neuron-usage`, `neuron-memory-usage`, "
    + "`ready-replicas`, `running-replicas`, `target-replicas`, `average-latency`, `success-rate`, "
    + "`bad-request-rate`, `server-error-rate`"

  /** The checks `metric` makes before calling the client, in order: both
      bounds given, each bound parses, the metric name is known. */
  function MetricPrecheck(start: string, stop: string, metric: string, parseTime: string -> Result<int, string>)
    : (e: Option<Error>)
    ensures e.None? <==>
      start != "" && stop != "" && parseTime(start).Ok? && parseTime(stop).Ok? && metric in MetricNames
    ensures start == "" || stop == "" ==> e == Some(UsageError(MissingRange))
    ensures start != "" && stop != "" && parseTime(start).Err? ==>
      e == Some(UsageError("invalid --start time format : " + parseTime(start).error))
    ensures start != "" && stop != "" && parseTime(start).Ok? && parseTime(stop).Err? ==>
      e == Some(UsageError("invalid --stop time format : " + parseTime(stop).error))
    ensures start != "" && stop != "" && parseTime(start).Ok? && parseTime(stop).Ok? && metric !in MetricNames ==>
      e == Some(UsageError(InvalidMetric))
  {
    if start == "" || stop == "" then Some(UsageError(MissingRange))
    else if parseTime(start).Err? then Some(UsageError("invalid --start time format : " + parseTime(start).error))
    else if parseTime(stop).Err? then Some(UsageError("invalid --stop time format : " + parseTime(stop).error))
    else if !IsMetricValid(metric) then Some(UsageError(InvalidMetric))
    else None
  }

  /** `metric [name] [metric]`: rejected with the first failing check and no
      request, or one GET of that metric. */
  method MetricCommand(g: Globals, name: string, metric: string, start: string, stop: string,
                       parseTime: string -> Result<int, string>, net: Network)
    returns (o: Outcome<seq<byte>>)
    modifies net
    ensures o.Rejected? <==> MetricPrecheck(start, stop, metric, parseTime).Some?
    ensures o.Rejected? ==> Some(o.error) == MetricPrecheck(start, stop, metric, parseTime) && net.log == old(net.log)
    ensures o.Called? ==>
      var sent := RequestOf(HostOf(g), g.token, g.namespace, Metric(name, metric), None);
      && net.log == old(net.log) + [sent]
      && o.response == Classify(net.respond(NewClientTimeout, sent))
  {
    if start == "" || stop == "" {
      return Rejected(UsageError(MissingRange));
    }
    var startTime := parseTime(start);
    if startTime.Err? {
      return Rejected(UsageError("invalid --start time format : " + startTime.error));
    }
    var stopTime := parseTime(stop);
    if stopTime.Err? {
      return Rejected(UsageError("invalid --stop time format : " + stopTime.error));
    }
    var c, _ := Client.NewClient(Some(g.host), Some(g.token));
    if !IsMetricValid(metric) {
      return Rejected(UsageError(InvalidMetric));
    }
    var data := GetEndpointMetric(c, net, g.namespace, name, metric);
    return Called(data);
  }
}
