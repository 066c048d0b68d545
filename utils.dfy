/** utils/utils.go: the image-variant builder behind `--image`, `--url`,
    `--port` and `--path`, and the whitelist of metric names. */
module Utils {
  import opened Wrappers
  import opened Models
  import opened Errors

  /** The image-type tags the builder knows. */
  const ImageTypes: set<string> :=
    {"huggingface", "huggingfaceNeuron", "tgi", "tgiNeuron", "tei", "llamacpp", "custom"}

  /** The tags that need no URL. */
  const ManagedImageTypes: set<string> := {"huggingface", "huggingfaceNeuron"}

  /** The tags of the variants an image has set. */
  function Variants(image: EndpointModelImage): set<string>
  {
    (if image.huggingFace.Some? then {"huggingface"} else {})
    + (if image.huggingFaceNeuron.Some? then {"huggingfaceNeuron"} else {})
    + (if image.tgi.Some? then {"tgi"} else {})
    + (if image.tgiNeuron.Some? then {"tgiNeuron"} else {})
    + (if image.tei.Some? then {"tei"} else {})
    + (if image.llamaCpp.Some? then {"llamacpp"} else {})
    + (if image.custom.Some? then {"custom"} else {})
  }

  /** The URL and port of the first URL-bearing variant an image has set. */
  function ServedAt(image: EndpointModelImage): Option<(string, int)>
  {
    if image.tgi.Some? then Some((image.tgi.value.url, image.tgi.value.port))
    else if image.tgiNeuron.Some? then Some((image.tgiNeuron.value.url, image.tgiNeuron.value.port))
    else if image.tei.Some? then Some((image.tei.value.url, image.tei.value.port))
    else if image.llamaCpp.Some? then Some((image.llamaCpp.value.url, image.llamaCpp.value.port))
    else if image.custom.Some? then Some((image.custom.value.url, image.custom.value.port))
    else None
  }

  /** The arguments a tag needs: a URL unless the image is managed, and a model path for llamacpp. */
  predicate Accepts(imageType: string, imageUrl: string, modelPath: string)
  {
    && imageType in ImageTypes
    && (imageType !in ManagedImageTypes ==> imageUrl != "")
    && (imageType == "llamacpp" ==> modelPath != "")
  }

  function BuildInferenceImage(imageType: string, imageUrl: string, imagePort: int,
                               modelPath: string, username: string, password: string)
    : (r: Result<EndpointModelImage, Error>)
    ensures r.Ok? <==> Accepts(imageType, imageUrl, modelPath)
    ensures r.Ok? ==> Variants(r.value) == {imageType}
    ensures r.Ok? && imageType !in ManagedImageTypes ==> ServedAt(r.value) == Some((imageUrl, imagePort))
    ensures r.Ok? && imageType == "tgi" ==> r.value.tgi.value.disableCustomKernels
    ensures r.Ok? && imageType == "llamacpp" ==>
      var image := r.value.llamaCpp.value;
      image.ctxSize == 4096 && image.nParallel == 1 && image.modelPath == modelPath
    ensures r.Ok? && imageType == "custom" ==>
      r.value.custom.value.credentials == Some(Credentials(username, Some(password)))
    ensures imageType !in ImageTypes ==> r == Err(UsageError("unsupported image type: " + imageType))
    ensures r.Err? && imageType in {"tgi", "tgiNeuron"} ==> r == Err(UsageError("url is required for tgi image"))
    ensures r.Err? && imageType == "tei" ==> r == Err(UsageError("url is required for tei image"))
    ensures r.Err? && imageType == "llamacpp" ==> r == Err(UsageError("url and model path are required for llamacpp image"))
    ensures r.Err? && imageType == "custom" ==> r == Err(UsageError("url is required for custom image"))
  {
    match imageType
    case "huggingface" =>
      Ok(EmptyImage.(huggingFace := Some(HuggingFaceImage)))
    case "huggingfaceNeuron" =>
      Ok(EmptyImage.(huggingFaceNeuron := Some(HuggingFaceNeuronImage(None, "", None))))
    case "tgi" =>
      if imageUrl == "" then Err(UsageError("url is required for tgi image"))
      else Ok(EmptyImage.(tgi := Some(TgiImage(None, imagePort, imageUrl, None, None, None, None, true, None))))
    case "tgiNeuron" =>
      if imageUrl == "" then Err(UsageError("url is required for tgi image"))
      else Ok(EmptyImage.(tgiNeuron := Some(TgiNeuronImage(None, imagePort, imageUrl, None, None, None, None, None, None))))
    case "tei" =>
      if imageUrl == "" then Err(UsageError("url is required for tei image"))
      else Ok(EmptyImage.(tei := Some(TeiImage(None, imagePort, imageUrl, None, None, None))))
    case "llamacpp" =>
      if imageUrl == "" || modelPath == "" then Err(UsageError("url and model path are required for llamacpp image"))
      else Ok(EmptyImage.(llamaCpp := Some(LlamaCppImage(None, imagePort, imageUrl, 4096, None, modelPath, 0, 1, None, None, None))))
    case "custom" =>
      if imageUrl == "" then Err(UsageError("url is required for custom image"))
      else Ok(EmptyImage.(custom := Some(CustomImage(imageUrl, None, imagePort, Some(Credentials(username, Some(password)))))))
    case _ =>
      Err(UsageError("unsupported image type: " + imageType))
  }

  /** The managed images depend on the tag alone: URL, port, path and credentials are ignored. */
  lemma ManagedImageIgnoresArguments(imageType: string,
                                     url1: string, port1: int, path1: string, user1: string, password1: string,
                                     url2: string, port2: int, path2: string, user2: string, password2: string)
    requires imageType in ManagedImageTypes
    ensures BuildInferenceImage(imageType, url1, port1, path1, user1, password1).Ok?
    ensures BuildInferenceImage(imageType, url1, port1, path1, user1, password1)
         == BuildInferenceImage(imageType, url2, port2, path2, user2, password2)
  {
  }

  /** The metric names the service accepts. */
  const MetricNames: set<string> := {
    "pending-requests", "request-count", "median-latency", "p95-latency", "success-throughput",
    "bad-request-throughput", "server-error-throughput", "cpu-usage", "memory-usage", "gpu-usage",
    "gpu-memory-usage", "neuron-usage", "neuron-memory-usage", "ready-replicas", "running-replicas",
    "target-replicas", "average-latency", "success-rate", "bad-request-rate", "server-error-rate"}

  function IsMetricValid(metric: string): (valid: bool)
    ensures valid <==> metric in MetricNames
  {
    match metric
    case "pending-requests" | "request-count" | "median-latency" | "p95-latency" | "success-throughput"
       | "bad-request-throughput" | "server-error-throughput" | "cpu-usage" | "memory-usage" | "gpu-usage"
       | "gpu-memory-usage" | "neuron-usage" | "neuron-memory-usage" | "ready-replicas" | "running-replicas"
       | "target-replicas" | "average-latency" | "success-rate" | "bad-request-rate" | "server-error-rate" => true
    case _ => false
  }
}
