/** The data shapes of client/models.go, as plain values.
    Nil-able fields become `Option`, slices `seq`, Go maps `map`.
    Floating-point fields (scaling threshold and measure) and the timestamps
    of the endpoint status are not part of this model. */
module Models {
  import opened Wrappers

  /** One octet of an HTTP body. */
  newtype byte = x: int | 0 <= x < 256

  // Go string types: any string is a value of them.
  type EndpointType = string
  type AcceleratorType = string
  type EndpointFramework = string
  type EndpointTask = string
  type ScalingMetric = string
  type QuantizeType = string
  type AutoCastType = string
  type PoolingType = string
  type ModelMode = string
  type EndpointState = string

  datatype EndpointProvider = EndpointProvider(vendor: string, region: string)

  datatype EndpointScaling = EndpointScaling(
    minReplica: int,
    maxReplica: int,
    metric: Option<ScalingMetric>,
    scaleToZeroTimeout: Option<int>)

  datatype EndpointCompute = EndpointCompute(
    accelerator: AcceleratorType,
    id: Option<string>,
    instanceType: string,
    instanceSize: string,
    scaling: EndpointScaling)

  datatype HuggingFaceImage = HuggingFaceImage

  datatype HuggingFaceNeuronImage = HuggingFaceNeuronImage(
    batchSize: Option<int>,
    neuronCache: string,
    sequenceLength: Option<int>)

  datatype TgiImage = TgiImage(
    healthRoute: Option<string>,
    port: int,
    url: string,
    maxBatchPrefillTokens: Option<int>,
    maxBatchTotalTokens: Option<int>,
    maxInputLength: Option<int>,
    maxTotalTokens: Option<int>,
    disableCustomKernels: bool,
    quantize: Option<QuantizeType>)

  datatype TgiNeuronImage = TgiNeuronImage(
    healthRoute: Option<string>,
    port: int,
    url: string,
    maxBatchPrefillTokens: Option<int>,
    maxBatchTotalTokens: Option<int>,
    maxInputLength: Option<int>,
    maxTotalTokens: Option<int>,
    hfAutoCastType: Option<AutoCastType>,
    hfNumCores: Option<int>)

  datatype TeiImage = TeiImage(
    healthRoute: Option<string>,
    port: int,
    url: string,
    maxBatchTokens: Option<int>,
    maxConcurrentRequests: Option<int>,
    pooling: Option<PoolingType>)

  datatype LlamaCppImage = LlamaCppImage(
    healthRoute: Option<string>,
    port: int,
    url: string,
    ctxSize: int,
    mode: Option<ModelMode>,
    modelPath: string,
    nGpuLayers: int,
    nParallel: int,
    pooling: Option<PoolingType>,
    threadsHttp: Option<int>,
    variant: Option<string>)

  datatype Credentials = Credentials(username: string, password: Option<string>)

  datatype CustomImage = CustomImage(
    url: string,
    healthRoute: Option<string>,
    port: int,
    credentials: Option<Credentials>)

  /** Seven optional variants; the service expects exactly one to be set. */
  datatype EndpointModelImage = EndpointModelImage(
    huggingFace: Option<HuggingFaceImage>,
    huggingFaceNeuron: Option<HuggingFaceNeuronImage>,
    tgi: Option<TgiImage>,
    tgiNeuron: Option<TgiNeuronImage>,
    tei: Option<TeiImage>,
    llamaCpp: Option<LlamaCppImage>,
    custom: Option<CustomImage>)

  /** `EndpointModelImage{}`: no variant set. */
  const EmptyImage := EndpointModelImage(None, None, None, None, None, None, None)

  datatype EndpointModel = EndpointModel(
    repository: string,
    framework: EndpointFramework,
    image: EndpointModelImage,
    args: seq<string>,
    command: seq<string>,
    env: map<string, string>,
    secrets: map<string, Option<string>>,
    fromCatalog: Option<bool>,
    revision: Option<string>,
    task: EndpointTask)

  datatype KvRouter = KvRouter(tag: string)

  datatype ExperimentalFeatures = ExperimentalFeatures(cacheHttpResponses: bool, kvRouter: Option<KvRouter>)

  datatype EndpointPrivateService = EndpointPrivateService(accountId: string, shared: bool)

  datatype RouteSpec = RouteSpec(domain: string, path: string)

  /** The payload of a create request. */
  datatype Endpoint = Endpoint(
    name: string,
    endpointType: EndpointType,
    provider: EndpointProvider,
    compute: EndpointCompute,
    model: EndpointModel,
    tags: seq<string>,
    cacheHttpResponses: Option<bool>,
    experimentalFeatures: Option<ExperimentalFeatures>,
    privateService: Option<EndpointPrivateService>,
    route: Option<RouteSpec>)

  datatype EndpointAccount = EndpointAccount(id: string, name: string)

  datatype PrivateStatus = PrivateStatus(serviceName: Option<string>)

  datatype EndpointStatus = EndpointStatus(
    createdBy: EndpointAccount,
    updatedBy: EndpointAccount,
    state: EndpointState,
    message: string,
    readyReplica: int,
    targetReplica: int,
    errorMessage: Option<string>,
    url: Option<string>,
    privateStatus: Option<PrivateStatus>)

  /** What the service returns for an endpoint. */
  datatype EndpointWithStatus = EndpointWithStatus(
    name: string,
    endpointType: EndpointType,
    provider: EndpointProvider,
    compute: EndpointCompute,
    model: EndpointModel,
    tags: seq<string>,
    cacheHttpResponses: Option<bool>,
    experimentalFeatures: Option<ExperimentalFeatures>,
    privateService: Option<EndpointPrivateService>,
    route: Option<RouteSpec>,
    status: EndpointStatus)

  datatype EndpointScalingUpdate = EndpointScalingUpdate(
    minReplica: Option<int>,
    maxReplica: Option<int>,
    metric: Option<ScalingMetric>,
    scaleToZeroTimeout: Option<int>)

  const EmptyScalingUpdate := EndpointScalingUpdate(None, None, None, None)

  datatype EndpointComputeUpdate = EndpointComputeUpdate(
    accelerator: Option<AcceleratorType>,
    instanceType: Option<string>,
    instanceSize: Option<string>,
    scaling: Option<EndpointScalingUpdate>)

  const EmptyComputeUpdate := EndpointComputeUpdate(None, None, None, None)

  datatype EndpointModelUpdate = EndpointModelUpdate(
    repository: Option<string>,
    framework: Option<EndpointFramework>,
    image: Option<EndpointModelImage>,
    args: seq<string>,
    command: seq<string>,
    env: map<string, string>,
    secrets: map<string, Option<string>>,
    revision: Option<string>,
    task: Option<EndpointTask>)

  const EmptyModelUpdate := EndpointModelUpdate(None, None, None, [], [], map[], map[], None, None)

  /** The payload of an update request: absent fields are left as they are. */
  datatype EndpointUpdate = EndpointUpdate(
    compute: Option<EndpointComputeUpdate>,
    model: Option<EndpointModelUpdate>,
    experimentalFeatures: Option<ExperimentalFeatures>,
    route: Option<RouteSpec>,
    tags: seq<string>,
    endpointType: Option<EndpointType>)

  const EmptyUpdate := EndpointUpdate(None, None, None, None, [], None)
}
