/**
 * The requests and responses a `CodeOceanJob` exchanges with Code Ocean, the
 * client it talks to (an oracle: what each call answers is fixed when the
 * client is given), and the pure rules by which the job builds its requests
 * and decides when to stop polling.
 */
module JobRequests {
  import opened Wrappers
  import opened Py
  import opened DataLevels

  /** `ComputationDataAsset(id=…, mount=…)`: one input of a run. */
  datatype ComputationDataAsset = ComputationDataAsset(id: Value, mount: Option<string>)

  /** The fields of a `RunCapsuleRequest` the job reads or writes. */
  datatype RunCapsuleRequest = RunCapsuleRequest(capsuleId: Option<string>, pipelineId: Option<string>,
                                                 dataAssets: Option<seq<ComputationDataAsset>>,
                                                 parameters: Option<seq<Value>>)

  datatype AwsSource = AwsSource(bucket: string, prefix: string, keepOnExternalStorage: bool)

  /** Where a new asset's data comes from: an S3 location, or the results of a computation (its id). */
  datatype Source = Source(aws: Option<AwsSource>, computation: Option<Value>)

  /** The fields of a `CreateDataAssetRequest` the job reads or writes. */
  datatype CreateDataAssetRequest = CreateDataAssetRequest(name: Option<string>, mount: Option<string>,
                                                           tags: Option<seq<string>>, customMetadata: Option<Object>,
                                                           source: Source)

  /** A `requests.Response` with a JSON object body. */
  datatype Response = Response(statusCode: int, body: Object) {
    /** `bool(response)`: false exactly for 4xx and 5xx status codes. */
    predicate Truthy() {
      !(400 <= statusCode < 600)
    }
  }

  /**
   * The remote side. `createDataAsset` is `create_data_asset_and_update_permissions`
   * and `checkDataAssets` is `check_data_assets`, both of which may fail;
   * `getComputation(id, k)` is what the k-th status check of a computation answers.
   */
  datatype Client = Client(
    createDataAsset: (CreateDataAssetRequest, bool) -> Result<Response, Error>,
    checkDataAssets: seq<ComputationDataAsset> -> Option<Error>,
    runCapsule: RunCapsuleRequest -> Response,
    getComputation: (Value, nat) -> Response)

  /** One call the job made to the remote side. */
  datatype Call =
    | CreateDataAsset(request: CreateDataAssetRequest, viewableToEveryone: bool)
    | CheckDataAssets(dataAssets: seq<ComputationDataAsset>)
    | RunCapsule(runRequest: RunCapsuleRequest)
    | GetComputation(computationId: Value)

  /**
   * The request with `add_data_level_metadata` applied to its tags and custom
   * metadata when tagging is on; the request as it is otherwise.
   */
  function Tagged(request: CreateDataAssetRequest, level: DataLevel, addDataLevelTags: bool): (r: CreateDataAssetRequest)
    ensures !addDataLevelTags ==> r == request
    ensures r.name == request.name && r.mount == request.mount && r.source == request.source
    ensures addDataLevelTags ==>
      && r.tags.Some? && level.Tag() in r.tags.value
      && (level == Derived ==> Raw.Tag() !in r.tags.value)
      && r.customMetadata.Some? && DataLevelKey in r.customMetadata.value
      && r.customMetadata.value[DataLevelKey] == Str(level.Tag())
  {
    if addDataLevelTags then
      var (tags, metadata) := AddDataLevelMetadata(level, request.tags, request.customMetadata);
      request.(tags := Some(tags), customMetadata := Some(metadata))
    else request
  }

  /** `request.source.aws is None or request.source.aws.keep_on_external_storage is True`. */
  predicate KeptOnExternalStorage(request: CreateDataAssetRequest) {
    request.source.aws.None? || request.source.aws.value.keepOnExternalStorage
  }

  const ExternalStorageMessage: string := "Data assets must be kept on external storage."

  /** `data_assets` with None replaced by the empty list. */
  function WithInputList(request: RunCapsuleRequest): RunCapsuleRequest {
    request.(dataAssets := Some(request.dataAssets.GetOr([])))
  }

  /** A registration response counts when it is truthy. */
  predicate Registered(registerResponse: Option<Response>) {
    registerResponse.Some? && registerResponse.value.Truthy()
  }

  /** `self.process_config.input_data_asset_mount` is a non-empty string. */
  predicate MountGiven(inputDataAssetMount: Option<string>) {
    inputDataAssetMount.Some? && inputDataAssetMount.value != ""
  }

  /**
   * The run request `process_data` submits: None inputs become the empty
   * list, and a truthy registration response adds exactly one input at the
   * end (its "id", mounted at the input mount when one is given, else at the
   * registration's mount), leaving the earlier inputs and every other field
   * alone. A response without "id" raises KeyError; no input mount and no
   * registration config raise AttributeError.
   */
  function PreparedRequest(request: RunCapsuleRequest, registerResponse: Option<Response>,
                           inputDataAssetMount: Option<string>, registerConfig: Option<CreateDataAssetRequest>)
    : (r: Result<RunCapsuleRequest, Error>)
    ensures r.Ok? ==> r.value.dataAssets.Some? && r.value.(dataAssets := request.dataAssets) == request
    ensures !Registered(registerResponse) ==> r == Ok(WithInputList(request))
    ensures Registered(registerResponse) && "id" !in registerResponse.value.body ==> r == Err(KeyError("id"))
    ensures Registered(registerResponse) && "id" in registerResponse.value.body ==>
      (r.Err? <==> !MountGiven(inputDataAssetMount) && registerConfig.None?)
    ensures r.Err? ==> r.error == KeyError("id") || r.error == AttributeError("mount")
    ensures r.Ok? && Registered(registerResponse) ==>
      var before := request.dataAssets.GetOr([]);
      && "id" in registerResponse.value.body
      && r.value.dataAssets.value == before + [ComputationDataAsset(
           registerResponse.value.body["id"],
           if MountGiven(inputDataAssetMount) then inputDataAssetMount else registerConfig.value.mount)]
  {
    var listed := WithInputList(request);
    if !Registered(registerResponse) then Ok(listed)
    else
      var id :- Index(registerResponse.value.body, "id");
      var mount :-
        if MountGiven(inputDataAssetMount) then Ok(inputDataAssetMount)
        else if registerConfig.None? then Err(AttributeError("mount"))
        else Ok(registerConfig.value.mount);
      Ok(listed.(dataAssets := Some(listed.dataAssets.value + [ComputationDataAsset(id, mount)])))
  }

  const NoCaptureName: string := "could not determine captured asset name"

  /**
   * The request `capture_result` sends. A configured request is used as it
   * is; otherwise a new one is named `<base>_<process name>_<capture time>`
   * and mounted under the same name, the base being the input asset name,
   * else the registered asset's name, else ValueError. Either way the source
   * becomes the computation and, with tagging on, the derived level replaces
   * the raw one.
   */
  function CaptureRequest(configured: Option<CreateDataAssetRequest>, processName: Option<string>,
                          inputDataAssetName: Option<string>, registerConfig: Option<CreateDataAssetRequest>,
                          computationId: Value, captureTime: string, addDataLevelTags: bool)
    : (r: Result<CreateDataAssetRequest, Error>)
    ensures r.Err? <==> configured.None? && inputDataAssetName.None? && registerConfig.None?
    ensures r.Err? ==> r.error == ValueError(NoCaptureName)
    ensures r.Ok? ==> r.value.source == Source(None, Some(computationId))
    ensures r.Ok? && configured.Some? ==> r.value.name == configured.value.name && r.value.mount == configured.value.mount
    ensures r.Ok? && configured.None? ==>
      var base := if inputDataAssetName.Some? then inputDataAssetName.value else Format(registerConfig.value.name);
      && r.value.name == Some(BuildProcessedDataAssetName(base, processName, captureTime))
      && r.value.mount == r.value.name
    ensures r.Ok? && addDataLevelTags ==>
      r.value.tags.Some? && Derived.Tag() in r.value.tags.value && Raw.Tag() !in r.value.tags.value
  {
    var request :-
      if configured.Some? then Ok(configured.value)
      else
        var base :-
          if inputDataAssetName.Some? then Ok(inputDataAssetName.value)
          else if registerConfig.Some? then Ok(Format(registerConfig.value.name))
          else Err(ValueError(NoCaptureName));
        var name := BuildProcessedDataAssetName(base, processName, captureTime);
        Ok(CreateDataAssetRequest(Some(name), Some(name), Some([]), Some(map[]), Source(None, None)));
    Ok(Tagged(request.(source := Source(None, Some(computationId))), Derived, addDataLevelTags))
  }

  /**
   * Polling stops after the k-th check: its answer has no "state" (the
   * lookup raises KeyError), or the state is "completed", or a timeout is
   * set and k intervals reach it.
   */
  ghost predicate StopsAt(client: Client, computationId: Value, interval: int, timeout: Option<int>, k: nat) {
    var body := client.getComputation(computationId, k).body;
    "state" !in body || body["state"] == Str("completed") || (timeout.Some? && interval * k >= timeout.value)
  }

  /** The k-th check is the first one after which polling stops. */
  ghost predicate FirstStop(client: Client, computationId: Value, interval: int, timeout: Option<int>, k: nat) {
    1 <= k && StopsAt(client, computationId, interval, timeout, k)
    && forall j :: 1 <= j < k ==> !StopsAt(client, computationId, interval, timeout, j)
  }

  /** Polling comes to an end: a negative interval makes the first sleep raise, otherwise some check stops it. */
  ghost predicate PollEnds(client: Client, computationId: Value, interval: int, timeout: Option<int>) {
    interval < 0 || exists k :: 1 <= k && StopsAt(client, computationId, interval, timeout, k)
  }

  /** `n` status checks of one computation. */
  function Polls(computationId: Value, n: nat): (s: seq<Call>)
    ensures |s| == n && forall i :: 0 <= i < n ==> s[i] == GetComputation(computationId)
  {
    seq(n, i => GetComputation(computationId))
  }

  /** `n` sleeps of one interval. */
  function Sleeps(interval: int, n: nat): (s: seq<int>)
    ensures |s| == n && forall i :: 0 <= i < n ==> s[i] == interval
  {
    seq(n, i => interval)
  }

  const NegativeSleep: string := "sleep length must be non-negative"

  /**
   * What a poll leaves behind: with a negative interval, no call, no sleep
   * and a ValueError; otherwise one sleep and one check per round up to the
   * first check that stops it, and a KeyError when that check had no state.
   */
  ghost predicate PollRecord(client: Client, computationId: Value, interval: int, timeout: Option<int>, n: nat,
                             newCalls: seq<Call>, newSleeps: seq<int>, raised: Option<Error>) {
    && (interval < 0 ==> raised == Some(ValueError(NegativeSleep)) && newCalls == [] && newSleeps == [])
    && (interval >= 0 ==>
          && FirstStop(client, computationId, interval, timeout, n)
          && newCalls == Polls(computationId, n)
          && newSleeps == Sleeps(interval, n)
          && raised == (if "state" in client.getComputation(computationId, n).body then None
                        else Some(KeyError("state"))))
  }

  /**
   * With a timeout T and a positive interval I, polling always ends, after at
   * most max(1, ceil(T / I)) checks, whatever the computation answers.
   */
  lemma PollBound(client: Client, computationId: Value, interval: int, timeout: int)
    requires interval > 0
    ensures var bound := if timeout <= 0 then 1 else (timeout + interval - 1) / interval;
      && 1 <= bound
      && StopsAt(client, computationId, interval, Some(timeout), bound)
      && PollEnds(client, computationId, interval, Some(timeout))
      && forall n: nat :: FirstStop(client, computationId, interval, Some(timeout), n) ==> n <= bound
  {
    var bound := if timeout <= 0 then 1 else (timeout + interval - 1) / interval;
    if timeout > 0 {
      var q, m := (timeout + interval - 1) / interval, (timeout + interval - 1) % interval;
      assert timeout + interval - 1 == q * interval + m;
      assert timeout + interval - 1 >= interval;
      assert q >= 1;
      assert interval * bound >= timeout;
    }
    assert StopsAt(client, computationId, interval, Some(timeout), bound);
  }

  /**
   * The poll as written: its stopping test reads `self.process_timeout_seconds`,
   * which a `CodeOceanJob` never has, whenever the first answer is not
   * "completed". It returns the number of checks made.
   */
  function PollAsWritten(client: Client, computationId: Value, interval: int): Result<nat, Error> {
    if interval < 0 then Err(ValueError(NegativeSleep))
    else
      var body := client.getComputation(computationId, 1).body;
      if "state" !in body then Err(KeyError("state"))
      else if body["state"] == Str("completed") then Ok(1)
      else Err(AttributeError("process_timeout_seconds"))
  }

  /**
   * A computation that is still running at the first check and completed at
   * the second, polled every 300 seconds without a timeout: the poll as
   * written raises AttributeError, the intended one stops cleanly after the
   * second check.
   */
  lemma PollAsWrittenRaisesWhileRunning(client: Client, computationId: Value)
    requires client.getComputation(computationId, 1).body == map["state" := Str("running")]
    requires client.getComputation(computationId, 2).body == map["state" := Str("completed")]
    ensures PollAsWritten(client, computationId, 300) == Err(AttributeError("process_timeout_seconds"))
    ensures FirstStop(client, computationId, 300, None, 2)
    ensures "state" in client.getComputation(computationId, 2).body
  {
    assert !StopsAt(client, computationId, 300, None, 1);
  }
}
