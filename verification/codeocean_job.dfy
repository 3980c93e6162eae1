/**
 * `CodeOceanJob`: register a data asset, run a capsule or pipeline on it and
 * wait for the computation, then capture the results as a new asset. Each
 * stage runs only when configured. The job records every remote call it
 * makes in `calls` and every `time.sleep` in the ghost `sleeps`; the
 * configurations the source updates in place are fields the stages reassign.
 */
module CodeOceanJobs {
  import opened Wrappers
  import opened Py
  import opened DataLevels
  import opened JobRequests
  import Configs

  /** Settings for processing data. */
  class ProcessConfig {
    var request: RunCapsuleRequest
    const inputDataAssetMount: Option<string>
    const pollIntervalSeconds: Option<int>
    const timeoutSeconds: Option<int>

    /** The input mount and the timeout default to None; the poll interval is given (its declared default is a tuple). */
    constructor (request: RunCapsuleRequest, inputDataAssetMount: Configs.Arg<Option<string>>,
                 pollIntervalSeconds: Option<int>, timeoutSeconds: Configs.Arg<Option<int>>)
      ensures this.request == request && this.inputDataAssetMount == inputDataAssetMount.Or(None)
      ensures this.pollIntervalSeconds == pollIntervalSeconds && this.timeoutSeconds == timeoutSeconds.Or(None)
    {
      this.request := request;
      this.inputDataAssetMount := inputDataAssetMount.Or(None);
      this.pollIntervalSeconds := pollIntervalSeconds;
      this.timeoutSeconds := timeoutSeconds.Or(None);
    }

    /** `if self.process_config.poll_interval_seconds:` */
    predicate Polls() {
      pollIntervalSeconds.Some? && pollIntervalSeconds.value != 0
    }
  }

  /** Settings for capturing results. */
  class CaptureResultConfig {
    var request: Option<CreateDataAssetRequest>
    const processName: Option<string>
    const inputDataAssetName: Option<string>

    /** No request and no input name by default; the process name defaults to "processed". */
    constructor (request: Configs.Arg<Option<CreateDataAssetRequest>>, processName: Configs.Arg<Option<string>>,
                 inputDataAssetName: Configs.Arg<Option<string>>)
      ensures this.request == request.Or(None)
      ensures this.processName == processName.Or(Some("processed"))
      ensures this.inputDataAssetName == inputDataAssetName.Or(None)
    {
      this.request := request.Or(None);
      this.processName := processName.Or(Some("processed"));
      this.inputDataAssetName := inputDataAssetName.Or(None);
    }
  }

  /**
   * What submitting a prepared run leaves behind: the input check, then the
   * run, stopping at the first failure (a run response without an id fails
   * with its status code and body); with a non-zero poll interval, the poll
   * of the computation follows (see `PollRecord`). A completed job answers
   * the submission response, not the last status check.
   */
  ghost predicate RunRecord(client: Client, pollIntervalSeconds: Option<int>, timeoutSeconds: Option<int>,
                            request: RunCapsuleRequest, n: nat, newCalls: seq<Call>, newSleeps: seq<int>,
                            r: Result<Response, Error>) {
    var inputs := request.dataAssets.GetOr([]);
    var checked := client.checkDataAssets(inputs);
    var run := client.runCapsule(request);
    var submitted := [CheckDataAssets(inputs), RunCapsule(request)];
    var polls := pollIntervalSeconds.Some? && pollIntervalSeconds.value != 0;
    && (checked.Some? ==> r == Err(checked.value) && newCalls == [CheckDataAssets(inputs)] && newSleeps == [])
    && (checked.None? ==>
          && |newCalls| >= 2 && newCalls[..2] == submitted
          && (Get(run.body, "id") == Null ==>
                r == Err(RunResponseError(run.statusCode, run.body)) && newCalls == submitted && newSleeps == [])
          && (Get(run.body, "id") != Null && !polls ==> r == Ok(run) && newCalls == submitted && newSleeps == [])
          && (Get(run.body, "id") != Null && polls ==>
                exists raised: Option<Error> ::
                  && PollRecord(client, run.body["id"], pollIntervalSeconds.value, timeoutSeconds, n,
                                newCalls[2..], newSleeps, raised)
                  && r == (if raised.Some? then Err(raised.value) else Ok(run))))
  }

  /**
   * Polling ends for the computation that submitting `request` starts, when
   * the input check passes, the run answers an id and the poll interval is
   * non-zero; in every other case nothing is polled.
   */
  ghost predicate RunPollEnds(client: Client, pollIntervalSeconds: Option<int>, timeoutSeconds: Option<int>,
                              request: RunCapsuleRequest) {
    var run := client.runCapsule(request);
    (&& client.checkDataAssets(request.dataAssets.GetOr([])).None?
     && pollIntervalSeconds.Some? && pollIntervalSeconds.value != 0
     && Get(run.body, "id") != Null)
    ==> PollEnds(client, run.body["id"], pollIntervalSeconds.value, timeoutSeconds)
  }

  /**
   * What `process_data` leaves behind: a failure while preparing the run
   * request (see `PreparedRequest`) ends it before any remote call;
   * otherwise the prepared request is submitted (see `RunRecord`).
   */
  ghost predicate ProcessRecord(client: Client, pollIntervalSeconds: Option<int>, timeoutSeconds: Option<int>,
                                request: RunCapsuleRequest, registerResponse: Option<Response>,
                                inputDataAssetMount: Option<string>, registered: Option<CreateDataAssetRequest>,
                                n: nat, newCalls: seq<Call>, newSleeps: seq<int>, r: Result<Response, Error>) {
    var prepared := PreparedRequest(request, registerResponse, inputDataAssetMount, registered);
    && (prepared.Err? ==> r == Err(prepared.error) && newCalls == [] && newSleeps == [])
    && (prepared.Ok? ==>
          RunRecord(client, pollIntervalSeconds, timeoutSeconds, prepared.value, n, newCalls, newSleeps, r))
  }

  /**
   * What `capture_result` leaves behind: a run response without an id raises
   * KeyError; a capture request that cannot be built (see `CaptureRequest`)
   * fails before any call; otherwise the request is sent once.
   */
  predicate CaptureRecord(client: Client, configured: Option<CreateDataAssetRequest>, processName: Option<string>,
                          inputDataAssetName: Option<string>, registered: Option<CreateDataAssetRequest>,
                          processResponse: Response, captureTime: string, addDataLevelTags: bool,
                          assetsViewableToEveryone: bool, newCalls: seq<Call>, r: Result<Response, Error>) {
    && ("id" !in processResponse.body ==> r == Err(KeyError("id")) && newCalls == [])
    && ("id" in processResponse.body ==>
          var request := CaptureRequest(configured, processName, inputDataAssetName, registered,
                                        processResponse.body["id"], captureTime, addDataLevelTags);
          && (request.Err? ==> r == Err(request.error) && newCalls == [])
          && (request.Ok? ==>
                && r == client.createDataAsset(request.value, assetsViewableToEveryone)
                && newCalls == [CreateDataAsset(request.value, assetsViewableToEveryone)]))
  }

  /**
   * The run request `process_data` leaves in the process settings, which it
   * updates in place: the prepared request, or, when preparing fails, the old
   * request with its input list made.
   */
  function ProcessedRequest(request: RunCapsuleRequest, registerResponse: Option<Response>,
                            inputDataAssetMount: Option<string>, registered: Option<CreateDataAssetRequest>)
    : RunCapsuleRequest
  {
    var prepared := PreparedRequest(request, registerResponse, inputDataAssetMount, registered);
    if prepared.Ok? then prepared.value else WithInputList(request)
  }

  /**
   * The capture request `capture_result` leaves in the capture settings: a
   * configured request becomes the request it builds and sends; a missing
   * id, a request that cannot be built or no configured request leaves it as
   * it was.
   */
  function CapturedRequest(configured: Option<CreateDataAssetRequest>, processName: Option<string>,
                           inputDataAssetName: Option<string>, registered: Option<CreateDataAssetRequest>,
                           processResponse: Response, captureTime: string, addDataLevelTags: bool)
    : Option<CreateDataAssetRequest>
  {
    if configured.None? || "id" !in processResponse.body then configured
    else
      var request := CaptureRequest(configured, processName, inputDataAssetName, registered,
                                    processResponse.body["id"], captureTime, addDataLevelTags);
      if request.Ok? then Some(request.value) else configured
  }

  /** The registration request once `register_data` has tagged it. */
  function RegisteredConfig(config: Option<CreateDataAssetRequest>, addDataLevelTags: bool)
    : Option<CreateDataAssetRequest>
  {
    if config.None? then None else Some(Tagged(config.value, Raw, addDataLevelTags))
  }

  /** The outcome of the registration stage: None when it is not configured. */
  function Registration(client: Client, config: Option<CreateDataAssetRequest>, addDataLevelTags: bool,
                        assetsViewableToEveryone: bool): Option<Result<Response, Error>>
  {
    match RegisteredConfig(config, addDataLevelTags)
    case None => None
    case Some(request) =>
      if KeptOnExternalStorage(request) then Some(client.createDataAsset(request, assetsViewableToEveryone))
      else Some(Err(AssertionError(ExternalStorageMessage)))
  }

  /** The remote calls of the registration stage. */
  function RegistrationCalls(config: Option<CreateDataAssetRequest>, addDataLevelTags: bool,
                             assetsViewableToEveryone: bool): seq<Call>
  {
    match RegisteredConfig(config, addDataLevelTags)
    case None => []
    case Some(request) =>
      if KeptOnExternalStorage(request) then [CreateDataAsset(request, assetsViewableToEveryone)] else []
  }

  /** A stage that ran and failed. */
  predicate Fails(outcome: Option<Result<Response, Error>>) {
    outcome.Some? && outcome.value.Err?
  }

  /** The response a stage hands on: None when it was skipped. */
  function Answer(outcome: Option<Result<Response, Error>>): Option<Response> {
    if outcome.Some? && outcome.value.Ok? then Some(outcome.value.value) else None
  }

  /** What `run_job` returns: the first stage failure, or the three responses. */
  function JobResult(registration: Option<Result<Response, Error>>, process: Option<Result<Response, Error>>,
                     capture: Option<Result<Response, Error>>)
    : Result<(Option<Response>, Option<Response>, Option<Response>), Error>
  {
    if Fails(registration) then Err(registration.value.error)
    else if Fails(process) then Err(process.value.error)
    else if Fails(capture) then Err(capture.value.error)
    else Ok((Answer(registration), Answer(process), Answer(capture)))
  }

  const CaptureNeedsProcess: string := "process_config must be provided to capture results"

  class CodeOceanJob {
    const client: Client
    var registerDataConfig: Option<CreateDataAssetRequest>
    const processConfig: ProcessConfig?
    const captureResultConfig: CaptureResultConfig?
    const assetsViewableToEveryone: bool
    const addDataLevelTags: bool
    /** The remote calls made so far, in order. */
    var calls: seq<Call>
    /** The `time.sleep` durations so far, in order. */
    ghost var sleeps: seq<int>

    /** New assets are viewable to everyone and tagged with their data level by default. */
    constructor (client: Client, registerDataConfig: Configs.Arg<Option<CreateDataAssetRequest>>,
                 processConfig: Configs.Arg<ProcessConfig?>, captureResultConfig: Configs.Arg<CaptureResultConfig?>,
                 assetsViewableToEveryone: Configs.Arg<bool>, addDataLevelTags: Configs.Arg<bool>)
      ensures this.client == client && this.registerDataConfig == registerDataConfig.Or(None)
      ensures this.processConfig == processConfig.Or(null) && this.captureResultConfig == captureResultConfig.Or(null)
      ensures this.assetsViewableToEveryone == assetsViewableToEveryone.Or(true)
      ensures this.addDataLevelTags == addDataLevelTags.Or(true)
      ensures calls == [] && sleeps == []
    {
      this.client := client;
      this.registerDataConfig := registerDataConfig.Or(None);
      this.processConfig := processConfig.Or(null);
      this.captureResultConfig := captureResultConfig.Or(null);
      this.assetsViewableToEveryone := assetsViewableToEveryone.Or(true);
      this.addDataLevelTags := addDataLevelTags.Or(true);
      calls := [];
      sleeps := [];
    }

    /**
     * Polling ends for the run that `run_job` submits, when it submits one:
     * the run request is prepared from the registration's response.
     */
    ghost predicate PollingEnds()
      reads this, processConfig
    {
      processConfig != null ==>
        var registration := Registration(client, registerDataConfig, addDataLevelTags, assetsViewableToEveryone);
        var prepared := PreparedRequest(processConfig.request, Answer(registration), processConfig.inputDataAssetMount,
                                        RegisteredConfig(registerDataConfig, addDataLevelTags));
        (!Fails(registration) && prepared.Ok?) ==>
          RunPollEnds(client, processConfig.pollIntervalSeconds, processConfig.timeoutSeconds, prepared.value)
    }

    /**
     * `register_data` on the job's registration request: with tagging on, the
     * request (and so the job's configuration) gains the raw level; a request
     * from S3 that is not kept on external storage fails before any call;
     * otherwise the request is sent once.
     */
    method RegisterData() returns (r: Result<Response, Error>)
      requires registerDataConfig.Some?
      modifies this
      ensures var request := Tagged(old(registerDataConfig).value, Raw, addDataLevelTags);
        && registerDataConfig == Some(request)
        && (KeptOnExternalStorage(request) ==>
              r == client.createDataAsset(request, assetsViewableToEveryone)
              && calls == old(calls) + [CreateDataAsset(request, assetsViewableToEveryone)])
        && (!KeptOnExternalStorage(request) ==> r == Err(AssertionError(ExternalStorageMessage)) && calls == old(calls))
      ensures sleeps == old(sleeps)
    {
      var request := registerDataConfig.value;
      if addDataLevelTags {
        var (tags, metadata) := AddDataLevelMetadata(Raw, request.tags, request.customMetadata);
        request := request.(tags := Some(tags), customMetadata := Some(metadata));
        registerDataConfig := Some(request);
      }
      if request.source.aws.Some? && !request.source.aws.value.keepOnExternalStorage {
        return Err(AssertionError(ExternalStorageMessage));
      }
      r := client.createDataAsset(request, assetsViewableToEveryone);
      calls := calls + [CreateDataAsset(request, assetsViewableToEveryone)];
    }

    /**
     * The poll loop of `process_data`, with the interval and the timeout of
     * the process configuration: sleep, check the computation, and stop at the
     * first check that is completed, has no state, or reaches the timeout.
     */
    method WaitForComputation(computationId: Value, interval: int, timeout: Option<int>)
      returns (raised: Option<Error>, checks: nat)
      requires PollEnds(client, computationId, interval, timeout)
      modifies this
      ensures registerDataConfig == old(registerDataConfig)
      ensures |calls| >= |old(calls)| && calls[..|old(calls)|] == old(calls)
      ensures |sleeps| >= |old(sleeps)| && sleeps[..|old(sleeps)|] == old(sleeps)
      ensures PollRecord(client, computationId, interval, timeout, checks,
                         calls[|old(calls)|..], sleeps[|old(sleeps)|..], raised)
    {
      checks := 0;
      ghost var bound: nat := 1;
      if interval >= 0 {
        bound :| 1 <= bound && StopsAt(client, computationId, interval, timeout, bound);
      }
      var executing := true;
      while executing
        invariant executing ==> checks < bound
        invariant executing ==> forall j :: 1 <= j <= checks ==> !StopsAt(client, computationId, interval, timeout, j)
        invariant !executing ==> interval >= 0 && FirstStop(client, computationId, interval, timeout, checks)
        invariant !executing ==> "state" in client.getComputation(computationId, checks).body
        invariant checks > 0 ==> interval >= 0
        invariant registerDataConfig == old(registerDataConfig)
        invariant calls == old(calls) + Polls(computationId, checks)
        invariant sleeps == old(sleeps) + Sleeps(interval, checks)
        decreases if executing then bound - checks + 1 else 0
      {
        if interval < 0 {
          assert calls[|old(calls)|..] == [] && sleeps[|old(sleeps)|..] == [];
          return Some(ValueError(NegativeSleep)), checks + 1;
        }
        checks := checks + 1;
        sleeps := sleeps + [interval];
        var response := client.getComputation(computationId, checks);
        calls := calls + [GetComputation(computationId)];
        assert Polls(computationId, checks) == Polls(computationId, checks - 1) + [GetComputation(computationId)];
        assert Sleeps(interval, checks) == Sleeps(interval, checks - 1) + [interval];
        if "state" !in response.body {
          assert calls[|old(calls)|..] == Polls(computationId, checks);
          assert sleeps[|old(sleeps)|..] == Sleeps(interval, checks);
          return Some(KeyError("state")), checks;
        }
        if response.body["state"] == Str("completed") || (timeout.Some? && interval * checks >= timeout.value) {
          executing := false;
        }
      }
      assert calls[|old(calls)|..] == Polls(computationId, checks);
      assert sleeps[|old(sleeps)|..] == Sleeps(interval, checks);
      raised := None;
    }

    /**
     * The first half of `process_data`: the run request gets an input list
     * and, after a truthy registration, the registered asset under the
     * configured mount, or else the registered request's mount.
     */
    method PrepareRunRequest(registerResponse: Option<Response>) returns (r: Result<RunCapsuleRequest, Error>)
      requires processConfig != null
      modifies processConfig
      ensures r == PreparedRequest(old(processConfig.request), registerResponse,
                                   processConfig.inputDataAssetMount, registerDataConfig)
      ensures processConfig.request == (if r.Ok? then r.value else WithInputList(old(processConfig.request)))
    {
      var request := processConfig.request;
      if request.dataAssets.None? {
        request := request.(dataAssets := Some([]));
        processConfig.request := request;
      }
      if registerResponse.Some? && registerResponse.value.Truthy() {
        if "id" !in registerResponse.value.body {
          return Err(KeyError("id"));
        }
        var id := registerResponse.value.body["id"];
        var mount: Option<string>;
        if processConfig.inputDataAssetMount.Some? && processConfig.inputDataAssetMount.value != "" {
          mount := processConfig.inputDataAssetMount;
        } else if registerDataConfig.None? {
          return Err(AttributeError("mount"));
        } else {
          mount := registerDataConfig.value.mount;
        }
        request := request.(dataAssets := Some(request.dataAssets.value + [ComputationDataAsset(id, mount)]));
        processConfig.request := request;
      }
      r := Ok(request);
    }

    /**
     * The second half of `process_data`: checks the inputs, submits the run
     * and, when polling is on, waits for the computation it started.
     */
    method SubmitRun(request: RunCapsuleRequest) returns (r: Result<Response, Error>, checks: nat)
      requires processConfig != null
      requires RunPollEnds(client, processConfig.pollIntervalSeconds, processConfig.timeoutSeconds, request)
      modifies this
      ensures registerDataConfig == old(registerDataConfig)
      ensures |calls| >= |old(calls)| && calls[..|old(calls)|] == old(calls)
      ensures |sleeps| >= |old(sleeps)| && sleeps[..|old(sleeps)|] == old(sleeps)
      ensures RunRecord(client, processConfig.pollIntervalSeconds, processConfig.timeoutSeconds, request, checks,
                        calls[|old(calls)|..], sleeps[|old(sleeps)|..], r)
    {
      checks := 0;
      var inputs := request.dataAssets.GetOr([]);
      var checked := client.checkDataAssets(inputs);
      calls := calls + [CheckDataAssets(inputs)];
      if checked.Some? {
        assert calls[|old(calls)|..] == [CheckDataAssets(inputs)];
        assert sleeps[|old(sleeps)|..] == [];
        return Err(checked.value), checks;
      }
      var run := client.runCapsule(request);
      calls := calls + [RunCapsule(request)];
      ghost var submitted := calls;
      assert calls[|old(calls)|..] == [CheckDataAssets(inputs), RunCapsule(request)];
      assert sleeps[|old(sleeps)|..] == [];
      if Get(run.body, "id") == Null {
        return Err(RunResponseError(run.statusCode, run.body)), checks;
      }
      var computationId := run.body["id"];
      r := Ok(run);
      if processConfig.pollIntervalSeconds.Some? && processConfig.pollIntervalSeconds.value != 0 {
        assert PollEnds(client, computationId, processConfig.pollIntervalSeconds.value, processConfig.timeoutSeconds);
        var raised;
        raised, checks := WaitForComputation(computationId, processConfig.pollIntervalSeconds.value,
                                             processConfig.timeoutSeconds);
        ghost var newCalls := calls[|old(calls)|..];
        assert newCalls[..2] == submitted[|old(calls)|..];
        assert newCalls[2..] == calls[|submitted|..];
        if raised.Some? {
          r := Err(raised.value);
        }
        assert PollRecord(client, computationId, processConfig.pollIntervalSeconds.value, processConfig.timeoutSeconds,
                          checks, newCalls[2..], sleeps[|old(sleeps)|..], raised);
      }
    }

    /**
     * `process_data`: prepares the run request, then checks, submits and,
     * when polling is on, waits for it (see `ProcessRecord`). The configured
     * run request is updated in place.
     */
    method ProcessData(registerResponse: Option<Response>) returns (r: Result<Response, Error>, checks: nat)
      requires processConfig != null
      requires var prepared := PreparedRequest(processConfig.request, registerResponse,
                                               processConfig.inputDataAssetMount, registerDataConfig);
        prepared.Ok? ==>
          RunPollEnds(client, processConfig.pollIntervalSeconds, processConfig.timeoutSeconds, prepared.value)
      modifies this, processConfig
      ensures registerDataConfig == old(registerDataConfig)
      ensures |calls| >= |old(calls)| && calls[..|old(calls)|] == old(calls)
      ensures |sleeps| >= |old(sleeps)| && sleeps[..|old(sleeps)|] == old(sleeps)
      ensures ProcessRecord(client, processConfig.pollIntervalSeconds, processConfig.timeoutSeconds,
                            old(processConfig.request), registerResponse, processConfig.inputDataAssetMount,
                            old(registerDataConfig), checks, calls[|old(calls)|..], sleeps[|old(sleeps)|..], r)
      ensures processConfig.request == ProcessedRequest(old(processConfig.request), registerResponse,
                                                        processConfig.inputDataAssetMount, old(registerDataConfig))
    {
      checks := 0;
      var prepared := PrepareRunRequest(registerResponse);
      if prepared.Err? {
        assert calls[|old(calls)|..] == [] && sleeps[|old(sleeps)|..] == [];
        return Err(prepared.error), checks;
      }
      r, checks := SubmitRun(prepared.value);
    }

    /**
     * `capture_result`: takes the computation id from the run response
     * ("id" missing: KeyError), builds the capture request (see
     * `CaptureRequest`) and sends it once. A configured request is updated in
     * place; a request built here is not kept.
     */
    method CaptureResult(processResponse: Response, captureTime: string) returns (r: Result<Response, Error>)
      requires captureResultConfig != null
      modifies this, captureResultConfig
      ensures registerDataConfig == old(registerDataConfig) && sleeps == old(sleeps)
      ensures "id" !in processResponse.body ==>
        r == Err(KeyError("id")) && calls == old(calls) && captureResultConfig.request == old(captureResultConfig.request)
      ensures "id" in processResponse.body ==>
        var request := CaptureRequest(old(captureResultConfig.request), captureResultConfig.processName,
                                      captureResultConfig.inputDataAssetName, registerDataConfig,
                                      processResponse.body["id"], captureTime, addDataLevelTags);
        && (request.Err? ==>
              r == Err(request.error) && calls == old(calls)
              && captureResultConfig.request == old(captureResultConfig.request))
        && (request.Ok? ==>
              && r == client.createDataAsset(request.value, assetsViewableToEveryone)
              && calls == old(calls) + [CreateDataAsset(request.value, assetsViewableToEveryone)]
              && captureResultConfig.request == (if old(captureResultConfig.request).Some? then Some(request.value) else None))
      ensures captureResultConfig.request ==
        CapturedRequest(old(captureResultConfig.request), captureResultConfig.processName,
                        captureResultConfig.inputDataAssetName, registerDataConfig, processResponse, captureTime,
                        addDataLevelTags)
    {
      if "id" !in processResponse.body {
        return Err(KeyError("id"));
      }
      var computationId := processResponse.body["id"];
      var request: CreateDataAssetRequest;
      if captureResultConfig.request.Some? {
        request := captureResultConfig.request.value;
      } else {
        var base: string;
        if captureResultConfig.inputDataAssetName.Some? {
          base := captureResultConfig.inputDataAssetName.value;
        } else if registerDataConfig.Some? {
          base := Format(registerDataConfig.value.name);
        } else {
          return Err(ValueError(NoCaptureName));
        }
        var name := BuildProcessedDataAssetName(base, captureResultConfig.processName, captureTime);
        request := CreateDataAssetRequest(Some(name), Some(name), Some([]), Some(map[]), Source(None, None));
      }
      request := request.(source := Source(None, Some(computationId)));
      if addDataLevelTags {
        var (tags, metadata) := AddDataLevelMetadata(Derived, request.tags, request.customMetadata);
        request := request.(tags := Some(tags), customMetadata := Some(metadata));
      }
      if captureResultConfig.request.Some? {
        captureResultConfig.request := Some(request);
      }
      r := client.createDataAsset(request, assetsViewableToEveryone);
      calls := calls + [CreateDataAsset(request, assetsViewableToEveryone)];
    }

    /** The registration stage of `run_job`: `register_data` when a registration is configured. */
    method RegisterStage() returns (registration: Option<Result<Response, Error>>, ghost registerCalls: seq<Call>)
      modifies this
      ensures registration == Registration(client, old(registerDataConfig), addDataLevelTags, assetsViewableToEveryone)
      ensures registerDataConfig == RegisteredConfig(old(registerDataConfig), addDataLevelTags)
      ensures registerCalls == RegistrationCalls(old(registerDataConfig), addDataLevelTags, assetsViewableToEveryone)
      ensures calls == old(calls) + registerCalls && sleeps == old(sleeps)
    {
      registration, registerCalls := None, [];
      if registerDataConfig.Some? {
        var response := RegisterData();
        registerCalls := calls[|old(calls)|..];
        assert calls == old(calls) + registerCalls;
        registration := Some(response);
      }
    }

    /**
     * The process and capture stages of `run_job`, after a registration that
     * did not fail: processing is fed the registration's response, capture
     * the run response, and a failed process skips the capture.
     */
    method ProcessAndCapture(registered: Option<Response>, captureTime: string)
      returns (processOutcome: Option<Result<Response, Error>>, captureOutcome: Option<Result<Response, Error>>,
               ghost processCalls: seq<Call>, ghost captureCalls: seq<Call>, ghost checks: nat)
      requires captureResultConfig != null ==> processConfig != null
      requires processConfig != null ==>
        var prepared := PreparedRequest(processConfig.request, registered, processConfig.inputDataAssetMount,
                                        registerDataConfig);
        prepared.Ok? ==>
          RunPollEnds(client, processConfig.pollIntervalSeconds, processConfig.timeoutSeconds, prepared.value)
      modifies this, processConfig, captureResultConfig
      ensures registerDataConfig == old(registerDataConfig)
      ensures calls == old(calls) + processCalls + captureCalls
      ensures |sleeps| >= |old(sleeps)| && sleeps[..|old(sleeps)|] == old(sleeps)
      ensures processConfig == null ==> processOutcome.None? && processCalls == [] && sleeps == old(sleeps)
      ensures processConfig != null ==>
        && processOutcome.Some?
        && ProcessRecord(client, processConfig.pollIntervalSeconds, processConfig.timeoutSeconds,
                         old(processConfig.request), registered, processConfig.inputDataAssetMount,
                         registerDataConfig, checks, processCalls, sleeps[|old(sleeps)|..], processOutcome.value)
      ensures Fails(processOutcome) || captureResultConfig == null ==> captureOutcome.None? && captureCalls == []
      ensures !Fails(processOutcome) && captureResultConfig != null ==>
        && processOutcome.Some? && captureOutcome.Some?
        && CaptureRecord(client, old(captureResultConfig.request), captureResultConfig.processName,
                         captureResultConfig.inputDataAssetName, registerDataConfig,
                         processOutcome.value.value, captureTime, addDataLevelTags,
                         assetsViewableToEveryone, captureCalls, captureOutcome.value)
      ensures processConfig != null ==>
        processConfig.request == ProcessedRequest(old(processConfig.request), registered,
                                                  processConfig.inputDataAssetMount, registerDataConfig)
      ensures captureResultConfig != null ==>
        captureResultConfig.request ==
          if processOutcome.None? || Fails(processOutcome) then old(captureResultConfig.request)
          else CapturedRequest(old(captureResultConfig.request), captureResultConfig.processName,
                               captureResultConfig.inputDataAssetName, registerDataConfig,
                               processOutcome.value.value, captureTime, addDataLevelTags)
    {
      processOutcome, captureOutcome, processCalls, captureCalls, checks := None, None, [], [], 0;
      ghost var before := calls;
      if processConfig != null {
        var response;
        response, checks := ProcessData(registered);
        processCalls := calls[|before|..];
        assert calls == before + processCalls;
        processOutcome := Some(response);
      }
      before := calls;
      if captureResultConfig != null && !Fails(processOutcome) {
        var response := CaptureResult(processOutcome.value.value, captureTime);
        captureCalls := calls[|before|..];
        assert calls == before + captureCalls;
        captureOutcome := Some(response);
      }
    }

    /**
     * `run_job`: a capture without a process fails before any stage. Then
     * registration, processing and capture run in that order, each only when
     * configured: processing is fed the registration's response and the
     * tagged registration request, capture the run response; the first
     * failure ends the job (see `JobResult`). Skipped stages answer None.
     */
    method RunJob(captureTime: string)
      returns (r: Result<(Option<Response>, Option<Response>, Option<Response>), Error>,
               ghost registerCalls: seq<Call>, ghost processCalls: seq<Call>, ghost captureCalls: seq<Call>,
               ghost processOutcome: Option<Result<Response, Error>>,
               ghost captureOutcome: Option<Result<Response, Error>>, ghost checks: nat)
      requires PollingEnds()
      modifies this, processConfig, captureResultConfig
      ensures captureResultConfig != null && processConfig == null ==>
        r == Err(AssertionError(CaptureNeedsProcess)) && calls == old(calls)
        && registerDataConfig == old(registerDataConfig) && sleeps == old(sleeps)
      ensures calls == old(calls) + registerCalls + processCalls + captureCalls
      ensures |sleeps| >= |old(sleeps)| && sleeps[..|old(sleeps)|] == old(sleeps)
      ensures !(captureResultConfig != null && processConfig == null) ==>
        var registration := Registration(client, old(registerDataConfig), addDataLevelTags, assetsViewableToEveryone);
        && registerDataConfig == RegisteredConfig(old(registerDataConfig), addDataLevelTags)
        && registerCalls == RegistrationCalls(old(registerDataConfig), addDataLevelTags, assetsViewableToEveryone)
        && r == JobResult(registration, processOutcome, captureOutcome)
        && (Fails(registration) || processConfig == null ==>
              processOutcome.None? && processCalls == [] && sleeps == old(sleeps))
        && (!Fails(registration) && processConfig != null ==>
              && processOutcome.Some?
              && ProcessRecord(client, processConfig.pollIntervalSeconds, processConfig.timeoutSeconds,
                               old(processConfig.request), Answer(registration), processConfig.inputDataAssetMount,
                               registerDataConfig, checks, processCalls, sleeps[|old(sleeps)|..], processOutcome.value))
        && (Fails(registration) || Fails(processOutcome) || captureResultConfig == null ==>
              captureOutcome.None? && captureCalls == [])
        && (!Fails(registration) && !Fails(processOutcome) && captureResultConfig != null ==>
              && processOutcome.Some? && captureOutcome.Some?
              && CaptureRecord(client, old(captureResultConfig.request), captureResultConfig.processName,
                               captureResultConfig.inputDataAssetName, registerDataConfig,
                               processOutcome.value.value, captureTime, addDataLevelTags,
                               assetsViewableToEveryone, captureCalls, captureOutcome.value))
      ensures processConfig != null ==>
        var registration := Registration(client, old(registerDataConfig), addDataLevelTags, assetsViewableToEveryone);
        processConfig.request ==
          if Fails(registration) then old(processConfig.request)
          else ProcessedRequest(old(processConfig.request), Answer(registration),
                                processConfig.inputDataAssetMount, registerDataConfig)
      ensures captureResultConfig != null ==>
        var registration := Registration(client, old(registerDataConfig), addDataLevelTags, assetsViewableToEveryone);
        captureResultConfig.request ==
          if processConfig == null || Fails(registration) || processOutcome.None? || Fails(processOutcome)
          then old(captureResultConfig.request)
          else CapturedRequest(old(captureResultConfig.request), captureResultConfig.processName,
                               captureResultConfig.inputDataAssetName, registerDataConfig,
                               processOutcome.value.value, captureTime, addDataLevelTags)
    {
      registerCalls, processCalls, captureCalls := [], [], [];
      processOutcome, captureOutcome, checks := None, None, 0;
      if captureResultConfig != null && processConfig == null {
        return Err(AssertionError(CaptureNeedsProcess)), registerCalls, processCalls, captureCalls,
               processOutcome, captureOutcome, checks;
      }
      var registration;
      registration, registerCalls := RegisterStage();
      var processed, captured := None, None;
      if !Fails(registration) {
        processed, captured, processCalls, captureCalls, checks := ProcessAndCapture(Answer(registration), captureTime);
        processOutcome, captureOutcome := processed, captured;
      }
      r := JobResult(registration, processed, captured);
    }
  }
}
