/**
 * The pydantic configuration models of `models/config.py`. Each
 * `model_validator(mode="after")` is a method that runs on an object holding
 * the given values and the declared defaults, and either normalises its
 * fields in place or fails with an AssertionError (which pydantic reports as
 * a ValidationError). Constructing a model runs both: the constructor of a
 * model whose validator cannot fail, and otherwise a `Create` method that
 * answers the validated object or the failure.
 */
module Configs {
  import opened Wrappers
  import opened Py

  /** A keyword argument of a model: left out, so that the field's default applies, or given. */
  datatype Arg<T> = Omitted | Given(value: T) {
    function Or(default: T): T {
      if Given? then value else default
    }
  }

  /** Settings for registering data. */
  class RegisterDataConfig {
    var assetName: string
    var mount: string
    var bucket: string
    var prefix: string
    var public: bool
    var keepOnExternalStorage: bool
    var tags: Option<seq<string>>
    var customMetadata: Option<Object>
    var viewableToEveryone: bool

    /**
     * Name, mount, bucket and prefix are required; the asset is private, kept
     * on external storage and not shared by default. The validator then
     * turns None tags into [] and None metadata into {}.
     */
    constructor (assetName: string, mount: string, bucket: string, prefix: string,
                 public: Arg<bool>, keepOnExternalStorage: Arg<bool>, tags: Arg<Option<seq<string>>>,
                 customMetadata: Arg<Option<Object>>, viewableToEveryone: Arg<bool>)
      ensures this.assetName == assetName && this.mount == mount && this.bucket == bucket && this.prefix == prefix
      ensures this.public == public.Or(false)
      ensures this.keepOnExternalStorage == keepOnExternalStorage.Or(true)
      ensures this.viewableToEveryone == viewableToEveryone.Or(false)
      ensures Normalized()
      ensures this.tags == Some(tags.Or(None).GetOr([]))
      ensures this.customMetadata == Some(customMetadata.Or(None).GetOr(map[]))
    {
      this.assetName := assetName;
      this.mount := mount;
      this.bucket := bucket;
      this.prefix := prefix;
      this.public := public.Or(false);
      this.keepOnExternalStorage := keepOnExternalStorage.Or(true);
      this.tags := tags.Or(None);
      this.customMetadata := customMetadata.Or(None);
      this.viewableToEveryone := viewableToEveryone.Or(false);
      new;
      CheckTagsAndCustomMetadata();
    }

    /** Neither the tags nor the custom metadata are None. */
    predicate Normalized()
      reads this
    {
      tags.Some? && customMetadata.Some?
    }

    /**
     * `check_tags_and_custom_metadata`: None tags become [] and None metadata
     * {}; given values and every other field are kept, so validating a
     * validated config changes nothing.
     */
    method CheckTagsAndCustomMetadata()
      modifies this
      ensures Normalized()
      ensures tags == Some(old(tags).GetOr([]))
      ensures customMetadata == Some(old(customMetadata).GetOr(map[]))
      ensures old(Normalized()) ==> tags == old(tags) && customMetadata == old(customMetadata)
      ensures assetName == old(assetName) && mount == old(mount) && bucket == old(bucket) && prefix == old(prefix)
      ensures public == old(public) && keepOnExternalStorage == old(keepOnExternalStorage)
      ensures viewableToEveryone == old(viewableToEveryone)
    {
      if tags.None? {
        tags := Some([]);
      }
      if customMetadata.None? {
        customMetadata := Some(map[]);
      }
    }
  }

  const DataAssetsMessage: string := "data_assets must be a list of dicts with keys 'id' and 'mount'"

  /** Every entry names both an "id" and a "mount". */
  predicate EntriesHaveIdAndMount(dataAssets: seq<Object>) {
    forall i :: 0 <= i < |dataAssets| ==> "id" in dataAssets[i] && "mount" in dataAssets[i]
  }

  /**
   * What `check_data_assets` leaves in `data_assets`: None becomes []; a list
   * passes unchanged exactly when every entry has both keys, and otherwise
   * the validation fails with an AssertionError. (pydantic has already made
   * the field a list, so the list-or-tuple assertion always holds.)
   */
  function ValidatedDataAssets(dataAssets: Option<seq<Object>>): (r: Result<seq<Object>, Error>)
    ensures r.Ok? <==> dataAssets.None? || EntriesHaveIdAndMount(dataAssets.value)
    ensures r.Ok? && dataAssets.Some? ==> r.value == dataAssets.value
    ensures r.Ok? && dataAssets.None? ==> r.value == []
    ensures r.Ok? ==> EntriesHaveIdAndMount(r.value)
    ensures r.Err? ==> r.error == AssertionError(DataAssetsMessage)
  {
    match dataAssets
    case None => Ok([])
    case Some(entries) =>
      if EntriesHaveIdAndMount(entries) then Ok(entries) else Err(AssertionError(DataAssetsMessage))
  }

  /** Validating the validated list again accepts it and changes nothing. */
  lemma ValidatedDataAssetsIdempotent(dataAssets: Option<seq<Object>>)
    requires ValidatedDataAssets(dataAssets).Ok?
    ensures ValidatedDataAssets(Some(ValidatedDataAssets(dataAssets).value)) == ValidatedDataAssets(dataAssets)
  {
  }

  /** Settings for running a capsule or a pipeline. */
  class RunCapsuleConfig {
    var capsuleId: Option<string>
    var pipelineId: Option<string>
    var dataAssets: Option<seq<Object>>
    var runParameters: Option<seq<Value>>
    var pauseInterval: Option<int>
    var capsuleVersion: Option<int>
    var timeoutSeconds: Option<int>

    /** Every field defaults to None except the pause interval, which defaults to 300 seconds; the validator has not run. */
    constructor (capsuleId: Arg<Option<string>>, pipelineId: Arg<Option<string>>,
                 dataAssets: Arg<Option<seq<Object>>>, runParameters: Arg<Option<seq<Value>>>,
                 pauseInterval: Arg<Option<int>>, capsuleVersion: Arg<Option<int>>, timeoutSeconds: Arg<Option<int>>)
      ensures this.capsuleId == capsuleId.Or(None) && this.pipelineId == pipelineId.Or(None)
      ensures this.dataAssets == dataAssets.Or(None) && this.runParameters == runParameters.Or(None)
      ensures this.pauseInterval == pauseInterval.Or(Some(300))
      ensures this.capsuleVersion == capsuleVersion.Or(None) && this.timeoutSeconds == timeoutSeconds.Or(None)
    {
      this.capsuleId := capsuleId.Or(None);
      this.pipelineId := pipelineId.Or(None);
      this.dataAssets := dataAssets.Or(None);
      this.runParameters := runParameters.Or(None);
      this.pauseInterval := pauseInterval.Or(Some(300));
      this.capsuleVersion := capsuleVersion.Or(None);
      this.timeoutSeconds := timeoutSeconds.Or(None);
    }

    /**
     * `check_data_assets`: fails exactly when some entry lacks "id" or
     * "mount"; otherwise `data_assets` holds the validated list. No other
     * field is constrained or touched.
     */
    method CheckDataAssets() returns (raised: Option<Error>)
      modifies this
      ensures var v := ValidatedDataAssets(old(dataAssets));
        && (raised.None? <==> v.Ok?)
        && (v.Ok? ==> dataAssets == Some(v.value))
        && (v.Err? ==> raised == Some(v.error) && dataAssets == old(dataAssets))
      ensures capsuleId == old(capsuleId) && pipelineId == old(pipelineId) && runParameters == old(runParameters)
      ensures pauseInterval == old(pauseInterval) && capsuleVersion == old(capsuleVersion)
      ensures timeoutSeconds == old(timeoutSeconds)
    {
      raised := None;
      if dataAssets.Some? {
        if !EntriesHaveIdAndMount(dataAssets.value) {
          raised := Some(AssertionError(DataAssetsMessage));
        }
      } else {
        dataAssets := Some([]);
      }
    }

    /**
     * Constructing the model: the declared defaults, then `check_data_assets`.
     * It fails exactly when some given entry lacks "id" or "mount"; otherwise
     * the new config holds the validated list and the other values as given
     * or defaulted.
     */
    static method Create(capsuleId: Arg<Option<string>>, pipelineId: Arg<Option<string>>,
                         dataAssets: Arg<Option<seq<Object>>>, runParameters: Arg<Option<seq<Value>>>,
                         pauseInterval: Arg<Option<int>>, capsuleVersion: Arg<Option<int>>,
                         timeoutSeconds: Arg<Option<int>>)
      returns (r: Result<RunCapsuleConfig, Error>)
      ensures var v := ValidatedDataAssets(dataAssets.Or(None));
        && (r.Ok? <==> v.Ok?)
        && (r.Err? ==> r.error == v.error)
        && (r.Ok? ==> fresh(r.value) && r.value.dataAssets == Some(v.value))
      ensures r.Ok? ==>
        && r.value.capsuleId == capsuleId.Or(None) && r.value.pipelineId == pipelineId.Or(None)
        && r.value.runParameters == runParameters.Or(None) && r.value.pauseInterval == pauseInterval.Or(Some(300))
        && r.value.capsuleVersion == capsuleVersion.Or(None) && r.value.timeoutSeconds == timeoutSeconds.Or(None)
    {
      var config := new RunCapsuleConfig(capsuleId, pipelineId, dataAssets, runParameters, pauseInterval,
                                         capsuleVersion, timeoutSeconds);
      var raised := config.CheckDataAssets();
      if raised.Some? {
        return Err(raised.value);
      }
      r := Ok(config);
    }
  }

  const CaptureNamingMessage: string := "Either asset_name or process_name must be provided"

  /** Settings for capturing results. */
  class CaptureResultConfig {
    var processName: Option<string>
    var mount: Option<string>
    var assetName: Option<string>
    var tags: Option<seq<string>>
    var customMetadata: Option<Object>
    var viewableToEveryone: bool

    /** Every field defaults to None, except that the results are not shared with everyone by default; the validator has not run. */
    constructor (processName: Arg<Option<string>>, mount: Arg<Option<string>>, assetName: Arg<Option<string>>,
                 tags: Arg<Option<seq<string>>>, customMetadata: Arg<Option<Object>>, viewableToEveryone: Arg<bool>)
      ensures this.processName == processName.Or(None) && this.mount == mount.Or(None)
      ensures this.assetName == assetName.Or(None)
      ensures this.tags == tags.Or(None) && this.customMetadata == customMetadata.Or(None)
      ensures this.viewableToEveryone == viewableToEveryone.Or(false)
    {
      this.processName := processName.Or(None);
      this.mount := mount.Or(None);
      this.assetName := assetName.Or(None);
      this.tags := tags.Or(None);
      this.customMetadata := customMetadata.Or(None);
      this.viewableToEveryone := viewableToEveryone.Or(false);
    }

    /** Some name can be built, and neither the tags nor the custom metadata are None. */
    predicate Normalized()
      reads this
    {
      (assetName.Some? || processName.Some?) && tags.Some? && customMetadata.Some?
    }

    /**
     * `check_asset_and_metadata`: fails, before touching anything, exactly
     * when both the asset name and the process name are None; otherwise None
     * tags become [] and None metadata {}, and a validated config is left as
     * it is.
     */
    method CheckAssetAndMetadata() returns (raised: Option<Error>)
      modifies this
      ensures raised.Some? <==> old(assetName).None? && old(processName).None?
      ensures raised.Some? ==> raised == Some(AssertionError(CaptureNamingMessage))
      ensures raised.Some? ==> tags == old(tags) && customMetadata == old(customMetadata)
      ensures raised.None? ==> Normalized()
      ensures raised.None? ==>
        tags == Some(old(tags).GetOr([])) && customMetadata == Some(old(customMetadata).GetOr(map[]))
      ensures old(Normalized()) ==> raised.None? && tags == old(tags) && customMetadata == old(customMetadata)
      ensures processName == old(processName) && mount == old(mount) && assetName == old(assetName)
      ensures viewableToEveryone == old(viewableToEveryone)
    {
      if assetName.None? && processName.None? {
        return Some(AssertionError(CaptureNamingMessage));
      }
      if tags.None? {
        tags := Some([]);
      }
      if customMetadata.None? {
        customMetadata := Some(map[]);
      }
      raised := None;
    }

    /**
     * Constructing the model: the declared defaults, then
     * `check_asset_and_metadata`. It fails exactly when neither an asset name
     * nor a process name is given; otherwise the new config is normalised and
     * holds the other values as given or defaulted.
     */
    static method Create(processName: Arg<Option<string>>, mount: Arg<Option<string>>, assetName: Arg<Option<string>>,
                         tags: Arg<Option<seq<string>>>, customMetadata: Arg<Option<Object>>, viewableToEveryone: Arg<bool>)
      returns (r: Result<CaptureResultConfig, Error>)
      ensures r.Err? <==> assetName.Or(None).None? && processName.Or(None).None?
      ensures r.Err? ==> r.error == AssertionError(CaptureNamingMessage)
      ensures r.Ok? ==> fresh(r.value) && r.value.Normalized()
      ensures r.Ok? ==>
        && r.value.processName == processName.Or(None) && r.value.mount == mount.Or(None)
        && r.value.assetName == assetName.Or(None) && r.value.viewableToEveryone == viewableToEveryone.Or(false)
        && r.value.tags == Some(tags.Or(None).GetOr([]))
        && r.value.customMetadata == Some(customMetadata.Or(None).GetOr(map[]))
    {
      var config := new CaptureResultConfig(processName, mount, assetName, tags, customMetadata, viewableToEveryone);
      var raised := config.CheckAssetAndMetadata();
      if raised.Some? {
        return Err(raised.value);
      }
      r := Ok(config);
    }
  }

  /** Settings for a whole job: the run settings are required, the other two stages are off by default. */
  class CodeOceanJobConfig {
    const registerConfig: RegisterDataConfig?
    const runCapsuleConfig: RunCapsuleConfig
    const captureResultConfig: CaptureResultConfig?

    constructor (runCapsuleConfig: RunCapsuleConfig, registerConfig: Arg<RegisterDataConfig?>,
                 captureResultConfig: Arg<CaptureResultConfig?>)
      ensures this.runCapsuleConfig == runCapsuleConfig
      ensures this.registerConfig == registerConfig.Or(null)
      ensures this.captureResultConfig == captureResultConfig.Or(null)
    {
      this.runCapsuleConfig := runCapsuleConfig;
      this.registerConfig := registerConfig.Or(null);
      this.captureResultConfig := captureResultConfig.Or(null);
    }
  }
}
