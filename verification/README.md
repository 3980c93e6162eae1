# aind-codeocean-utils in Dafny

A model of the decision logic of `aind_codeocean_utils`, the helpers the Allen
Institute for Neural Dynamics uses around the Code Ocean REST client. It covers:

- `CodeOceanJob`. This runs a three-stage job: register a data asset, run a
  capsule or pipeline on it and poll the computation, then capture the results
  as a new data asset tagged with its data level.
- `add_data_level_metadata` and `build_processed_data_asset_name`.
- `APIHandler`. This does bulk tag rewriting, selects archived assets for
  deletion and finds external assets whose S3 folder is gone.
- `DataManager`, with its lazily made S3 client, and
  `ArchiveDeleteJob.delete_data_assets`.
- The pydantic configuration models and their validators.
- The app-panel command line: `parse_bool`, and the rules by which
  `create_parser` turns parameter records into argparse arguments.

Everything remote is an oracle fixed in advance:

- The Code Ocean client is the `JobRequests.Client` datatype of total
  functions.
- A boto3 S3 client is its `list_objects` function.
- What the k-th status check of a computation answers is
  `getComputation(id, k)`.
- The search results the handlers iterate over arrive as parameters.

Each remote call the job makes is recorded in its `calls` field, and each
`time.sleep` in the ghost field `sleeps`.

Python behaviour is written out in module `Py`:

- JSON values.
- `d.get` (a missing key reads None) and `d[k]` (a missing key raises
  KeyError).
- Truthiness. `0 == False`. f-string formatting of None.
- Exceptions are values of `Py.Error`. An operation that can raise returns a
  `Result`.
- A generator returns `Yielded(items, raised)`: what it yielded before the
  exception that ended it, if any.

Modules, one per file:

- `Wrappers`: Option and Result.
- `Py`: the Python behaviour above.
- `DataLevels`: data-level tagging and processed-asset names.
- `AssetQueries`: the retention rule, the external-asset test, filters and
  tallies.
- `Storage`: the S3 folder check.
- `ApiHandlers`: `APIHandler`.
- `DataManagement`: `DataManager`.
- `ArchiveJobs`: `ArchiveDeleteJob`.
- `Configs`: the configuration models.
- `Cli`: the command line.
- `JobRequests`: the requests, the client, the request-building rules and the
  poll predicates.
- `CodeOceanJobs`: `CodeOceanJob` and its two settings classes.

## Model

| member | source | states |
|---|---|---|
| `DataLevels.Dedup` | src/aind_codeocean_utils/codeocean_job.py:58-64 | `list(set(tags))` has no duplicates and the same elements as `tags` |
| `DataLevels.Discard` | src/aind_codeocean_utils/codeocean_job.py:61-62 | `discard(x)` removes exactly `x`, keeps a list free of duplicates, and changes nothing when `x` is absent |
| `DataLevels.AddDataLevelMetadata` | src/aind_codeocean_utils/codeocean_job.py:51-71 | The tag list has no duplicates. Its tags are the level's tag plus the old tags, where None means none. Derived drops "raw". The metadata gains "data level" = the level and keeps every other key and value |
| `DataLevels.DedupOfDistinct` | src/aind_codeocean_utils/codeocean_job.py:58-64 | A tag list that is already free of duplicates comes back unchanged |
| `DataLevels.AddDataLevelMetadataIdempotent` | src/aind_codeocean_utils/codeocean_job.py:51-71 | Tagging the result again with the same level returns the identical tag list and metadata |
| `DataLevels.DataLevelTagsOnLevels` | src/aind_codeocean_utils/codeocean_job.py:58-62 | Derived tagging holds "derived" and never "raw". Raw tagging holds "raw", and holds "derived" exactly when the input did |
| `DataLevels.ProcessedNameParts` | src/aind_codeocean_utils/codeocean_job.py:43-48 | The built name reads back as the input name, "_", the process name as Python formats it (None gives "None"), "_", the capture time |
| `Storage.RStripSlashes` | src/aind_codeocean_utils/api_handler.py:238 | The result is a prefix of the input that does not end in "/", and what it cuts off is only slashes |
| `Storage.RStripSlashesUnique` | src/aind_codeocean_utils/api_handler.py:238 | Any prefix with those three properties is the stripped string, so `rstrip("/")` is characterised exactly |
| `Storage.PrefixExists` | src/aind_codeocean_utils/api_handler.py:238-242 | The listing request is the stripped prefix, "/" as delimiter and one key. The answer is true iff the listing holds "CommonPrefixes". A listing error passes through |
| `AssetQueries.SubsequenceMembers` | src/aind_codeocean_utils/api_handler.py:189-192 | What a filter keeps was in its input |
| `AssetQueries.FilterYieldSubsequence` | src/aind_codeocean_utils/api_handler.py:189-192 | A yielding filter yields a subsequence of its input, in input order, and every yielded asset passed the test |
| `AssetQueries.FilterYieldComplete` | src/aind_codeocean_utils/api_handler.py:189-192 | The filter runs to its end iff the test raises on no asset. It then yields precisely the assets that pass |
| `AssetQueries.FilterYieldFirstRaise` | src/aind_codeocean_utils/api_handler.py:189-192 | When the test raises, the filter stops at the first asset it raises on. It has yielded exactly what passed before that asset and ends with that asset's exception |
| `AssetQueries.FilterYieldCounts` | src/aind_codeocean_utils/api_handler.py:189-192 | Without a raise, the filter yields each passing asset as many times as the input holds it, and no other asset |
| `AssetQueries.FilterYieldRaisePrefix` | src/aind_codeocean_utils/api_handler.py:189-192 | After a raise, the filter has yielded exactly the assets before the raising one that pass the test |
| `AssetQueries.Deletable` | src/aind_codeocean_utils/api_handler.py:134-144 | The rule answers, without raising, exactly when "created" and "last_used" are present and numeric (a `last_used` of 0 counts). An asset is then deletable iff it was created before the cut-off and was never used or last used before it. A missing "created" or "last_used" raises KeyError, in that order |
| `AssetQueries.NeverUsedDeletable` | src/aind_codeocean_utils/archive_job.py:19-23 | An asset whose last_used is 0 is deletable exactly when it was created before the cut-off |
| `AssetQueries.SourceBucketName` | src/aind_codeocean_utils/api_handler.py:190 | No "sourceBucket" reads as None. A dict gives its "bucket", or None when that is missing. Anything else raises |
| `AssetQueries.CountExternal` | src/aind_codeocean_utils/api_handler.py:154-157 | There are no more external assets than assets. The count is 0 iff no asset has "sourceBucket", and equals the number of assets iff every asset has it |
| `AssetQueries.TallyAccountsForAll` | src/aind_codeocean_utils/api_handler.py:147-161 | After a tally, internal + external counts = assets tallied, and external count = assets with a "sourceBucket" key. Internal + external sizes = total size, with a missing size counting 0. Every tallied asset has "name" and "type" |
| `AssetQueries.SelectDeletable` | src/aind_codeocean_utils/api_handler.py:131-145 | The selection loop returns what the retention filter yields, or the first raise |
| `AssetQueries.TallyBySource` | src/aind_codeocean_utils/api_handler.py:147-161 | The counting loop computes the tally of the selected assets, or the first raise |
| `ApiHandlers.RetagKeepsAndAdds` | src/aind_codeocean_utils/api_handler.py:81-88 | Every added tag, and every old tag not removed, is present under its new name, so a tag both removed and added ends up present. Without renames the result is exactly (old − remove) ∪ add |
| `ApiHandlers.RetagIdempotent` | src/aind_codeocean_utils/api_handler.py:86-87 | Without renames, rewriting the rewritten tags changes nothing |
| `ApiHandlers.TagSet` | src/aind_codeocean_utils/api_handler.py:81-85 | None "tags" give the empty set. A list of hashable values gives its element set. A number is not iterable and raises |
| `ApiHandlers.PlannedUpdatesPerAsset` | src/aind_codeocean_utils/api_handler.py:79-106 | There is at most one update per asset, the i-th made from the i-th asset with that asset's own id and name. Every asset gets one when nothing raises. Otherwise the raising asset is the one right after the updated ones |
| `ApiHandlers.NewTagsIdempotent` | src/aind_codeocean_utils/api_handler.py:74-88 | Without renames, an asset's rewritten tags are a fixed point of a second rewrite with the same arguments |
| `ApiHandlers.APIHandler.constructor` | src/aind_codeocean_utils/api_handler.py:14-34 | Keeps the S3 client and the dry-run flag. No update has been sent |
| `ApiHandlers.APIHandler.UpdateTags` | src/aind_codeocean_utils/api_handler.py:36-107 | The updates sent are the planned per-asset updates, in order, up to the first asset that raises. In dry-run mode nothing is sent |
| `ApiHandlers.APIHandler.FindArchivedDataAssetsToDelete` | src/aind_codeocean_utils/api_handler.py:109-173 | The result is, in input order, exactly the deletable archived assets. The logged counts add up to the number selected and equal the tally of the selection. A raise from the selection or the tally escapes |
| `ApiHandlers.APIHandler.FindExternalDataAssets` | src/aind_codeocean_utils/api_handler.py:175-192 | The result is, in search order, exactly the assets whose source bucket name is truthy, each as often as the input holds it. It raises iff some asset has a non-dict "sourceBucket"; then it ends with AttributeError at the first such asset, after yielding exactly the external assets before it |
| `ApiHandlers.APIHandler.BucketPrefixExists` | src/aind_codeocean_utils/api_handler.py:221-242 | A non-string prefix or a missing S3 client raises AttributeError. Otherwise the answer is true iff the listing of the stripped prefix holds "CommonPrefixes" |
| `ApiHandlers.APIHandler.FindNonexistentExternalDataAssets` | src/aind_codeocean_utils/api_handler.py:194-219 | The result is, in order, exactly the external assets whose check answered false, each as often as the search yields it. An asset whose check raised is dropped. A raise from the external search passes through |
| `DataManagement.DataManager.constructor` | src/aind_codeocean_utils/data_management.py:14-16 | No S3 client has been made yet |
| `DataManagement.DataManager.S3` | src/aind_codeocean_utils/data_management.py:18-22 | The first use makes one client and caches it. Later uses return that same client and make none |
| `DataManagement.DataManager.FolderExists` | src/aind_codeocean_utils/data_management.py:89-96 | A non-string path raises AttributeError. Otherwise the answer is true iff the listing of the stripped path holds "CommonPrefixes", and a listing error passes through |
| `DataManagement.DataManager.BucketFolderExists` | src/aind_codeocean_utils/data_management.py:89-96 | Answers as `FolderExists`. The path is stripped before the client is touched, so a bad path makes no client; otherwise at most one client exists |
| `DataManagement.DataManager.FindArchivedDataAssetsToDelete` | src/aind_codeocean_utils/data_management.py:24-62 | The result is, in input order, exactly the deletable assets. The internal and external sizes add up to the total size of the selection |
| `DataManagement.DataManager.FindExternalAssets` | src/aind_codeocean_utils/data_management.py:64-73 | The result is, in order, exactly the assets whose source bucket name is truthy, each as often as the input holds it. It raises iff some asset has a non-dict "sourceBucket"; then it raises AttributeError at the first such asset, after yielding exactly the external assets before it |
| `DataManagement.DataManager.MissingFoldersSelection` | src/aind_codeocean_utils/data_management.py:75-87 | The intended generator yields a subsequence of the external assets, each with a missing folder. When nothing raises it yields each of them, as often as the search does. It runs to its end iff the search does and no check of an external asset raises anything but a ClientError, so a ClientError never escapes and any other error does |
| `DataManagement.DataManager.NonexistentAsWrittenMissesFolder` | src/aind_codeocean_utils/data_management.py:75-78 | For one external asset whose folder is missing, the intended generator yields it. The code as written yields nothing and raises NameError |
| `DataManagement.DataManager.MissingFoldersCounts` | src/aind_codeocean_utils/data_management.py:75-87 | Without a raise, the intended generator yields each external asset with a missing folder as often as the search does, and nothing else |
| `DataManagement.DataManager.MissingFoldersRaise` | src/aind_codeocean_utils/data_management.py:75-87 | The intended generator runs to its end iff the external search does and no check of an external asset raises anything but a ClientError |
| `DataManagement.DataManager.FindNonexistentExternalDataAssets` | src/aind_codeocean_utils/data_management.py:75-96 | The loop with `self.` restored yields exactly the intended selection and keeps the one-client invariant |
| `ArchiveJobs.DeleteDataAssets` | src/aind_codeocean_utils/archive_job.py:13-24 | Yields a subsequence of the archived assets, in input order. An asset is yielded iff the retention rule passes it, as often as the input holds it. Run to its end, it yields what `find_archived_data_assets_to_delete` selects. Otherwise it stops at the first raising asset, after yielding exactly the deletable assets before it |
| `ArchiveJobs.DeleteDataAssetsIgnoresDryRun` | src/aind_codeocean_utils/archive_job.py:13-24 | The dry-run flag changes nothing |
| `Configs.RegisterDataConfig.constructor` | src/aind_codeocean_utils/models/config.py:12-48 | Name, mount, bucket and prefix are as given. The defaults are private, kept on external storage and not shared. The validator then runs: tags and metadata are never None, None becoming [] and {} |
| `Configs.RegisterDataConfig.CheckTagsAndCustomMetadata` | src/aind_codeocean_utils/models/config.py:41-48 | Afterwards neither field is None. None becomes [] or {}, given values are kept and so are all other fields. A validated config is left unchanged |
| `Configs.ValidatedDataAssets` | src/aind_codeocean_utils/models/config.py:88-105 | None becomes []. A list is accepted unchanged iff every entry has "id" and "mount"; otherwise AssertionError |
| `Configs.ValidatedDataAssetsIdempotent` | src/aind_codeocean_utils/models/config.py:88-105 | Validating the validated list accepts it unchanged |
| `Configs.RunCapsuleConfig.constructor` | src/aind_codeocean_utils/models/config.py:56-86 | The declared defaults before the validator: every field defaults to None except the pause interval, which defaults to 300 |
| `Configs.RunCapsuleConfig.CheckDataAssets` | src/aind_codeocean_utils/models/config.py:88-105 | Fails exactly when the validation rejects the list. Otherwise `data_assets` becomes the validated list. No other field changes |
| `Configs.RunCapsuleConfig.Create` | src/aind_codeocean_utils/models/config.py:51-105 | Constructing the model fails iff some given entry lacks "id" or "mount", with the validator's AssertionError. Otherwise the new config holds the validated list (None becomes []) and the other values as given or defaulted |
| `Configs.CaptureResultConfig.constructor` | src/aind_codeocean_utils/models/config.py:113-132 | The declared defaults before the validator: every field defaults to None, and results are not shared by default |
| `Configs.CaptureResultConfig.CheckAssetAndMetadata` | src/aind_codeocean_utils/models/config.py:134-145 | Fails before changing anything iff both names are None. Otherwise None tags and metadata become [] and {}. A validated config validates unchanged |
| `Configs.CaptureResultConfig.Create` | src/aind_codeocean_utils/models/config.py:108-145 | Constructing the model fails iff neither an asset name nor a process name is given. Otherwise the new config is normalised: tags and metadata are never None, and the other values are as given or defaulted |
| `Configs.CodeOceanJobConfig.constructor` | src/aind_codeocean_utils/models/config.py:148-161 | The run settings are required. Registration and capture settings default to None |
| `Cli.Lower` | src/aind_codeocean_utils/cli.py:13-15 | ASCII lowering: it keeps the length and leaves no ASCII upper-case letter. Each of A–Z becomes the lower-case letter at the same place in the alphabet, and every other character is kept. A string without A–Z is returned unchanged |
| `Cli.ParseBool` | src/aind_codeocean_utils/cli.py:10-18 | A bool comes back unchanged. A string is true iff its lower form is a true word and false iff it is a false word; any other string raises ArgumentTypeError. Other values raise AttributeError |
| `Cli.WordSetsDisjoint` | src/aind_codeocean_utils/cli.py:13-16 | No word is both true and false |
| `Cli.LowerIdempotent` | src/aind_codeocean_utils/cli.py:13-15 | Lowering twice is lowering once |
| `Cli.ParseBoolIgnoresCase` | src/aind_codeocean_utils/cli.py:13-16 | A string parses as its lower-case form does |
| `Cli.ConverterFor` | src/aind_codeocean_utils/cli.py:86-100 | "boolean" and only "boolean" selects `parse_bool`. Unknown names and non-strings select `str`. A list or dict type raises TypeError |
| `Cli.ConvertDefault` | src/aind_codeocean_utils/cli.py:105-106 | A boolean default is parsed by `parse_bool` and fails exactly when it does. `str` of a string and `int` of an integer are the identity |
| `Cli.FlagFor` | src/aind_codeocean_utils/cli.py:117 | A string parameter name gives the flag "--" + the name |
| `Cli.ArgumentFor` | src/aind_codeocean_utils/cli.py:95-118 | The converter comes from value_type, else type. A default forces `required` to False and is converted; otherwise `required` defaults to False. Boolean lists get choices [True, False], other lists their extra_data or none without it, non-lists none. The flag is "--" + param_name. Non-dict records and a list without value_type raise |
| `Cli.ArgumentsPerRecord` | src/aind_codeocean_utils/cli.py:95-118 | There is one argument per record, the i-th made from the i-th. On failure, the first record that raises decides the error |
| `Cli.ParserSpec` | src/aind_codeocean_utils/cli.py:74-120 | Falsy named_parameters, or a version other than 1, is rejected with NotImplementedError before any argument is added. An accepted config gives one argument per record |
| `Cli.CreateParser` | src/aind_codeocean_utils/cli.py:30-120 | The checks and the argument loop produce exactly the arguments of `ParserSpec` |
| `JobRequests.Tagged` | src/aind_codeocean_utils/codeocean_job.py:179-186 | With tagging on, the request's tags hold its level (derived drops "raw") and its metadata records the level. Name, mount and source are unchanged. With tagging off, the request is unchanged |
| `JobRequests.PreparedRequest` | src/aind_codeocean_utils/codeocean_job.py:207-224 | None inputs become []. A truthy registration appends exactly one input at the end: its id, mounted at the input mount if given, else at the registration's mount. Earlier inputs and all other fields stay. No "id" raises KeyError; no mount source raises AttributeError |
| `JobRequests.CaptureRequest` | src/aind_codeocean_utils/codeocean_job.py:272-309 | The base name is the input name, else the registration's name, else ValueError. A new request is named `<base>_<process>_<time>` and mounted under that name. The source is the computation. With tagging, "derived" is in and "raw" is out |
| `JobRequests.PollBound` | src/aind_codeocean_utils/codeocean_job.py:245-264 | With a timeout T and an interval I > 0, polling always ends, within max(1, ⌈T/I⌉) checks, whatever the computation answers |
| `JobRequests.PollAsWrittenRaisesWhileRunning` | src/aind_codeocean_utils/codeocean_job.py:256-263 | A computation running at the first check and completed at the second makes the loop as written raise AttributeError. The intended loop stops cleanly at the second check |
| `CodeOceanJobs.ProcessConfig.constructor` | src/aind_codeocean_utils/codeocean_job.py:74-82 | The input mount and the timeout default to None |
| `CodeOceanJobs.CaptureResultConfig.constructor` | src/aind_codeocean_utils/codeocean_job.py:85-100 | No request and no input name by default. The process name defaults to "processed" |
| `CodeOceanJobs.CodeOceanJob.constructor` | src/aind_codeocean_utils/codeocean_job.py:108-144 | Stages are unconfigured by default. Assets are viewable to everyone and tagged by level by default. No call has been made |
| `CodeOceanJobs.CodeOceanJob.RegisterData` | src/aind_codeocean_utils/codeocean_job.py:175-199 | The configured request gains the raw level when tagging is on, even if the call then fails. An S3 source not kept on external storage fails before any call. Otherwise exactly one create call is sent with that request |
| `CodeOceanJobs.CodeOceanJob.WaitForComputation` | src/aind_codeocean_utils/codeocean_job.py:245-264 | One sleep, then one status check, per round, up to the first check that is completed, has no state (KeyError) or reaches the timeout. A negative interval raises ValueError before anything |
| `CodeOceanJobs.CodeOceanJob.PrepareRunRequest` | src/aind_codeocean_utils/codeocean_job.py:207-224 | The run request becomes `PreparedRequest`; after a failure it keeps its new input list |
| `CodeOceanJobs.CodeOceanJob.SubmitRun` | src/aind_codeocean_utils/codeocean_job.py:226-265 | The input check comes before the run. A run answer without an id fails with its status and body and nothing is polled. Polling happens iff the interval is set and non-zero. The answer is the submission response |
| `CodeOceanJobs.CodeOceanJob.ProcessData` | src/aind_codeocean_utils/codeocean_job.py:201-265 | The process settings keep the prepared request, or after a preparation failure the old one with its input list made (`ProcessedRequest`). A preparation failure ends it with that error and no remote call. Otherwise the prepared request is checked, submitted and polled as `SubmitRun` states (`ProcessRecord`) |
| `CodeOceanJobs.CodeOceanJob.CaptureResult` | src/aind_codeocean_utils/codeocean_job.py:267-318 | A response without "id" raises KeyError before anything. Otherwise `CaptureRequest` is sent in exactly one create call, and a configured request is updated in place to it (`CapturedRequest`) |
| `CodeOceanJobs.CodeOceanJob.RegisterStage` | src/aind_codeocean_utils/codeocean_job.py:158-161 | Without a registration request nothing happens. Otherwise the outcome is `register_data`'s on that request, the stored request becomes the tagged one, and the only call is its single creation request. Nothing sleeps |
| `CodeOceanJobs.CodeOceanJob.ProcessAndCapture` | src/aind_codeocean_utils/codeocean_job.py:163-171 | Processing runs iff configured, fed the registration's response (`ProcessRecord`). Capture runs iff configured and processing did not fail, fed the run response (`CaptureRecord`). The calls are process's, then capture's. The process settings keep `ProcessedRequest`; the capture settings keep `CapturedRequest` when capture ran and are untouched otherwise |
| `CodeOceanJobs.CodeOceanJob.RunJob` | src/aind_codeocean_utils/codeocean_job.py:146-173 | A capture config without a process config fails before any stage. The calls are register's, then process's, then capture's, each stage only when configured. Processing is prepared from the registration's response and the tagged registration request. Capture is built from the run response's id. The first failing stage ends the job with its error, and later stages make no call. Otherwise skipped stages give None, and the process result is the run submission response. The stored process request is the prepared one (its registered input appended) unless registration failed, and a configured capture request becomes the one sent, or is untouched when capture did not run |

## Left out

- Remote calls are oracles:
  - the Code Ocean client's HTTP calls;
  - boto3's `list_objects`;
  - `create_data_asset_and_update_permissions` and `check_data_assets`. These are called by `codeocean_job.py` but not defined in `api_handler.py`. They are modelled only as "answers a response or fails".
- The searches (`search_all_data_assets(...).json()["results"]`) are not modelled. Their results are parameters. So is the KeyError of a response without "results".
- Network failures of `run_capsule` and `get_computation` are not modelled. Neither are response bodies that are not JSON objects.
- Time:
  - `time.sleep` is a ghost log;
  - `datetime.now()` and `datetime_to_name_string` are a capture-time string parameter;
  - `datetime.fromtimestamp` comparisons are integer epoch-second comparisons. Its range errors and float timestamps are not modelled.
- Floating point is not modelled. The GB figures exist only in log messages.
- Logging is not modelled. This includes `data_management.py:58` counting all archived assets in its message, and the response of each tag update.
- `list(set(...))` has no defined order in Python. The model lists first occurrences in order. The contracts of `DataLevels.Dedup` and `DataLevels.AddDataLevelMetadata` speak only of elements and duplicates, but `DataLevels.DedupOfDistinct` and `DataLevels.AddDataLevelMetadataIdempotent` state equal lists, which holds for the model's order and, in Python, only up to order. `update_data_asset`'s new tags are a set.
- Aliasing of request objects is modelled only through the job's own fields. A request shared with other code would see the same in-place updates.
- `Configs.RunCapsuleConfig.constructor`: assigns the declared defaults only. Constructing the model, which also runs `check_data_assets`, is `Configs.RunCapsuleConfig.Create`.
- `Configs.CaptureResultConfig.constructor`: assigns the declared defaults only. Constructing the model, which also runs `check_asset_and_metadata`, is `Configs.CaptureResultConfig.Create`.
- `CodeOceanJobs.ProcessConfig.constructor`: the poll interval must be given. Its declared default is the tuple `(300,)`, which cannot be an integer.
- `Cli.Lower`: lowers ASCII A–Z only. Python's `str.lower()` also lowers every other cased letter ('É' to 'é'), and 'İ' becomes two characters, so the length is not always kept. `Cli.ParseBool` still decides exactly. The words it accepts hold only a, e, f, l, n, o, r, s, t, u, y, 0 and 1, and no other character lowers into one of those; 'İ' lowers to 'i' and a combining dot, which is in no word.
- `CodeOceanJobs.CodeOceanJob.ProcessData`: requires that, when polling is on (a set, non-zero interval), the poll of the one computation its run starts ends. With no timeout and a computation that never completes, the corrected loop polls forever; the code as written instead raises AttributeError at the first check that is not completed (see Findings). `JobRequests.PollBound` shows the poll always ends with a timeout and a positive interval.
- `CodeOceanJobs.CodeOceanJob.RunJob`: requires the same of the run it submits, prepared from the registration's response (`CodeOceanJobs.CodeOceanJob.PollingEnds`).
- `CodeOceanJobs.CodeOceanJob.WaitForComputation`: reads the interval and timeout from the process settings instead of the job attributes that do not exist (see Findings).
- `ApiHandlers.APIHandler.UpdateTags`: the data assets are a list rather than any iterator. The update responses are not modelled.
- `ArchiveJobs.DeleteDataAssets`: `dry_run` is accepted and ignored, as in the source. The method sends no delete call. The `__main__` block calls a method that does not exist and is not part of this model.
- Help text is not modelled. Neither is reading the JSON file: its FileNotFoundError and JSONDecodeError are left out.
- argparse itself is not modelled: duplicate flags, and parsing the command line.
- `call_function_with_cli_args` is not modelled. It reads the process arguments and calls an arbitrary function.
- `Cli.ConvertDefault`: `float`, `parse_path` (a filesystem check), and `int` or `str` of other values are kept symbolic. So are their errors.
- `Cli.FlagFor`: the `str()` of a list or dict parameter name is not rendered.
- `codeocean_job_v2.py` and `metadata.py` are not part of this model.

## Findings

| source | as written | input that shows it | evidently intended | confidence | as-written member | corrected member |
|---|---|---|---|---|---|---|
| src/aind_codeocean_utils/codeocean_job.py:256-263 | The stopping test reads `self.process_timeout_seconds` and `self.process_poll_interval_seconds`, which a `CodeOceanJob` never has | A computation still "running" at the first status check: evaluating the timeout test raises AttributeError | Use `process_config.timeout_seconds` and `process_config.poll_interval_seconds`, so polling continues until completed or timed out | high (by reading; not executed) | `JobRequests.PollAsWrittenRaisesWhileRunning` | `CodeOceanJobs.CodeOceanJob.WaitForComputation` |
| src/aind_codeocean_utils/data_management.py:78-82 | The generator calls `find_external_assets(client)` and `bucket_folder_exists(s3, …)` as bare names, which are not defined in the module | Any call, e.g. one external asset whose folder is missing: the first step raises NameError and nothing is yielded | Call `self.find_external_assets()` and `self.bucket_folder_exists(…)` | high (by reading; not executed) | `DataManagement.DataManager.NonexistentAsWrittenMissesFolder` | `DataManagement.DataManager.FindNonexistentExternalDataAssets` |
