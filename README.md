# katalyst-api plugin skeleton and scheduler-argument helpers in Dafny

This project models the behavioural core of katalyst-api, the API module of the
Katalyst resource-management system for Kubernetes. It covers these parts:

- **Plugin registration handshake** (`pkg/plugins/registration`). A host-side plugin
  watcher calls it on every plugin socket. It answers with the plugin's kind, name
  and supported versions, and it acknowledges registration-status notifications.
- **Plugin skeleton** (`pkg/plugins/skeleton`). `PluginRegistrationWrapper` wraps an
  eviction, reporter or QRM (resource) plugin. It starts the plugin and serves gRPC
  on one unix socket per registration directory, dial-checks each server and rolls
  everything back when a step fails. It retries start and stop forever, and asks
  itself for a restart when a server keeps crashing. The skeleton also has dummy
  plugins and a reporter-plugin stub used in tests.
- **Scheduler plugin arguments** (`pkg/apis/scheduling/config`). These are the
  validators of the QoS-aware fit, balanced-allocation and topology-match arguments,
  and the defaulting of the fit and balanced-allocation arguments.
- **Utilities**. These are the `level/effect` condition-effect format and the
  topology-policy mapping.
- **Struct-tag check** (`cmd/inlinecheck`). It walks the API types and reports
  every exported struct-typed field that has no JSON name and is not embedded.

Modelling choices:

- Pure Go code became datatypes, functions and lemmas.
- Objects whose fields the Go code updates became classes. These are the wrapper,
  the reporter stub, the defaulted argument objects and the inlinecheck walker.
- Loops became methods with loop invariants. Each method is proved equal to a pure
  specification function, and the properties are proved as lemmas about those
  functions.
- Outside effects are given as parameters. These are the file system, `net.Listen`,
  gRPC dial checks, the wrapped plugin's `Start`/`Stop` errors and the clock. An
  `Env` value answers each start or stop cycle; for the crash counter, a list of
  crash times stands in for the clock.
- The wrapper keeps a log of the calls it makes, so the order of effects can be
  stated.

Modules:

- `Wrappers`: Option and Result.
- `Registration`: `pluginregistration.go`.
- `Skeleton`: plugin capabilities and the dummy plugins.
- `ReporterStub`: `ReporterPluginStub`.
- `CrashLoop`: the crash counter of the serve goroutine.
- `WrapperSpec`: the pure cycle functions of `generic.go`.
- `WrapperProps`: the properties of those cycles.
- `Wrapper`: the `PluginRegistrationWrapper` class, its retry loops and its constructor.
- `Validation`, `Defaults`, `ConditionEffect`, `TopologyPolicy` and `InlineCheck`.

Behaviour of the code that a reader might not expect, all modelled as written:

- A crashing server first asks for a restart at its **seventh** crash in a row with
  no gap longer than an hour between successive crashes, not the sixth. The seven
  crashes may span up to six hours. The counter is tested (`> 5`) before it is
  updated.
- The serve goroutine does not leave its loop after calling `Restart`.
- A QRM plugin registers with kind `watcherapi.ResourcePlugin` under its
  `ResourceName()`, with the QRM API version. It does not register as
  `QoSResourcePlugin`.
- Socket paths are neither deduplicated nor checked for a usable directory. Two
  equal registration directories make every start fail.
- A second `Stop` panics, because it closes the stop and restart channels again.
- `ValidateNodeResourceTopologyMatchArgs` dereferences the scoring strategy without
  a nil check. The model returns `NilScoringStrategy` there.

## Model

| member | source | states |
|---|---|---|
| Registration.NewRegistrationHandler | pkg/plugins/registration/pluginregistration.go:47-53 | the handler keeps exactly the kind, name and versions it was built with |
| Registration.GetInfo | pkg/plugins/registration/pluginregistration.go:56-62 | GetInfo never fails and reports the handler's kind, name and supported versions |
| Registration.NotifyRegistrationStatus | pkg/plugins/registration/pluginregistration.go:65-72 | it always acknowledges with an empty response and no error, whatever the status says |
| Registration.KindsDistinct | pkg/plugins/registration/pluginregistration.go:28-34 | the three plugin-kind strings are pairwise distinct |
| Registration.GetInfoRoundTrip | pkg/plugins/registration/pluginregistration.go:47-62 | GetInfo of a freshly built handler returns exactly its construction arguments |
| Skeleton.DummyPlugin.Name | pkg/plugins/skeleton/eviction.go:40 | defines the fixed name of each dummy: "fake-eviction-plugin" here, "fake-reporter-plugin" at reporter.go:43 and "fake-qrm-plugin" at qrm.go:41 |
| Skeleton.DummyPlugin.Start | pkg/plugins/skeleton/eviction.go:43 | defines Start of every dummy as returning nil, as reporter.go:46 and qrm.go:44 do too |
| Skeleton.DummyPlugin.Stop | pkg/plugins/skeleton/eviction.go:46 | defines Stop of every dummy as returning nil, as reporter.go:49 and qrm.go:47 do too |
| Skeleton.DummyPlugin.ResourceName | pkg/plugins/skeleton/eviction.go:48-49 | defines ResourceName: "" for the eviction dummy, "test_resource" for the QRM dummy (qrm.go:50), and no such method for the reporter dummy |
| Skeleton.DummyPlugin.Services | pkg/plugins/skeleton/eviction.go:34-37 | defines the one gRPC service each dummy embeds: the eviction, reporter (reporter.go:37-40) or resource (qrm.go:36-38) plugin server |
| Skeleton.DummyPlugin.AsPlugin | pkg/plugins/skeleton/eviction.go:28-49 | each dummy has exactly one capability; its name and ResourceName are the dummy's own |
| Skeleton.DummyNames | pkg/plugins/skeleton/qrm.go:41-50 | the dummies' names are distinct; the QRM dummy's resource name is "test_resource", which differs from its name |
| Skeleton.DummyLifecycleNeverFails | pkg/plugins/skeleton/reporter.go:43-49 | Start and Stop of every dummy return nil |
| ReporterStub.StopChannel.Close | pkg/plugins/skeleton/reporter.go:146 | closing the stop channel requires it to be open and leaves it closed |
| ReporterStub.ReporterPluginStub.constructor | pkg/plugins/skeleton/reporter.go:71-78 | a new stub is not started, has no stop channel and keeps the given content and name |
| ReporterStub.ReporterPluginStub.GetReportContent | pkg/plugins/skeleton/reporter.go:86-90 | the reply is the content given at construction, with no error |
| ReporterStub.ReporterPluginStub.Name | pkg/plugins/skeleton/reporter.go:81-83 | defines the stub's name as the one given at construction |
| ReporterStub.ReporterPluginStub.AsPlugin | pkg/plugins/skeleton/reporter.go:55-68 | the stub is a reporter plugin and neither an eviction nor a QRM plugin |
| ReporterStub.ReporterPluginStub.Start | pkg/plugins/skeleton/reporter.go:121-134 | Start never fails and leaves the stub started; a fresh stop channel is made only when the stub was not already started |
| ReporterStub.ReporterPluginStub.Stop | pkg/plugins/skeleton/reporter.go:137-148 | Stop never fails and leaves the stub stopped; it closes the channel only when the stub was started, so a repeated Stop never closes it twice |
| ReporterStub.RunLifecycle | pkg/plugins/skeleton/reporter.go:121-148 | any sequence of Start and Stop calls stays valid and never closes a channel twice; the stub ends started exactly when the last call was Start |
| CrashLoop.CountAfter | pkg/plugins/skeleton/generic.go:344-350 | defines restartCount after a sequence of crash gaps: 1 after a gap of more than an hour, one more than before otherwise, starting from 0 |
| CrashLoop.Decisions | pkg/plugins/skeleton/generic.go:339-342 | defines, for every crash, whether Restart is called: exactly when the count before that crash exceeds 5 |
| CrashLoop.ServeLoop | pkg/plugins/skeleton/generic.go:326-352 | the serving loop's restart decisions and its final counter are Decisions and CountAfter of the gaps between crashes |
| CrashLoop.CountAtLeastIff | pkg/plugins/skeleton/generic.go:344-350 | the counter is at least k exactly when there were k crashes and the last k-1 each came within an hour of the crash before |
| CrashLoop.RestartIff | pkg/plugins/skeleton/generic.go:339-350 | crash i asks for Restart exactly when i >= 6 and each of the five crashes before it came within an hour of its predecessor |
| CrashLoop.FirstRestartOnSeventhCrash | pkg/plugins/skeleton/generic.go:339-350 | when crashes are never more than an hour apart, Restart is first requested at the seventh crash and at every crash after it |
| CrashLoop.QuietHourResets | pkg/plugins/skeleton/generic.go:344-348 | a crash more than an hour after the previous one keeps the next five crashes from asking for Restart |
| WrapperSpec.Resolve | pkg/plugins/skeleton/generic.go:89-118 | a nil plugin is rejected; the eviction, reporter and QRM cases are tried in that order with their kind, name and version; any other plugin is rejected with its name |
| WrapperSpec.JoinPath | pkg/plugins/skeleton/generic.go:136 | defines path.Join of a directory and a file name: one separator between them unless the directory is empty or already ends in one |
| WrapperSpec.SocketPath | pkg/plugins/skeleton/generic.go:136 | defines the socket of a directory as `<name>.sock` joined to it |
| WrapperSpec.SocketPaths | pkg/plugins/skeleton/generic.go:133-138 | there is one socket per registration directory, in order, each `<dir>/<name>.sock` |
| WrapperSpec.StopServers | pkg/plugins/skeleton/generic.go:270-274 | defines the stop loop: each listed server, in order, stops running and is logged (StopServersEffect states its effect) |
| WrapperSpec.RemoveSockets | pkg/plugins/skeleton/generic.go:294-298 | defines the removal loop: every socket is removed and logged in order; a socket that exists and cannot be removed ends the loop with its path (RemoveSocketsEffect, RemoveSocketsLog) |
| WrapperSpec.CleanupSpec | pkg/plugins/skeleton/generic.go:291-301 | defines cleanup: the server list is dropped without stopping its servers, then the removal loop runs |
| WrapperSpec.StopSpec | pkg/plugins/skeleton/generic.go:257-289 | defines stop: the servers are stopped, then cleanup runs; a cleanup error is returned without calling plugin.Stop, otherwise plugin.Stop decides the result (StopCycleState, StopCycleOutcome, StopCycleLog) |
| WrapperSpec.ListenAll | pkg/plugins/skeleton/generic.go:311-382 | defines the listen and dial loop: each socket is listened on (failing where listen fails or the file exists), gets a new server and is dial-checked; a failed dial stops that server; only dialled servers join the list (ListenAllOutcome, ListenAllServers, ListenAllLive) |
| WrapperSpec.ServeSpec | pkg/plugins/skeleton/generic.go:303-385 | defines serve: cleanup, whose error ends it, then an empty server list, then the listen and dial loop (ServeSucceedsIff) |
| WrapperSpec.StartBody | pkg/plugins/skeleton/generic.go:231-254 | defines the body of start: no sockets is an error; otherwise plugin.Stop with its error discarded, plugin.Start whose error ends it, then serve |
| WrapperSpec.StartSpec | pkg/plugins/skeleton/generic.go:221-255 | defines start: the body, and after any error the deferred stop, whose own error is discarded (StartIff, StartSuccess, StartFailureRollsBack) |
| WrapperProps.StopServersEffect | pkg/plugins/skeleton/generic.go:270-274 | stopping the server list stops exactly those servers, in order, and changes nothing else |
| WrapperProps.RemoveSocketsEffect | pkg/plugins/skeleton/generic.go:294-298 | the removal loop stops at the first existing socket that cannot be removed; every socket before it is removed and nothing else changes |
| WrapperProps.RemoveSocketsLog | pkg/plugins/skeleton/generic.go:294-298 | one removal is attempted per socket the loop reaches, the failing one included |
| WrapperProps.FirstServeFailure | pkg/plugins/skeleton/generic.go:311-382 | the index where the serve loop stops is the first failing listen or dial check, or the number of sockets when none fails |
| WrapperProps.NewServersAt | pkg/plugins/skeleton/generic.go:319 | the i-th new server serves the i-th socket and carries the i-th new serial number |
| WrapperProps.ListenAllOutcome | pkg/plugins/skeleton/generic.go:311-382 | the serve loop stops at the first failing listen or dial check and reports which one failed |
| WrapperProps.ListenAllServers | pkg/plugins/skeleton/generic.go:380 | the servers of the sockets before the first failure are appended in order and numbered consecutively |
| WrapperProps.ListenAllLive | pkg/plugins/skeleton/generic.go:319-380 | after the loop exactly the kept servers run, besides those that ran before; a server whose dial check failed is stopped again |
| WrapperProps.ListenAllFiles | pkg/plugins/skeleton/generic.go:314 | the socket file of every socket whose listen succeeded exists afterwards |
| WrapperProps.ListenAllLog | pkg/plugins/skeleton/generic.go:311-382 | a loop without failures does one listen and one dial check per socket, in order |
| WrapperProps.StopCycleState | pkg/plugins/skeleton/generic.go:257-292 | a stop cycle stops every server, empties the server list and removes socket files up to the first removal that fails |
| WrapperProps.StopCycleOutcome | pkg/plugins/skeleton/generic.go:276-284 | a failed removal is reported and the plugin is left as it was; otherwise the wrapped plugin's Stop decides the result |
| WrapperProps.StopCycleLog | pkg/plugins/skeleton/generic.go:268-284 | a stop cycle stops the servers, then removes the sockets, and calls plugin.Stop only if no removal failed |
| WrapperProps.ServeSucceedsIff | pkg/plugins/skeleton/generic.go:303-385 | with no socket file on disk, serve fails exactly on a listen or dial failure or on a repeated socket path |
| WrapperProps.StartIff | pkg/plugins/skeleton/generic.go:221-255 | start succeeds exactly when there are sockets, the plugin starts, no socket file is stuck, every listen and dial check succeeds and no socket path repeats |
| WrapperProps.StartSuccess | pkg/plugins/skeleton/generic.go:239-249 | after a successful start there is one new server per socket, running and listed in order, every socket file exists and the plugin is started |
| WrapperProps.StartSuccessLog | pkg/plugins/skeleton/generic.go:239-249 | a successful start calls plugin.Stop, then plugin.Start, then removes every socket, then listens and dial-checks each socket in order |
| WrapperProps.StartBodyNoOrphans | pkg/plugins/skeleton/generic.go:231-249 | starting from no running server, the start body, however it ends, leaves no server running that is not listed |
| WrapperProps.StopLeavesNothingRunning | pkg/plugins/skeleton/generic.go:257-289 | a stop cycle from a state without orphan servers leaves no server running |
| WrapperProps.StartFailureRollsBack | pkg/plugins/skeleton/generic.go:223-229 | a failed start from a state with nothing running rolls back: no server is listed or running, and no socket file is left unless a removal failed |
| WrapperProps.EmptySocketsNeverStartPlugin | pkg/plugins/skeleton/generic.go:231-233 | with no socket, start fails before calling plugin.Start; the rollback stops the old servers and calls plugin.Stop |
| WrapperProps.PluginStartFailureLog | pkg/plugins/skeleton/generic.go:221-243 | when plugin.Start fails, no server is created and the calls after plugin.Start form only the rollback |
| WrapperProps.PluginStartFailureServesNothing | pkg/plugins/skeleton/generic.go:240-243 | a failed plugin.Start opens no socket |
| WrapperProps.StopBeforeStart | pkg/plugins/skeleton/generic.go:235-240 | with sockets present, every start cycle calls plugin.Stop and then plugin.Start before doing anything else |
| WrapperProps.StopTwice | pkg/plugins/skeleton/generic.go:257-301 | a second stop cycle after a successful one changes nothing but the call log |
| WrapperProps.CyclesKeepSerialsBelow | pkg/plugins/skeleton/generic.go:319 | start and stop cycles keep every known server numbered below the next serial, so each new server is distinct from all earlier ones |
| WrapperProps.StartServersFresh | pkg/plugins/skeleton/generic.go:319-380 | the servers of a successful start are pairwise distinct and none of them was running or listed before |
| WrapperProps.DuplicateDirectoriesNeverStart | pkg/plugins/skeleton/generic.go:133-138 | two equal registration directories give the same socket path, so start always fails |
| WrapperProps.DummyQRMRegistration | pkg/plugins/skeleton/generic.go:110-112 | the test QRM plugin registers as a resource plugin under "test_resource" on a socket named after the plugin |
| Wrapper.RetryStart | pkg/plugins/skeleton/generic.go:153-162 | defines the start retry loop: one start cycle per oracle round until the first that succeeds, which is named |
| Wrapper.RetryStop | pkg/plugins/skeleton/generic.go:177-186 | defines the stop retry loop: one stop cycle per oracle round until the first that succeeds, which is named |
| Wrapper.RetryStartLeavesNoOrphans | pkg/plugins/skeleton/generic.go:153-162 | retrying start never piles up servers: after each failed round none runs; after the successful round exactly one server per socket runs |
| Wrapper.RetryStopStopsEverything | pkg/plugins/skeleton/generic.go:177-186 | retrying stop leaves no server running; a successful round leaves the plugin stopped |
| Wrapper.PluginRegistrationWrapper.constructor | pkg/plugins/skeleton/generic.go:124-131 | a new wrapper runs no server, has an empty log, open channels and the plugin's resolved identity |
| Wrapper.PluginRegistrationWrapper.Name | pkg/plugins/skeleton/generic.go:144-146 | defines the wrapper's name as the wrapped plugin's name |
| Wrapper.PluginRegistrationWrapper.GetInfo | pkg/plugins/skeleton/generic.go:97-118 | the embedded registration server reports kind EvictionPlugin, ReporterPlugin or ResourcePlugin; a QRM plugin is named by its resource name, the others by their own name; the version is v1alpha1 |
| Wrapper.PluginRegistrationWrapper.Cleanup | pkg/plugins/skeleton/generic.go:291-301 | the new state and error are those of CleanupSpec (see RemoveSocketsEffect) |
| Wrapper.PluginRegistrationWrapper.Serve | pkg/plugins/skeleton/generic.go:303-385 | the new state and error are those of ServeSpec (see ListenAllOutcome and ServeSucceedsIff) |
| Wrapper.PluginRegistrationWrapper.ListenOne | pkg/plugins/skeleton/generic.go:311-381 | one listen, register and dial-check round advances ListenAll by exactly one socket, or ends it with that socket's error |
| Wrapper.PluginRegistrationWrapper.StopCycle | pkg/plugins/skeleton/generic.go:257-289 | the new state and error are those of StopSpec (see the StopCycle lemmas) |
| Wrapper.PluginRegistrationWrapper.StartCycle | pkg/plugins/skeleton/generic.go:221-255 | the new state and error are those of StartSpec, with its deferred rollback (see StartIff and StartFailureRollsBack) |
| Wrapper.PluginRegistrationWrapper.StartWithRetry | pkg/plugins/skeleton/generic.go:153-162 | start cycles repeat, one oracle round each, until one succeeds; the state and the round reached are those of RetryStart |
| Wrapper.PluginRegistrationWrapper.StopWithRetry | pkg/plugins/skeleton/generic.go:177-186 | stop cycles repeat until one succeeds; the state and the round reached are those of RetryStop |
| Wrapper.PluginRegistrationWrapper.Stop | pkg/plugins/skeleton/generic.go:194-200 | Stop runs one stop cycle and closes the channels; it returns the cycle's error the first time and panics when the channels were already closed |
| Wrapper.PluginRegistrationWrapper.Restart | pkg/plugins/skeleton/generic.go:204-214 | Restart fails exactly when Stop has closed the channels; otherwise it delivers one restart signal |
| Wrapper.NewRegistrationPluginWrapper | pkg/plugins/skeleton/generic.go:87-141 | construction fails exactly when the plugin does not resolve; otherwise the new wrapper has the resolved identity, one socket per directory and no running server |
| Validation.Dedup | pkg/apis/scheduling/config/validation/validation_pluginargs.go:71 | removing repeats keeps exactly the same members, with no repeats |
| Validation.DedupOfDistinct | pkg/apis/scheduling/config/validation/validation_pluginargs.go:71 | a list without repeats is its own deduplication |
| Validation.ToAggregate | pkg/apis/scheduling/config/validation/validation_pluginargs.go:142 | an empty list gives nil; otherwise the aggregate holds exactly the list's errors, each once |
| Validation.ResourceErrorsSound | pkg/apis/scheduling/config/validation/validation_pluginargs.go:74-83 | every reported error is an Invalid weight error at `<p>[i].weight` for an index whose weight is outside (0, 100] |
| Validation.ResourceErrorsComplete | pkg/apis/scheduling/config/validation/validation_pluginargs.go:76-80 | an index is reported exactly when its weight is outside (0, 100] |
| Validation.ResourceErrorsDistinct | pkg/apis/scheduling/config/validation/validation_pluginargs.go:76-80 | no index is reported twice |
| Validation.ResourceErrors | pkg/apis/scheduling/config/validation/validation_pluginargs.go:74-83 | defines the weight errors of a resource list: one Invalid error at `[i].weight` per weight outside (0, 100], in list order |
| Validation.ValidateResources | pkg/apis/scheduling/config/validation/validation_pluginargs.go:74-83 | the loop returns exactly ResourceErrors, whose properties the three lemmas above state |
| Validation.FirstUnsorted | pkg/apis/scheduling/config/validation/validation_pluginargs.go:100-105 | the result is the first index from the given start whose utilization does not exceed its predecessor's; every pair before it is strictly increasing |
| Validation.OrderErrors | pkg/apis/scheduling/config/validation/validation_pluginargs.go:100-105 | defines the ordering check: one Invalid error at the first point whose utilization does not exceed its predecessor's, or none |
| Validation.RangeErrors | pkg/apis/scheduling/config/validation/validation_pluginargs.go:107-117 | defines the range checks: for each point in order, its utilization error and then its score error |
| Validation.ShapeErrors | pkg/apis/scheduling/config/validation/validation_pluginargs.go:85-120 | defines the shape errors: one Required error for an empty shape; otherwise the ordering errors followed by the range errors |
| Validation.ValidateFunctionShape | pkg/apis/scheduling/config/validation/validation_pluginargs.go:85-120 | the order loop with its break, followed by the range loop, returns exactly ShapeErrors |
| Validation.ValidateShapeRanges | pkg/apis/scheduling/config/validation/validation_pluginargs.go:107-117 | the range loop returns exactly RangeErrors: each point's utilization error, then its score error, point by point |
| Validation.FirstUnsortedSorted | pkg/apis/scheduling/config/validation/validation_pluginargs.go:100-105 | no unsorted index exists exactly when the utilizations strictly increase |
| Validation.OrderErrorsIff | pkg/apis/scheduling/config/validation/validation_pluginargs.go:100-105 | the order check reports nothing exactly for strictly increasing utilizations; otherwise it reports one error, at the first point that does not exceed its predecessor |
| Validation.RangeErrorsSound | pkg/apis/scheduling/config/validation/validation_pluginargs.go:107-117 | every range error is the utilization or score error of a point outside its range |
| Validation.RangeErrorsComplete | pkg/apis/scheduling/config/validation/validation_pluginargs.go:107-117 | a point is reported for utilization exactly when it is outside [0, 100], and for score exactly when it is outside [0, 10] |
| Validation.RangeErrorsEmptyIff | pkg/apis/scheduling/config/validation/validation_pluginargs.go:107-117 | the range loop reports nothing exactly when every point is in range |
| Validation.ShapeRequiredIffEmpty | pkg/apis/scheduling/config/validation/validation_pluginargs.go:95-98 | an empty shape gives exactly one Required error; a non-empty shape never gives a Required error |
| Validation.AtMostOneOrderError | pkg/apis/scheduling/config/validation/validation_pluginargs.go:100-105 | a shape never gets more than one ordering error |
| Validation.ShapeValidIff | pkg/apis/scheduling/config/validation/validation_pluginargs.go:85-120 | the shape is accepted exactly when it is non-empty, strictly increasing and every point is in range |
| Validation.ListErrors | pkg/apis/scheduling/config/validation/validation_pluginargs.go:51-60 | defines one balanced-allocation list's errors: per entry, a Duplicate when its name was seen earlier in the list, then a "must be 1" error when its weight is not 1 |
| Validation.BalancedErrors | pkg/apis/scheduling/config/validation/validation_pluginargs.go:47-72 | defines the balanced-allocation errors: the resources list's errors followed by the reclaimedResources list's |
| Validation.ValidateBalancedList | pkg/apis/scheduling/config/validation/validation_pluginargs.go:51-60 | one list's loop, with its own seen-set, returns exactly ListErrors of that list |
| Validation.ValidateBalancedAllocationArgs | pkg/apis/scheduling/config/validation/validation_pluginargs.go:47-72 | the result is the aggregate of the resources errors followed by the reclaimedResources errors |
| Validation.ListErrorsSound | pkg/apis/scheduling/config/validation/validation_pluginargs.go:51-60 | every error is a Duplicate for an entry whose name appeared earlier, or an Invalid "must be 1" for an entry whose weight is not 1 |
| Validation.ListErrorsBelow | pkg/apis/scheduling/config/validation/validation_pluginargs.go:51-60 | no error points past the end of the list |
| Validation.DuplicateReportedIff | pkg/apis/scheduling/config/validation/validation_pluginargs.go:52-56 | an entry is reported as a duplicate exactly when an earlier entry of the same list has its name |
| Validation.WeightReportedIff | pkg/apis/scheduling/config/validation/validation_pluginargs.go:57-59 | an entry is reported for its weight exactly when the weight is not 1 |
| Validation.ListErrorsEmptyIff | pkg/apis/scheduling/config/validation/validation_pluginargs.go:51-60 | a list gives no errors exactly when its names are distinct and every weight is 1 |
| Validation.BalancedSeparateLists | pkg/apis/scheduling/config/validation/validation_pluginargs.go:49-70 | the two lists keep separate seen-sets: a name that appears in both lists is not a duplicate |
| Validation.BalancedValidIff | pkg/apis/scheduling/config/validation/validation_pluginargs.go:47-72 | the arguments are accepted exactly when neither list repeats a name and every weight is 1 |
| Validation.RatioErrors | pkg/apis/scheduling/config/validation/validation_pluginargs.go:35-37 | defines the ratio errors: none without a requested-to-capacity ratio, otherwise the shape errors of its shape under `shape` |
| Validation.FitErrors | pkg/apis/scheduling/config/validation/validation_pluginargs.go:29-38 | defines the fit errors: none for a nil strategy; otherwise the resources errors, the reclaimedResources errors and the ratio errors, in that order |
| Validation.ValidateFitArgs | pkg/apis/scheduling/config/validation/validation_pluginargs.go:29-44 | the result is the aggregate of the resources errors, the reclaimedResources errors and the shape errors of the requested-to-capacity ratio |
| Validation.ResourceErrorsEmptyIff | pkg/apis/scheduling/config/validation/validation_pluginargs.go:74-83 | a resource list gives no error exactly when every weight is in (0, 100] |
| Validation.FitValidIff | pkg/apis/scheduling/config/validation/validation_pluginargs.go:29-44 | the fit arguments are accepted exactly when the strategy is nil, or when all its weights are in range and any ratio shape it has is valid |
| Validation.ValidateScoringStrategyType | pkg/apis/scheduling/config/validation/validation_pluginargs.go:122-150 | no error exactly for MostAllocated, LeastAllocated, BalancedAllocation and LeastNUMANodes; any other type gives one Invalid error at the path |
| Validation.ValidateResourcePolicy | pkg/apis/scheduling/config/validation/validation_pluginargs.go:152-158 | no error exactly for "dynamic" and "native"; any other policy gives one Invalid error at the path |
| Validation.OptionList | pkg/apis/scheduling/config/validation/validation_pluginargs.go:133-140 | a present error becomes a one-element list; a missing one becomes the empty list |
| Validation.AggregateOfOptions | pkg/apis/scheduling/config/validation/validation_pluginargs.go:131-142 | aggregating up to two different optional errors gives nil when neither is present, and otherwise exactly the present ones, in order |
| Validation.ValidateTopologyArgs | pkg/apis/scheduling/config/validation/validation_pluginargs.go:130-143 | a nil strategy is the dereference failure; otherwise nil exactly when type and policy are both valid; an invalid type alone gives exactly the Invalid error at `scoringStrategy.type`, an invalid policy alone exactly the Invalid error at `resourcePluginPolicy`, and both give those two errors in that order |
| Defaults.DefaultWeight | pkg/apis/scheduling/config/v1beta3/defaults.go:71-76 | a zero weight becomes 1; any other weight and the name are kept |
| Defaults.DefaultedWeights | pkg/apis/scheduling/config/v1beta3/defaults.go:72-76 | defines the list after the weight loop: each entry with its weight defaulted, in order |
| Defaults.DefaultedList | pkg/apis/scheduling/config/v1beta3/defaults.go:65-76 | defines a defaulted list: an empty list becomes the default list, then every zero weight becomes 1 |
| Defaults.DefaultedWeightsAt | pkg/apis/scheduling/config/v1beta3/defaults.go:72-76 | the weight loop keeps the length, order and names and defaults each entry's weight |
| Defaults.DefaultedWeightsIdempotent | pkg/apis/scheduling/config/v1beta3/defaults.go:72-81 | defaulting weights twice is the same as defaulting them once |
| Defaults.SetDefaultWeights | pkg/apis/scheduling/config/v1beta3/defaults.go:51-55 | the index loop returns exactly DefaultedWeights of the list |
| Defaults.ScoringStrategyObject.constructor | pkg/apis/scheduling/config/v1beta3/defaults.go:38-42 | a new strategy object holds the given strategy |
| Defaults.FitArgsObject.constructor | pkg/apis/scheduling/config/v1beta3/defaults.go:36 | a new fit-arguments object points to the given strategy object, or to none |
| Defaults.DefaultedStrategy | pkg/apis/scheduling/config/v1beta3/defaults.go:36-61 | defines the defaulted strategy: a nil strategy becomes LeastAllocated over the default lists, then both lists are defaulted |
| Defaults.FitArgsObject.SetDefaults | pkg/apis/scheduling/config/v1beta3/defaults.go:36-61 | a nil strategy is replaced by a freshly allocated default one; then both lists are defaulted in place, giving DefaultedStrategy of the old strategy |
| Defaults.BalancedAllocationArgsObject.constructor | pkg/apis/scheduling/config/v1beta3/defaults.go:64 | a new object holds the given arguments |
| Defaults.DefaultedBalanced | pkg/apis/scheduling/config/v1beta3/defaults.go:64-82 | defines the defaulted balanced-allocation arguments: both lists defaulted, each with its own default list |
| Defaults.BalancedAllocationArgsObject.SetDefaults | pkg/apis/scheduling/config/v1beta3/defaults.go:64-82 | empty lists become the default lists, then every zero weight becomes 1, giving DefaultedBalanced of the old arguments |
| Defaults.NilStrategyDefaults | pkg/apis/scheduling/config/v1beta3/defaults.go:25-43 | a nil strategy becomes LeastAllocated with cpu/memory and reclaimed milli-cpu/memory, every weight 1, and no ratio |
| Defaults.DefaultedListShape | pkg/apis/scheduling/config/v1beta3/defaults.go:44-60 | an empty list is replaced by the defaults; a non-empty one keeps its length, order and names with only zero weights changed; no weight is 0 afterwards |
| Defaults.FitDefaultsIdempotent | pkg/apis/scheduling/config/v1beta3/defaults.go:36-61 | defaulting the fit arguments twice gives the same result as defaulting them once |
| Defaults.BalancedDefaultsIdempotent | pkg/apis/scheduling/config/v1beta3/defaults.go:64-82 | defaulting the balanced-allocation arguments twice gives the same result as defaulting them once |
| Defaults.DefaultedListNonEmptyIdempotent | pkg/apis/scheduling/config/v1beta3/defaults.go:44-60 | with a non-empty default list, defaulting an already defaulted list changes nothing |
| Defaults.DefaultBalancedArgsValidate | pkg/apis/scheduling/config/v1beta3/defaults.go:25-33 | balanced-allocation arguments left empty and then defaulted pass the balanced-allocation validator |
| ConditionEffect.Split | pkg/utils/eviction.go:35 | strings.Split always yields at least one piece |
| ConditionEffect.SplitJoin | pkg/utils/eviction.go:35 | splitting yields one more piece than there are separators, no piece contains a separator, and joining the pieces gives back the input |
| ConditionEffect.SplitOfSeparatorFree | pkg/utils/eviction.go:35 | a string without a separator splits into itself alone |
| ConditionEffect.SplitConcat | pkg/utils/eviction.go:35-39 | `a/b` with a separator-free a splits into a followed by the pieces of b |
| ConditionEffect.ParseConditionEffect | pkg/utils/eviction.go:34-40 | parsing succeeds exactly when the input has one separator, giving the parts before and after it; otherwise it gives two empty strings and the "invalid condition effect" error |
| ConditionEffect.GenerateConditionEffect | pkg/utils/eviction.go:43-45 | the result is the level, one separator and the effect |
| ConditionEffect.ParseGenerate | pkg/utils/eviction.go:34-45 | generating and then parsing gives back a level and an effect that are free of separators |
| ConditionEffect.GenerateParse | pkg/utils/eviction.go:34-45 | parsing and then generating gives back every input that parses |
| TopologyPolicy.GenerateTopologyPolicy | pkg/utils/topology_policy.go:27-32 | every policy and scope gives the None policy |
| TopologyPolicy.PodScopePolicy | pkg/utils/topology_policy.go:34-47 | restricted, best-effort and numeric map to their pod-level policies; none and anything else map to None |
| TopologyPolicy.ContainerScopePolicy | pkg/utils/topology_policy.go:49-62 | restricted, best-effort and numeric map to their container-level policies; none and anything else map to None |
| TopologyPolicy.ScopeHelpersDisjoint | pkg/utils/topology_policy.go:34-62 | neither helper yields a single-NUMA-node policy; their non-None results never coincide; each is one-to-one where it is not None |
| TopologyPolicy.ValuesDistinct | pkg/apis/node/v1alpha1/types.go:106-131 | distinct policies have distinct string values |
| TopologyPolicy.ScopeHelpersSameDomain | pkg/utils/topology_policy.go:34-62 | the pod and container helpers map the same manager policies to None |
| InlineCheck.FirstComma | cmd/inlinecheck/main.go:51 | the result is the index of the first comma, or the length when there is none; nothing before it is a comma |
| InlineCheck.ParseTag | cmd/inlinecheck/main.go:50-56 | with no comma the name is the whole tag; otherwise it is the comma-free prefix that ends at the first comma |
| InlineCheck.Unwrapped | cmd/inlinecheck/main.go:72-77 | one pointer, slice, array or map level is removed; the result is the type itself or a strict part of it |
| InlineCheck.FieldPath | cmd/inlinecheck/main.go:82-92 | defines the path reported for a field from its original kind |
| InlineCheck.FieldPathShape | cmd/inlinecheck/main.go:82-92 | the reported path extends the parent path with `.Name` for struct and pointer fields, `.Name[0]` for slice and array fields and `.Name[*]` for map fields |
| InlineCheck.Checker.constructor | cmd/inlinecheck/main.go:34-35 | a new walker has seen no type and has no error |
| InlineCheck.FieldErrors | cmd/inlinecheck/main.go:94-101 | defines the error a checked field contributes itself: one missing-tag error at its path when its JSON name is empty and it is not embedded |
| InlineCheck.CheckSpec | cmd/inlinecheck/main.go:59-106 | defines checkType: a type already seen changes nothing; otherwise the field loop runs and the type is then added to the seen-set |
| InlineCheck.FieldsSpec | cmd/inlinecheck/main.go:64-103 | defines the field loop: unexported and non-struct fields are skipped; a checked field adds its own error, then its unwrapped type is walked at its path |
| InlineCheck.Checker.CheckType | cmd/inlinecheck/main.go:59-106 | the walk with its skips, nested walks and final seen-set insert moves the walker to CheckSpec of its old state |
| InlineCheck.SeenTypeUnchanged | cmd/inlinecheck/main.go:60-62 | a type that was already seen adds no error and does not change the seen-set |
| InlineCheck.CheckGrows | cmd/inlinecheck/main.go:59-106 | the walk only appends errors and only adds types, and the walked type is in the seen-set when it returns |
| InlineCheck.FieldsOfSeenTypes | cmd/inlinecheck/main.go:64-103 | when every field type is already seen, the walk appends one error per checked, non-embedded field with an empty JSON name, in field order; unexported and non-struct fields add nothing |
| InlineCheck.FieldsReportInOrder | cmd/inlinecheck/main.go:64-103 | whatever the nested walks append, the field loop appends the fields' own missing-tag errors in field order |
| InlineCheck.NewStructReportsOwnFields | cmd/inlinecheck/main.go:59-106 | walking a struct not seen before reports every exported, struct-typed, non-embedded field whose JSON name is empty, at its field path, in field order, even when the walks of nested types add errors in between |

## Left out

- Each `Wrapper.PluginRegistrationWrapper` method is modelled as one sequential step. Not modelled: the goroutine that `Start` launches, the mutex, the `select` on the stop and restart channels, and the blocking hand-off of the unbuffered restart channel. The two retry loops are methods over a finite list of oracle rounds, not unbounded `PollImmediateInfinite` loops.
- Ordering between crash handling and the other goroutines is not modelled. `CrashLoop` models one serve goroutine's crash counter on its own, with crash times as input and `Restart` calls as output.
- The 5-second retry interval, the 5-second gRPC dial timeout, klog logging and the metric callback are not modelled; they do not affect state.
- gRPC serving, service registration, `net.Listen`, dialing and `os.Remove` are outside code. They become the `Env` oracle: listen, dial and removal failures, and plugin `Start`/`Stop` errors.
- One `Env` answers every call of a start or stop cycle. So within one start cycle, the discarded `plugin.Stop` of the start body and the rollback's `plugin.Stop` fail or succeed together, and so do the removals of serve's cleanup and of the rollback's cleanup.
- `stop` recovers a panic of the wrapped plugin's `Stop`; the model does not give the plugin's `Stop` a way to panic.
- A Go unix listener removes its socket file when it is closed. The model treats files as removed only by `cleanup`.
- `path.Join` lexical cleaning (`..`, duplicate slashes) is not modelled. `WrapperSpec.JoinPath` only inserts one separator.
- `ReporterPluginStub.ListAndWatchReportContent` and `Update` are not modelled. Both stream to a gRPC client and wait on channels.
- `Validation.ToAggregate`: `ToAggregate` dedups by message string. The model dedups identical error values, which is the same for these validators because their errors all have distinct paths or details.
- The text of a `field.Error` is not rendered. Errors are kept as type, path, bad value and detail.
- `Defaults.SetDefaultWeights` works on a value copy of the list. If a Go list is the shared default slice, updating it in place is not modelled. The defaults already have weight 1, so the value is the same.
- `InlineCheck.Checker.CheckType`: type descriptors are finite trees. A recursive Go type, where checkType would recurse forever because the seen-set is updated only after the walk, cannot be written down. `main` (scheme registration, printing, exit code) is not modelled.
- Some constants are defined in files that are not part of this model, so their values are assumed:
  - From this repository's `pkg/consts` package, which is not part of this model: `BalancedAllocation` and `LeastNUMANodes` are their own names, and `ResourcePluginPolicyNameDynamic`/`ResourcePluginPolicyNameNative` are `dynamic` and `native`.
  - From kube-scheduler: `MaxCustomPriorityScore` is 10, and `MostAllocated`/`LeastAllocated` are their own names.
  - From the kubelet: the topology-manager policies are `restricted`, `best-effort`, `none` and `numeric`; `watcherapi.ResourcePlugin` is `ResourcePlugin`; and `qrmpluginapi.Version` is `v1alpha1`.
- `generateTopologyPolicyPodScope` and `generateTopologyPolicyContainerScope` are modelled, although nothing in the repository calls them.
- `ReclaimedRequestedToCapacityRatio` of the fit arguments is never validated by the source, so the model does not validate it either.
- A Go panic (a second `Stop`, the nil scoring strategy of the topology validator) is modelled as an explicit outcome. Aborting the process is not modelled.
