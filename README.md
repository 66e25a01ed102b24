# ftrack Connect for the Unity editor: a Dafny model

This project models the core of the ftrack Connect integration for the Unity
editor. There is one Dafny module per source file of that core:

- `UnityHook` (`hook.dfy`): the Connect hook that offers Unity as a launchable
  application. It covers selection validity and the discover reply. It
  gathers the editor candidates from `UNITY_LOCATION`, the registry and the
  Hub's `editors.json`, drops missing paths and repeated paths or variants,
  sorts by variant and moves the preferred editor first. It also covers the `FS`/`FE`
  frame bounds of the launch environment.
- `FtrackClient` (`client.dfy`): the out-of-process client. It covers the
  120-attempt connect loop, the throttled keep-alive ping, the shutdown
  handler, the dialogs kept alive by name, and forwarding publish replies to
  the last Publish dialog.
- `FtrackClientInit` (`client_init.dfy`): the client service run in the separate ftrack
  process (the remote end of the RPyC connection). It
  covers the retry-until-success initialisation flag and the three dialogs
  kept on top.
- `Publisher` (`publisher.dfy`): the publish dialog. It covers input
  validation and the single asynchronous publish request. It models the
  publish callback as the ordered list of calls it makes to the tracking
  server, with its early returns, the copied-forward components, the routing
  of published components and the update of its task's status. It also covers the
  shot path.
- `UnityConnector` (`connector.dfy`): the connector. It covers dispatch by
  asset type, recognition of tracked assets from a Unity asset's
  `userData` JSON, the asset queries (`getAssets`, `getAsset`,
  `getSelectedAssets`), the selection and removal calls, and the
  shot-or-sequence test.
- `UnityAssets` (`assets.dfy`): the geometry asset type. It covers the
  import cascade (existence, `.fbx` extension, destination directory,
  Assets substring test), the copy and refresh, the stubs and the
  registration of `'geo'`.
- `PythonSettingsEditor` (`settings.dfy`): the Python-for-Unity settings. It
  covers the default interpreter, the site-packages copy, `WhereIs`,
  version validation with its two error policies, the memoised
  `SetPythonInterpreter` and `ShortPythonVersion`.
- `PythonRunner` (`runner.dfy`): the Python runner. It covers the
  in-process and out-of-process initialisation flags, the version and rpyc
  checks, the extra site-packages and the Python code strings it builds.
  It also covers the argument checks of the file runners.
- `UnityMenus` (`menus.dfy`): the generated C# menu script, one method block
  per menu entry, numbered from zero.
- `DiscoverIntegration` (`integration.dfy`): the Connect integration hook. It
  covers the discovery answer, the launch environment with its conditional
  task keys, and `register`'s guard and subscriptions.
- `Text` (`text.dfy`): string helpers shared by the modules. These are prefix
  and substring tests, ASCII lower-casing, .NET `Trim`, decimal conversion
  and Python's `str.split`.

The host is given to the model as parameters. This covers:

- Unity and the tracking server;
- the file system and the registry;
- the rpyc transport, the clock (integer milliseconds) and subprocess runs.

Each of these is a function or a datatype of outcomes. The objects that the
source updates in place are Dafny classes whose methods state their whole new
state. The calls they make on the outside world are an append-only log whose
contents are specified by functions, and lemmas prove the promised properties
of those functions.

A `PythonInstallException` carries the reason it was raised for, as a
datatype, rather than its message string. `PythonSettingsEditor.InstallText`
writes out the base message of each reason, with the source's wording, and
`PythonSettingsEditor.Message` adds the 'Python Net: ' prefix and the
troubleshooting hint.

## Model

| member | source | states |
|---|---|---|
| UnityHook.Discover | resource/hook/ftrack_connect_unity_hook.py:35-93 | no reply exactly when the selection is not a single task of object type 'Task'; otherwise one item per application, in store order, carrying the action identifier and the application's identifier |
| UnityHook.NtJoin | resource/hook/ftrack_connect_unity_hook.py:274 | the joined path starts with the location and ends with the relative part |
| UnityHook.LastValueIsLastOccurrence | resource/hook/ftrack_connect_unity_hook.py:261-270 | the value read for a name is absent exactly when no registry value has that name, and otherwise is the data of the last value of that name |
| UnityHook.ReadInstallerValues | resource/hook/ftrack_connect_unity_hook.py:261-270 | the value loop leaves the data of the last 'Location x64' and the last 'Version' value |
| UnityHook.RegistryCandidateFromLastValues | resource/hook/ftrack_connect_unity_hook.py:264-286 | a sub-key gives at most one candidate, and only when both values are present and non-empty; the candidate is at `<location>\Editor\Unity.exe` with identifier `unity_<version>` |
| UnityHook.RegistryCandidateOf | resource/hook/ftrack_connect_unity_hook.py:272-286 | given the last values read, a sub-key yields a candidate exactly when both are present and non-empty, and that candidate is built from them |
| UnityHook.ReadInstallerKey | resource/hook/ftrack_connect_unity_hook.py:259-286 | one sub-key: the value loop and the completeness test yield that sub-key's candidate |
| UnityHook.DiscoverFromRegistry | resource/hook/ftrack_connect_unity_hook.py:243-288 | appends one candidate per complete sub-key on Windows, nothing elsewhere or when the registry cannot be read |
| UnityHook.LocatedAppsFromUsableEntries | resource/hook/ftrack_connect_unity_hook.py:299-324 | each located candidate comes from an entry with a version and a location, uses the first location, and every such entry gives one |
| UnityHook.DiscoverLocatedEditors | resource/hook/ftrack_connect_unity_hook.py:290-324 | appends the located candidates; absent, empty or non-dict data adds nothing |
| UnityHook.Keys | resource/hook/ftrack_connect_unity_hook.py:197-198 | the kept paths and variants, one per kept entry, in order |
| UnityHook.FilterApplications | resource/hook/ftrack_connect_unity_hook.py:196-218 | the filtering loop computes the first-occurrence filter |
| UnityHook.Dedup | resource/hook/ftrack_connect_unity_hook.py:196-218 | the first-occurrence filter: a candidate is kept when its path exists and no earlier kept one has its path or variant (proved in `DedupKeepsFirstOccurrences` and `DedupKeptWellFormed`) |
| UnityHook.DedupKeepsFirstOccurrences | resource/hook/ftrack_connect_unity_hook.py:196-218 | the kept list is a subsequence of the candidates, and it holds exactly those candidates whose path exists and shares no path or variant with an earlier kept one |
| UnityHook.DedupKeptWellFormed | resource/hook/ftrack_connect_unity_hook.py:196-218 | every kept path exists and no two kept entries share a path or a variant |
| UnityHook.LexLeTotal | resource/hook/ftrack_connect_unity_hook.py:221 | string order by code point is total |
| UnityHook.LexLeTransitive | resource/hook/ftrack_connect_unity_hook.py:221 | string order by code point is transitive |
| UnityHook.InsertByVariant | resource/hook/ftrack_connect_unity_hook.py:221 | insertion adds exactly the one entry |
| UnityHook.SortByVariant | resource/hook/ftrack_connect_unity_hook.py:221 | the sort is a permutation |
| UnityHook.InsertByVariantSorted | resource/hook/ftrack_connect_unity_hook.py:221 | insertion into a sorted list keeps it sorted |
| UnityHook.InsertByVariantFrom | resource/hook/ftrack_connect_unity_hook.py:221 | inserting an entry keeps a lower bound that holds for it and for every entry of the list |
| UnityHook.SortByVariantSorted | resource/hook/ftrack_connect_unity_hook.py:221 | the result is sorted by variant |
| UnityHook.PermutationKeepsUnique | resource/hook/ftrack_connect_unity_hook.py:221-238 | reordering keeps paths and variants distinct |
| UnityHook.FirstIndexOf | resource/hook/ftrack_connect_unity_hook.py:237 | the position `list.remove` removes: the first occurrence |
| UnityHook.MoveToFront | resource/hook/ftrack_connect_unity_hook.py:237-238 | `remove` then `insert(0, …)` keeps the length and puts the moved entry at index 0 |
| UnityHook.MoveToFrontPermutes | resource/hook/ftrack_connect_unity_hook.py:237-238 | the move is a permutation that leaves the positions after the moved entry alone |
| UnityHook.PreferredStep | resource/hook/ftrack_connect_unity_hook.py:235-238 | one loop iteration keeps the length, and an entry with the preferred variant ends at index 0 |
| UnityHook.PreferredStepPermutes | resource/hook/ftrack_connect_unity_hook.py:235-238 | one loop iteration permutes the list and leaves the positions after the current one alone |
| UnityHook.PreferredPass | resource/hook/ftrack_connect_unity_hook.py:235-238 | the loop from a list position on, walking by position while the list is rotated; it is a permutation (`PreferredPassPermutes`) that puts the preferred entry first (`PreferredPassMovesMatch`) |
| UnityHook.MovePreferredFirst | resource/hook/ftrack_connect_unity_hook.py:235-238 | the in-place loop computes the preferred pass |
| UnityHook.PreferredPassPermutes | resource/hook/ftrack_connect_unity_hook.py:235-238 | the pass keeps the length and the entries |
| UnityHook.PreferredPassSkips | resource/hook/ftrack_connect_unity_hook.py:235-238 | positions without the preferred variant are passed over |
| UnityHook.PreferredPassWithoutMatch | resource/hook/ftrack_connect_unity_hook.py:235-238 | with no entry of the preferred variant the list is unchanged |
| UnityHook.PreferredPassMovesMatch | resource/hook/ftrack_connect_unity_hook.py:235-238 | with distinct variants, the preferred entry moves to index 0 and the others keep their order |
| UnityHook.GatherCandidates | resource/hook/ftrack_connect_unity_hook.py:129-188 | the candidates: the override alone, or registry, then located, then searched editors on Windows; the Hub search on Linux |
| UnityHook.DiscoverApplications | resource/hook/ftrack_connect_unity_hook.py:128-241 | the whole discovery: gather, filter, sort, then the preferred pass on Windows |
| UnityHook.PermutationKeepsWellFormed | resource/hook/ftrack_connect_unity_hook.py:221-238 | sorting and moving keep the filter's guarantees |
| UnityHook.PreferredPassFront | resource/hook/ftrack_connect_unity_hook.py:221-238 | on a sorted list with distinct variants, the preferred entry is first and the rest stay sorted |
| UnityHook.PreferredPassOrder | resource/hook/ftrack_connect_unity_hook.py:221-238 | the preferred entry first and the rest sorted, or the whole list sorted when none matches |
| UnityHook.DiscoveredProperties | resource/hook/ftrack_connect_unity_hook.py:192-241 | the discovered list has existing, distinct paths and distinct variants, holds exactly the filtered candidates, and is sorted with the preferred editor first when present |
| UnityHook.OverrideIsOnlyApplication | resource/hook/ftrack_connect_unity_hook.py:156-169 | an existing UNITY_LOCATION on Windows is the only application, with variant 'Unknown' and identifier 'unity_unknown' |
| UnityHook.Truncate | resource/hook/ftrack_connect_unity_hook.py:420 | Python's `int` on a float truncates toward zero |
| UnityHook.FrameBoundEnvReadsBack | resource/hook/ftrack_connect_unity_hook.py:419-427 | FS/FE parse back as the truncated bound, or 0 when reading the bound raised |
| FtrackClient.FirstDecisive | resource/scripts/ftrack_client.py:181-195 | the attempt that ends the loop lies between the starting attempt and the 120th |
| FtrackClient.FirstDecisiveIsFirst | resource/scripts/ftrack_client.py:181-195 | every attempt before the one that ends the loop is a socket error, and that one, within the 120, is not |
| FtrackClient.FirstDecisiveIs | resource/scripts/ftrack_client.py:181-195 | an attempt that is not a socket error, after only socket errors, is the one that ends the loop |
| FtrackClient.NoDecisiveAttempt | resource/scripts/ftrack_client.py:181-195 | when every remaining attempt is a socket error, the loop runs to the 120th |
| FtrackClient.Connect | resource/scripts/ftrack_client.py:179-200 | the outcome of `_connect_to_unity`: the attempt that ends the loop decides, and after 120 socket errors it raises only with no earlier connection (proved in `ConnectStopsAtFirstSuccess`, `ConnectSucceedsAt`, `ConnectExitsOnEndOfFile` and `ConnectGivesUp`) |
| FtrackClient.ConnectStopsAtFirstSuccess | resource/scripts/ftrack_client.py:181-195 | between 1 and 120 attempts are made; a new connection comes from the last attempt, and every attempt before it was a socket error |
| FtrackClient.ConnectSucceedsAt | resource/scripts/ftrack_client.py:181-195 | a connection made after only socket errors ends the loop at that attempt and is kept |
| FtrackClient.ConnectExitsOnEndOfFile | resource/scripts/ftrack_client.py:190-192 | an EOFError exits at once with the quit message, with no further attempt and the connection untouched |
| FtrackClient.ConnectGivesUp | resource/scripts/ftrack_client.py:181-200 | after 120 socket errors, 'Could not connect to Unity' is raised when there was no connection, and an existing connection is kept otherwise |
| FtrackClient.PingAsWritten | resource/scripts/ftrack_client.py:210-222 | `ping_server` as written, where the Python 2 `except PingError, EOFError` lets an EOFError escape (`PingAsWrittenLetsEndOfFileEscape`) |
| FtrackClient.Ping | resource/scripts/ftrack_client.py:207-222 | `ping_server` as intended: a ping only with a connection and more than 1 s elapsed, both errors swallowed (`PingSendsOnlyAfterInterval`, `PingThrottled`) |
| FtrackClient.PingAsWrittenLetsEndOfFileEscape | resource/scripts/ftrack_client.py:210-222 | as written, an EOFError escapes and `last_ping_time` is not reset; the corrected ping swallows it |
| FtrackClient.PingAsWrittenAgreesOtherwise | resource/scripts/ftrack_client.py:210-222 | apart from that case, the written and corrected pings agree |
| FtrackClient.PingSendsOnlyAfterInterval | resource/scripts/ftrack_client.py:207-222 | a ping is sent exactly when a connection exists and more than 1 s has passed, and the time is reset whenever the interval has elapsed |
| FtrackClient.PingThrottled | resource/scripts/ftrack_client.py:207-222 | after a ping, none follows within the next second |
| FtrackClient.KindForName | resource/scripts/ftrack_client.py:99-128 | exactly the four names give a dialog, and each gives back its own name |
| FtrackClient.KindForNameInvertsDialogName | resource/scripts/ftrack_client.py:100-121 | every dialog kind is reached from its name |
| FtrackClient.Opened | resource/scripts/ftrack_client.py:99-121 | a dialog of the requested kind; only Import asset gets the 800x600 minimum size |
| FtrackClient.LastIndexOfKind | resource/scripts/ftrack_client.py:116-121 | the last dialog of a kind, or none when there is no dialog of that kind |
| FtrackClient.LastIndexOfKindAppend | resource/scripts/ftrack_client.py:116-134 | appending a dialog makes it the last of its kind (last writer wins) |
| FtrackClient.ClientSession.constructor | resource/scripts/ftrack_client.py:33-39 | no connection, no dialogs, no Publish dialog, and the ping clock at the start time |
| FtrackClient.ClientSession.CreateApplication | resource/scripts/ftrack_client.py:232-233 | the application exists; nothing else changes |
| FtrackClient.ClientSession.ConnectToUnity | resource/scripts/ftrack_client.py:179-200 | result, connection and attempt count as the connect specification gives them |
| FtrackClient.ClientSession.PingServer | resource/scripts/ftrack_client.py:207-222 | the new ping time and the ping log entry as the corrected ping gives them |
| FtrackClient.ClientSession.OnServerShutdown | resource/scripts/ftrack_client.py:72-85 | with retry: close and drop the connection, then schedule a reconnect without waiting; without: quit the application if there is one, then the base handler |
| FtrackClient.ClientSession.ShowDialog | resource/scripts/ftrack_client.py:95-137 | a known name whose dialog can be built appends one dialog (never removes any); 'Publish' takes the Publish slot; an unknown name logs to both logs |
| FtrackClient.ClientSession.Publish | resource/scripts/ftrack_client.py:87-92 | forwards the arguments to the last Publish dialog opened |
| FtrackClientInit.KeepOnTop | resource/scripts/ftrack_client_init.py:101 | the stay-on-top bit is set and every other window flag is kept |
| FtrackClientInit.InitKindForName | resource/scripts/ftrack_client_init.py:79-97 | only 'Info', 'Import asset' and 'Asset manager' give a dialog |
| FtrackClientInit.DispatchersDifferOnPublish | resource/scripts/ftrack_client_init.py:79-97 | the dispatcher of `ftrack_client_init.py` agrees with that of `ftrack_client.py` on every name but 'Publish', which only the latter turns into a dialog |
| FtrackClientInit.InitRunSetIffSomeSuccess | resource/scripts/ftrack_client_init.py:47-67 | after any series of calls the flag is set exactly when it started set or some call had both steps succeed |
| FtrackClientInit.SetupNotCalledOnceInitialized | resource/scripts/ftrack_client_init.py:51-54 | once the flag is set, no further call reaches `setup` |
| FtrackClientInit.SetupCalledWhileFailing | resource/scripts/ftrack_client_init.py:51-67 | before initialisation, a series of calls that all fail calls `setup` once per call |
| FtrackClientInit.SetupCalledUntilFirstSuccess | resource/scripts/ftrack_client_init.py:51-67 | before initialisation, `setup` is called on every call up to and including the first whose two steps succeed, and on none after it |
| FtrackClientInit.ClientInitService.constructor | resource/scripts/ftrack_client_init.py:19-22 | not initialised, no application, no dialogs |
| FtrackClientInit.ClientInitService.LoadAndInit | resource/scripts/ftrack_client_init.py:47-67 | once initialised only logs; otherwise setup, then registration unless setup raised, and the flag set only if both succeed, with exceptions logged |
| FtrackClientInit.ClientInitService.ShowDialog | resource/scripts/ftrack_client_init.py:69-111 | creates the application once; each of the three names appends one dialog with the stay-on-top flag OR-ed in, other names change nothing |
| Publisher.FirstStatusToSet | source/ftrack_connect_unity/ui/publisher.py:314-324 | the first status with the wanted name and a different status id, or none when there is none |
| Publisher.NothingCreatedBeforeChecksPass | source/ftrack_connect_unity/ui/publisher.py:215-250 | a failed reply (message and progress 100), an empty name or a failed pre-publish creates nothing; otherwise the asset and the version are created first |
| Publisher.MissingOldVersionLeavesCreatedAsset | source/ftrack_connect_unity/ui/publisher.py:248-259 | a missing old version for a type other than 'img' is reported after the asset and version were created, and the callback stops there |
| Publisher.CopyForwardSkipsExcluded | source/ftrack_connect_unity/ui/publisher.py:266-274 | the copied components are exactly the old ones not named 'thumbnail' or 'ftrackreview-mp4', with '' for a missing path |
| Publisher.UsesVersionsEndWithOldVersion | source/ftrack_connect_unity/ui/publisher.py:262-264 | the uses-versions are the old version's, followed by the old version |
| Publisher.RouteByName | source/ftrack_connect_unity/ui/publisher.py:291-303 | names containing 'reviewable' go to makeReviewable and all others to createComponent; each component's failure is logged and the loop goes on |
| Publisher.RouteOnlyFromComponents | source/ftrack_connect_unity/ui/publisher.py:291-303 | every routed call comes from a published component: a reviewable one, a created one named after its component, or a logged error; one or two calls per component |
| Publisher.PublishedOnlyWithComponents | source/ftrack_connect_unity/ui/publisher.py:289-306 | the version is published exactly when the connector returned components |
| Publisher.StatusEffectsShape | source/ftrack_connect_unity/ui/publisher.py:309-324 | the status changes only for a Task, and to the first matching status with a different id |
| Publisher.CopyComponents | source/ftrack_connect_unity/ui/publisher.py:266-274 | the copy loop computes the copied components |
| Publisher.RouteComponents | source/ftrack_connect_unity/ui/publisher.py:291-303 | the routing loop computes the routed calls |
| Publisher.FindStatus | source/ftrack_connect_unity/ui/publisher.py:314-324 | the loop stops at the first status to set |
| Publisher.GetShotPath | source/ftrack_connect_unity/ui/publisher.py:339-347 | the reversed parents' names, each followed by '.', then the shot name |
| Publisher.ShotPathSplitsBack | source/ftrack_connect_unity/ui/publisher.py:339-347 | with no '.' in any name, splitting the path at '.' gives back the names |
| Publisher.PublishDialog.constructor | source/ftrack_connect_unity/ui/publisher.py:52-53 | blank type, name and comment, and no calls |
| Publisher.PublishDialog.SetAssetType | source/ftrack_connect_unity/ui/publisher.py:147-150 | sets both the widget and the attribute |
| Publisher.PublishDialog.SetAssetName | source/ftrack_connect_unity/ui/publisher.py:152-155 | sets both the widget and the attribute |
| Publisher.PublishDialog.SetComment | source/ftrack_connect_unity/ui/publisher.py:157-159 | sets the comment only |
| Publisher.PublishDialog.OnPublishClicked | source/ftrack_connect_unity/ui/publisher.py:161-213 | the click's calls as the click specification gives them |
| Publisher.ClickSendsOnceWhenValid | source/ftrack_connect_unity/ui/publisher.py:192-213 | a blank name or falsy type shows one warning and sends nothing; otherwise exactly one asynchronous publish with type and options, then progress 25 |
| Publisher.PublishDialog.PublishAsset | source/ftrack_connect_unity/ui/publisher.py:215-332 | the callback's calls as the publish specification gives them; it re-raises a connector failure; the widgets are reset only when it reaches the end |
| Publisher.CompletePublish | source/ftrack_connect_unity/ui/publisher.py:255-307 | the steps after the version exists, and raises exactly when the connector raises |
| Publisher.UpdateTaskStatus | source/ftrack_connect_unity/ui/publisher.py:309-324 | the status update as specified |
| UnityConnector.ImportAsset | source/ftrack_connect_unity/connector/unity_connector.py:82-92 | a registered type delegates to its class; any other type only warns |
| UnityConnector.ChangeVersion | source/ftrack_connect_unity/connector/unity_connector.py:121-132 | a registered type delegates; any other type warns and returns False |
| UnityConnector.PublishAsset | source/ftrack_connect_unity/connector/unity_connector.py:95-103 | a registered type delegates with two arguments; any other gives `([], 'assetType not supported')` |
| UnityConnector.ImportAssetAsWritten | source/ftrack_connect_unity/connector/unity_connector.py:82-92 | `importAsset` as written: an unsupported type reaches the undefined `Logger` and raises NameError (`UnsupportedTypeRaisesAsWritten`) |
| UnityConnector.ChangeVersionAsWritten | source/ftrack_connect_unity/connector/unity_connector.py:121-132 | `changeVersion` as written, with the same NameError for an unsupported type (`UnsupportedTypeRaisesAsWritten`) |
| UnityConnector.UnsupportedTypeRaisesAsWritten | source/ftrack_connect_unity/connector/unity_connector.py:82-131 | as written, an unsupported type raises NameError in importAsset and changeVersion; registered types behave as intended |
| UnityConnector.GeometryPublishRaises | source/ftrack_connect_unity/connector/unity_connector.py:95-103 | publishing 'geo' calls a one-argument stub with two arguments |
| UnityConnector.FromGuid | source/ftrack_connect_unity/connector/unity_connector.py:232-256 | `_ftrack_asset_from_guid`: what the metadata makes of a guid (`FromGuidRecognisesMarkedMetadata`) |
| UnityConnector.FromGuidRecognisesMarkedMetadata | source/ftrack_connect_unity/connector/unity_connector.py:232-256 | an asset is recognised exactly when its userData is a JSON object with a truthy version key, as `(componentId, guid)`; a JSON non-object raises |
| UnityConnector.TrackedAssets | source/ftrack_connect_unity/connector/unity_connector.py:106-118 | what `getAssets` returns: the recognised assets in guid order, or the AttributeError (`TrackedAssetsExactlyRecognised`) |
| UnityConnector.GetAssets | source/ftrack_connect_unity/connector/unity_connector.py:106-118 | the loop computes the tracked-assets specification |
| UnityConnector.TrackedAssetsExactlyRecognised | source/ftrack_connect_unity/connector/unity_connector.py:106-118 | the result holds exactly the recognised assets; it raises exactly when some userData is a JSON non-object |
| UnityConnector.FindAsset | source/ftrack_connect_unity/connector/unity_connector.py:135-162 | what `getAsset` returns: the version of the first matching asset (`FindAssetIsFirstDecisive`) |
| UnityConnector.GetAsset | source/ftrack_connect_unity/connector/unity_connector.py:135-162 | the loop computes the find specification |
| UnityConnector.FindAssetIsFirstDecisive | source/ftrack_connect_unity/connector/unity_connector.py:135-162 | None exactly when no tracked version matches name, type and task; otherwise the version of the first match |
| UnityConnector.CandidateGuids | source/ftrack_connect_unity/connector/unity_connector.py:172-183 | the selected asset guids plus the guids of the selected prefab roots with a path and a guid |
| UnityConnector.RecognisedAmong | source/ftrack_connect_unity/connector/unity_connector.py:186-191 | exactly the tracked candidates, with no duplicates |
| UnityConnector.GetSelectedAssets | source/ftrack_connect_unity/connector/unity_connector.py:165-191 | exactly the tracked guids among the candidates, with no duplicates |
| UnityConnector.SelectObjects | source/ftrack_connect_unity/connector/unity_connector.py:193-202 | `selectObjects`: one editor call, none for an empty list (`SelectionCallsOnce`) |
| UnityConnector.SelectionCallsOnce | source/ftrack_connect_unity/connector/unity_connector.py:194-212 | `selectObjects([])` makes no call; otherwise one call; `selectObject(x)` is `selectObjects([x])` |
| UnityConnector.RemoveObject | source/ftrack_connect_unity/connector/unity_connector.py:215-224 | `removeObject`: the deletion of the guid's asset (`RemovalDeletesOnlyOwnAsset`) |
| UnityConnector.RemovalDeletesOnlyOwnAsset | source/ftrack_connect_unity/connector/unity_connector.py:215-224 | deletes the asset at the guid's path, and nothing when that path is empty |
| UnityConnector.IsTaskPartOfShotOrSequence | source/ftrack_connect_unity/connector/unity_connector.py:50-70 | with the last link (a task's own) dropped, true exactly when some remaining link is a Shot or a Sequence; an empty link list raises IndexError |
| UnityAssets.LastSep | source/ftrack_connect_unity/connector/unity_assets.py:45 | the last separator of the platform, if any |
| UnityAssets.FindSep | source/ftrack_connect_unity/connector/unity_assets.py:45 | the first separator at or after a position, with none between that position and it, or -1 when there is none |
| UnityAssets.DriveLength | source/ftrack_connect_unity/connector/unity_assets.py:45 | the drive `ntpath.splitdrive` splits off: `X:` or a UNC root `\\server\share` on Windows, nothing on POSIX; never longer than the path |
| UnityAssets.BaseName | source/ftrack_connect_unity/connector/unity_assets.py:45 | the file name is a suffix of the path, contains no separator and does not reach into the drive |
| UnityAssets.DriveNotInName | source/ftrack_connect_unity/connector/unity_assets.py:45 | after a drive letter and colon the name is what follows the last separator of the rest, even with no separator after the colon |
| UnityAssets.ShareRootHasNoName | source/ftrack_connect_unity/connector/unity_assets.py:45 | a bare UNC share root `\\server\share` names no file |
| UnityAssets.LastDot | source/ftrack_connect_unity/connector/unity_assets.py:46 | the last '.', if any |
| UnityAssets.ExtensionShape | source/ftrack_connect_unity/connector/unity_assets.py:45-46 | the extension is a suffix of the path: empty, or one '.' followed by no other '.' or separator |
| UnityAssets.ImportAsset | source/ftrack_connect_unity/connector/unity_assets.py:32-101 | `importAsset` as intended, with a dialog that chose nothing rejected as an unusable directory (its properties are proved in `ImportChecksInOrder`, `CopyOnlyAfterAllChecks` and `CancelledDialogRaises`) |
| UnityAssets.ImportAssetAsWritten | source/ftrack_connect_unity/connector/unity_assets.py:32-101 | `importAsset` as written, where a cancelled dialog makes `os.path.isdir` raise TypeError (`CancelledDialogRaises`) |
| UnityAssets.ImportChecksInOrder | source/ftrack_connect_unity/connector/unity_assets.py:36-80 | existence, then extension, then directory, then the Assets substring test, each with its own error string; the intended import never raises TypeError |
| UnityAssets.CopyOnlyAfterAllChecks | source/ftrack_connect_unity/connector/unity_assets.py:36-101 | the copy is attempted exactly when all checks pass, from the file into the chosen directory; success exactly when it completes, and only then the database refresh; a copy error other than IOError escapes exactly when the copy raises one |
| UnityAssets.FailCopiesNothing | source/ftrack_connect_unity/connector/unity_assets.py:36-80 | a failed check logs its error string to the logger and the Unity console, returns that string, and neither copies nor refreshes |
| UnityAssets.ImportIntoCopies | source/ftrack_connect_unity/connector/unity_assets.py:63-101 | into a known destination, the copy is attempted exactly when it is a directory under the Assets path; only a completed copy refreshes the database and returns None; an IOError becomes the copy error string, and any other copy error escapes |
| UnityAssets.AssetsTestIsSubstring | source/ftrack_connect_unity/connector/unity_assets.py:72-74 | every existing directory whose path contains the absolute Assets path anywhere is copied into, a sibling such as `Assets_backup` included |
| UnityAssets.CancelledDialogRaises | source/ftrack_connect_unity/connector/unity_assets.py:56-69 | as written, a cancelled or empty directory dialog raises TypeError; the corrected import returns the directory error; otherwise the two agree |
| UnityAssets.DriveRelativeDotFileRejected | source/ftrack_connect_unity/connector/unity_assets.py:44-51 | on Windows an existing `C:.xyz`-style path names a file that is only a leading dot and a suffix, which has no extension, so the import stops at the extension check with an empty extension |
| UnityAssets.LeadingDotName | source/ftrack_connect_unity/connector/unity_assets.py:45-46 | a name of one leading dot and no further dot or separator has no extension |
| UnityAssets.ExtensionCheckFails | source/ftrack_connect_unity/connector/unity_assets.py:44-51 | an existing file whose extension is not `.fbx` in any ASCII case is rejected with the extension error and nothing else happens |
| UnityAssets.PublishStub | source/ftrack_connect_unity/connector/unity_assets.py:110-114 | the stub returns None for at most one argument and raises otherwise |
| UnityAssets.ChangeVersionStub | source/ftrack_connect_unity/connector/unity_assets.py:103-108 | `changeVersion` of the geometry type does nothing and returns None |
| UnityAssets.AssetHandler.constructor | source/ftrack_connect_unity/connector/unity_assets.py:148 | no registered type |
| UnityAssets.AssetHandler.AssetClass | source/ftrack_connect_unity/connector/unity_assets.py:148-149 | the class registered for a type, if any |
| UnityAssets.AssetHandler.RegisterAssetType | source/ftrack_connect_unity/connector/unity_assets.py:149 | registers or replaces one type |
| UnityAssets.AssetHandler.RegisterAssetTypes | source/ftrack_connect_unity/connector/unity_assets.py:147-149 | registers only 'geo', as the geometry type |
| PythonSettingsEditor.Message | resource/packages/com.unity.scripting.python/Editor/PythonRunner.cs:22 | the install message is 'Python Net: ', the base message, then the troubleshooting hint |
| PythonSettingsEditor.PythonSettings.constructor | resource/packages/com.unity.scripting.python/Editor/PythonSettingsEditor.cs:43-68 | no interpreter, 1000 ms timeout, no site-packages |
| PythonSettingsEditor.PythonSettings.PythonInterpreter | resource/packages/com.unity.scripting.python/Editor/PythonSettingsEditor.cs:11-40 | the stored interpreter, or the platform default for null or empty |
| PythonSettingsEditor.PythonSettings.SitePackages | resource/packages/com.unity.scripting.python/Editor/PythonSettingsEditor.cs:78-89 | a fresh array: empty when nothing is stored, otherwise equal to the stored one |
| PythonSettingsEditor.WhereIs | resource/packages/com.unity.scripting.python/Editor/PythonSettingsEditor.cs:98-137 | with no in-process failure it always returns, and when it throws the exception is the in-process initialisation's |
| PythonSettingsEditor.WhereIsFinds | resource/packages/com.unity.scripting.python/Editor/PythonSettingsEditor.cs:98-137 | null or empty comes back unchanged, anything else as a string; a name with a separator never throws, and a non-empty answer is its full path with the file existing, '' when it is missing; a bare name throws exactly when the in-process initialisation does, and otherwise a non-empty answer is what the PATH search found and '' means it found nothing |
| PythonSettingsEditor.ExpandHomeShape | resource/packages/com.unity.scripting.python/Editor/PythonSettingsEditor.cs:108-117 | only off Windows, with a non-empty HOME, does a leading '~' become HOME + '/' + rest |
| PythonSettingsEditor.ProbeInterpreter | resource/packages/com.unity.scripting.python/Editor/PythonSettingsEditor.cs:152-211 | the body of validation's `try`: an install exception for an empty setting, a missing executable, a timeout, a non-zero exit or a wrong version, the lookup's or the start's exception passed on, and otherwise the trimmed version (`ProbeSucceedsExactly`) |
| PythonSettingsEditor.ValidatePythonInterpreter | resource/packages/com.unity.scripting.python/Editor/PythonSettingsEditor.cs:150-225 | the version, or on failure '' without `throwErrors` and with it the exception, an install exception unchanged and any other wrapped (`ValidationAcceptsOnlyRequiredVersion`, `ValidationFailureModes`) |
| PythonSettingsEditor.ValidationAcceptsOnlyRequiredVersion | resource/packages/com.unity.scripting.python/Editor/PythonSettingsEditor.cs:150-210 | a version is reported exactly when the name is non-empty, is located, and the run exits with 0 and trimmed output starting with '2.7'; that output is returned |
| PythonSettingsEditor.ValidationFailureModes | resource/packages/com.unity.scripting.python/Editor/PythonSettingsEditor.cs:212-225 | without throwing, a failure returns ''; with throwing, an install exception passes through and any other is wrapped as its inner exception |
| PythonSettingsEditor.ValidationThrowsOwnReasons | resource/packages/com.unity.scripting.python/Editor/PythonSettingsEditor.cs:150-225 | once the in-process API is initialised, every exception validation throws is an install exception with one of validation's own reasons |
| PythonSettingsEditor.ProbeSucceedsExactly | resource/packages/com.unity.scripting.python/Editor/PythonSettingsEditor.cs:150-210 | the probe yields a version exactly when the interpreter is located, exits with 0 within the timeout and prints a version that, trimmed, starts with '2.7'; that version is the trimmed output; a lookup that throws ends the probe with its exception |
| PythonSettingsEditor.InProcessFailureDuringLookup | resource/packages/com.unity.scripting.python/Editor/PythonSettingsEditor.cs:128-225 | a bare interpreter name whose lookup needs the in-process initialisation, when that fails with an install exception, validates to '' without `throwErrors` and rethrows that exception unchanged with it |
| PythonSettingsEditor.SettingsEditor.constructor | resource/packages/com.unity.scripting.python/Editor/PythonSettingsEditor.cs:300-302 | nothing set, no install error |
| PythonSettingsEditor.SettingsEditor.SetPythonInterpreter | resource/packages/com.unity.scripting.python/Editor/PythonSettingsEditor.cs:308-349 | the same value returns the cached version and changes nothing; an empty value is always stored and validates the default; a non-empty value is stored only if it validates; the install error and log follow the validation |
| PythonSettingsEditor.StoredOnlyIfValid | resource/packages/com.unity.scripting.python/Editor/PythonSettingsEditor.cs:333-346 | a non-empty value validates exactly when probing succeeds, and then its version starts with '2.7' |
| PythonSettingsEditor.ShortPythonVersion | resource/packages/com.unity.scripting.python/Editor/PythonSettingsEditor.cs:351-369 | '' for empty input, the whole string without a space, else the prefix before the first space |
| PythonSettingsEditor.ShortVersionOfBuildString | resource/packages/com.unity.scripting.python/Editor/PythonSettingsEditor.cs:351-369 | a version followed by a space and build details shortens to the version |
| PythonRunner.SettingsEntries | resource/packages/com.unity.scripting.python/Editor/PythonRunner.cs:318-323 | one normalised entry per settings entry, in order |
| PythonRunner.GetExtraSitePackages | resource/packages/com.unity.scripting.python/Editor/PythonRunner.cs:293-326 | returns the site-packages specification: package directory, project directory when it exists, settings entries |
| PythonRunner.NormaliseEach | resource/packages/com.unity.scripting.python/Editor/PythonRunner.cs:318-323 | the loop over the settings entries makes each absolute with forward slashes, in order |
| PythonRunner.ExtraSitePackagesOrder | resource/packages/com.unity.scripting.python/Editor/PythonRunner.cs:293-326 | the package directory, then the project directory only if it exists, then the settings entries, all with '/' separators |
| PythonRunner.InProcessVersionError | resource/packages/com.unity.scripting.python/Editor/PythonRunner.cs:258-261 | the engine version check (`InProcessVersionChecks`) |
| PythonRunner.InProcessVersionChecks | resource/packages/com.unity.scripting.python/Editor/PythonRunner.cs:258-261 | no error exactly when the trimmed engine version starts with '2.7'; otherwise an install exception naming the engine's version |
| PythonRunner.RpycProbeOutcomes | resource/packages/com.unity.scripting.python/Editor/PythonRunner.cs:411-442 | the probe passes exactly on exit code 0; a failed spawn or non-zero exit gives an install exception ('Please install rpyc in …') |
| PythonRunner.OutOfProcessError | resource/packages/com.unity.scripting.python/Editor/PythonRunner.cs:356-442 | the out-of-process checks in source order: validation, the version, the server-side import of rpyc, then the client probe (`OutOfProcessChecks`) |
| PythonRunner.OutOfProcessChecks | resource/packages/com.unity.scripting.python/Editor/PythonRunner.cs:351-447 | out-of-process set-up succeeds exactly when the interpreter validates, rpyc imports on the server side and the probe exits 0; every failure is an install exception except a failed server-side import, whose `PythonException` escapes unwrapped |
| PythonRunner.ServerRpycCheckNeverFires | resource/packages/com.unity.scripting.python/Editor/PythonRunner.cs:363-374 | the out-of-process checks never raise 'Install rpyc where the system Python can find it.' themselves; only a client probe that throws that exception can pass it on |
| PythonRunner.ServerToldValidatedInterpreter | resource/packages/com.unity.scripting.python/Editor/PythonRunner.cs:383-384 | when the server-side checks pass, the server is told a non-empty client interpreter: the one `WhereIs` located for the validated setting, whose probe succeeded |
| PythonRunner.InProcessAtMostOnce | resource/packages/com.unity.scripting.python/Editor/PythonRunner.cs:228-286 | a successful in-process set-up puts the extra site-packages ahead of sys.path once, a failed one leaves sys.path alone, and PYTHONDONTWRITEBYTECODE is '1' whichever way it went |
| PythonRunner.OutOfProcessSetupError | resource/packages/com.unity.scripting.python/Editor/PythonRunner.cs:335-447 | none once initialised; otherwise the in-process set-up's error, else the out-of-process checks' (`OutOfProcessSetupChecks`) |
| PythonRunner.OutOfProcessSetupChecks | resource/packages/com.unity.scripting.python/Editor/PythonRunner.cs:335-447 | out-of-process initialisation succeeds exactly when it was done before, or the in-process set-up, validation, the rpyc import and the probe all pass; every failure is an install exception or the failed import's `PythonException` |
| PythonRunner.SetUpAfter | resource/packages/com.unity.scripting.python/Editor/PythonRunner.cs:228-447 | the flags, environment, sys.path and server settings after out-of-process initialisation (`SetUpAfterInitialised`, `SetUpAfterSuccess`) |
| PythonRunner.SetUpAfterInitialised | resource/packages/com.unity.scripting.python/Editor/PythonRunner.cs:337-340 | once both APIs are initialised, out-of-process initialisation changes nothing |
| PythonRunner.SetUpAfterSuccess | resource/packages/com.unity.scripting.python/Editor/PythonRunner.cs:351-447 | a successful initialisation leaves the in-process API initialised and the server told the validated client interpreter and the extra site-packages; one that stops at the in-process set-up leaves sys.path and the server settings alone |
| PythonRunner.StartServerCodeDeterminesArgument | resource/packages/com.unity.scripting.python/Editor/PythonRunner.cs:114-129 | the start code determines the embedded argument, and a null path ('None') differs from any path |
| PythonRunner.StopServerCodeDistinguishes | resource/packages/com.unity.scripting.python/Editor/PythonRunner.cs:145 | 'True' and 'False' give different stop codes |
| PythonRunner.CallServiceCodeIsVerbatim | resource/packages/com.unity.scripting.python/Editor/PythonRunner.cs:204-208 | the service name and arguments are embedded verbatim, so different calls can give the same code |
| PythonRunner.CheckScriptPath | resource/packages/com.unity.scripting.python/Editor/PythonRunner.cs:78-88 | the script path checks (`CheckScriptPathOutcomes`) |
| PythonRunner.CheckScriptPathOutcomes | resource/packages/com.unity.scripting.python/Editor/PythonRunner.cs:78-88 | null throws ArgumentNullException; slashes are normalised before the existence check; a missing file throws FileNotFoundException |
| PythonRunner.Runner.constructor | resource/packages/com.unity.scripting.python/Editor/PythonRunner.cs:237 | both flags clear, nothing executed |
| PythonRunner.Runner.EnsureInProcessInitialized | resource/packages/com.unity.scripting.python/Editor/PythonRunner.cs:228-237 | runs once: with the flag set nothing changes; otherwise the set-up runs, the flag is set only when it raised nothing, and the environment and sys.path are as the set-up leaves them |
| PythonRunner.Runner.DoEnsureInProcessInitialized | resource/packages/com.unity.scripting.python/Editor/PythonRunner.cs:244-286 | sets PYTHONDONTWRITEBYTECODE, fails on the wrong engine version, and otherwise puts the extra site-packages ahead of sys.path |
| PythonRunner.Runner.EnsureOutOfProcessInitialized | resource/packages/com.unity.scripting.python/Editor/PythonRunner.cs:335-344 | runs once; its error is the set-up error, the flag is set only when the set-up raised nothing, and the in-process flag, environment, sys.path and server settings are those `SetUpAfter` gives |
| PythonRunner.Runner.DoEnsureOutOfProcessInitialized | resource/packages/com.unity.scripting.python/Editor/PythonRunner.cs:351-447 | the in-process set-up runs first; its error, or else the out-of-process checks' error, is the result; the new state is the one `SetUpAfter` gives |
| PythonRunner.Runner.ConfigureServer | resource/packages/com.unity.scripting.python/Editor/PythonRunner.cs:356-447 | validation failure, an unusable version, then a failed server-side import of rpyc are errors in that order, the last one the import's own exception; only past them is the server given the interpreter and the site-packages, and the client probe decides |
| PythonRunner.Runner.RunString | resource/packages/com.unity.scripting.python/Editor/PythonRunner.cs:52-69 | runs the code only after in-process set-up succeeds; flag, environment and sys.path as that set-up leaves them |
| PythonRunner.Runner.RunFile | resource/packages/com.unity.scripting.python/Editor/PythonRunner.cs:75-104 | set-up, then the path checks, then the file runs with forward slashes; flag, environment and sys.path as the set-up leaves them |
| PythonRunner.Runner.RunFileOnClient | resource/packages/com.unity.scripting.python/Editor/PythonRunner.cs:177-197 | out-of-process set-up, then the path checks, then the client run code; the error is the first that occurs, and the state is the one `SetUpAfter` gives |
| PythonRunner.Runner.StartServer | resource/packages/com.unity.scripting.python/Editor/PythonRunner.cs:110-135 | runs the start code exactly when out-of-process set-up succeeded; the error is the set-up error and the state the one `SetUpAfter` gives |
| PythonRunner.Runner.StopServer | resource/packages/com.unity.scripting.python/Editor/PythonRunner.cs:141-147 | runs the stop code exactly when out-of-process set-up succeeded; the error is the set-up error and the state the one `SetUpAfter` gives |
| PythonRunner.Runner.CallServiceOnClient | resource/packages/com.unity.scripting.python/Editor/PythonRunner.cs:204-210 | runs the call code exactly when out-of-process set-up succeeded; the error is the set-up error and the state the one `SetUpAfter` gives |
| UnityMenus.Blocks | source/ftrack_connect_unity/ui/unity_menus.py:78-85 | one block per entry |
| UnityMenus.BlocksNumbered | source/ftrack_connect_unity/ui/unity_menus.py:78-85 | the block at position i is the i-th entry's, numbered from the start index without gaps |
| UnityMenus.BlocksAppend | source/ftrack_connect_unity/ui/unity_menus.py:78-85 | one more entry adds its block, numbered after the others, at the end |
| UnityMenus.GenerateSection | source/ftrack_connect_unity/ui/unity_menus.py:76-85 | the loop concatenates the blocks numbered 0, 1, 2, … |
| UnityMenus.Generate | source/ftrack_connect_unity/ui/unity_menus.py:76-88 | the script is the template around the section of the four menu entries |
| UnityMenus.MenuBlockCarriesItem | source/ftrack_connect_unity/ui/unity_menus.py:41-47 | each block holds `MenuItem("ftrack/<menu name>")`, `ShowDialog<index>()` and the quoted dialog name |
| UnityMenus.ScriptEmbedsSectionOnce | source/ftrack_connect_unity/ui/unity_menus.py:27-88 | the section sits once between the fixed head and tail, so the script determines the section |
| UnityMenus.PublishMenuOpensNoClientDialog | source/ftrack_connect_unity/ui/unity_menus.py:20-25 | of the four menu entries, the ftrack-process client service opens a dialog for all but 'Publish' |
| DiscoverIntegration.OnDiscover | resource/hook/discover_integration.py:14-24 | name 'ftrack-connect-unity-engine', the package version, no environment |
| DiscoverIntegration.SelectionOf | resource/hook/discover_integration.py:43 | a missing context or selection reads as the empty selection |
| DiscoverIntegration.AttributeOr | resource/hook/discover_integration.py:49-50 | the attribute if present, else the default |
| DiscoverIntegration.OnLaunch | resource/hook/discover_integration.py:27-52 | always the five base keys; the four task keys exactly when the selection is non-empty, from the first selected task and its parent, with FS/FE defaulting to '1.0'/'100.0' |
| DiscoverIntegration.PythonPathSplitsBack | resource/hook/discover_integration.py:36 | PYTHONPATH splits back into the package directory then `sources` |
| DiscoverIntegration.Register | resource/hook/discover_integration.py:54-80 | nothing for a non-Session argument; otherwise the discover and launch subscriptions, in that order, for Unity applications |
| DiscoverIntegration.TopicFilterInjective | resource/hook/discover_integration.py:65-78 | the subscription text determines the topic, so the discover and launch subscriptions never answer the same event |
| DiscoverIntegration.SubscriptionsAreDistinct | resource/hook/discover_integration.py:65-80 | the two subscriptions filter on different topics |

## Left out

- Qt dialogs, widgets, layouts, the file dialog's own behaviour and the progress bar contents beyond the values set; these are UI. The directory dialog is an input: cancelled, or the selected files.
- The rpyc transport, Python.NET (GIL, `Exec`, module import), process launching and main-thread marshalling. Their outcomes are inputs: socket error, EOF, exit code, output text, a spawn that fails.
- The tracking-server and Unity editor APIs. They are functions given to the model (task lookup, asset metadata, prefab roots, guid paths) and calls in an effect log (create asset, make reviewable, set status, delete asset).
- The registry enumeration and the file-system searches (`_searchFilesystem`, secondary install paths, standard paths). Their results are an input list of candidates, and path existence is a predicate. A registry that cannot be opened is None, so a failure part way through enumeration is not modelled.
- `ntpath.join` is modelled only for a relative second part without a drive, which is the only kind the hook passes.
- `json.load` of `editors.json` and of `defaultEditor.json`. The first is an input (no file, not a dict, or its entries), and the second is the preferred string if it is one.
- The JSON `userData` of a Unity asset is kept only to the depth the connector reads. Lists and nested objects keep just their size, which is what Python truthiness needs.
- Writing the menu script, the assembly definition and the README file, and `AssetDatabase.Refresh` in `generate`.
- `_sync_recorder_values`, `_initialize_ftrack` and the client main loop with its sleeps. The clock is an integer number of milliseconds given to each call.
- `RunStringOnClient` (PythonRunner.cs:153-171). It is not one of the modelled operations, and it differs from `RunFileOnClient` only in the code string it builds.
- The settings singleton (`instance`), loading and saving of the settings asset, the settings GUI, and the shutdown and quit handlers of the runner.
- `WhereIs` models the PATH search (`which`) as a function. It does not model .NET path exceptions, and it takes the full path of a relative path from the host.
- `WhereIs` on a bare name runs `EnsureInProcessInitialized` first. The settings model takes only that call's outcome, the exception it throws or none, as an input. Its effect on the runner's flags, environment and sys.path is modelled by `PythonRunner.Runner.EnsureInProcessInitialized`. The out-of-process set-up looks the interpreter up only after the in-process set-up has succeeded, so there the outcome is none.
- `os.path.split` on Windows splits off the drive as `ntpath.splitdrive` does from Python 2.7.8 on, UNC roots included. Older 2.7 releases, which split off only `X:`, are not modelled.
- The copy's failure modes are inputs: it completes, raises IOError (with its text), or raises another error (`shutil.Error`, an `OSError` from `copystat`), which escapes `importAsset`.
- Importing the connector modules as written fails. `unity_assets.py:6` and `ftrack_client_init.py:16` import `Logger` from `unity_connector`, which defines only `_logger`. The model treats `Logger` as that logger everywhere except at the two unsupported-type warnings, where the finding below shows the effect of the missing name.
- `unity_menus.py:11` imports `UnityEngine` and `UnityEditor` from `unity_connector`, which defines only `GetUnityEngine` and `GetUnityEditor`. So `ui.unity_menus` does not import as written, and neither does `ftrack_client.py`, which imports it at line 12. The model reads the `UnityEngine()` and `UnityEditor()` calls of `generate` (lines 91 and 122) as `GetUnityEngine()` and `GetUnityEditor()`, which is what they evidently intend.
- `FtrackClient.ClientSession.ShowDialog`: `setWindowTitle` and `show` are taken not to raise. In the source the Publish slot is set (line 121) before `show` runs (line 131), so a raising `show` would leave the slot pointing at a dialog that is not in `_dialogs`.
- Publisher.PublishDialog.constructor: the attributes start as None in the source. The model uses '', which Python's truthiness tests treat the same way.
- UnityAssets.ImportAsset: the file extension is compared with `'.fbx'` after ASCII lower-casing only. Non-ASCII case folding is not modelled.
- `ping_server` in the session class is the corrected one. The written one is kept as a function for the finding below.
- The hook's `print` statements and all debug logging are left out.

## Findings

| source | as written | input that shows it | evidently intended | confidence | as-written member | corrected member |
|---|---|---|---|---|---|---|
| resource/scripts/ftrack_client.py:214 | `except PingError, EOFError:` is the Python 2 form of `except PingError as EOFError`, so an EOFError is not caught: it escapes `ping_server` and the main loop, and `last_ping_time` is not reset | a connection whose `async_request` raises EOFError more than 1 s after the last ping (`PingAsWritten(1001, 0, true, RaisesEndOfFile).escapes`) | both errors swallowed, as the comment says, and the clock reset | high, not executed | FtrackClient.PingAsWritten | FtrackClient.Ping |
| source/ftrack_connect_unity/connector/unity_connector.py:92, 131 | the unsupported-type branches of `importAsset` and `changeVersion` call `Logger.warning`, but the module defines only `_logger` | any asset type not registered, for instance 'img' with only 'geo' registered | warn on `_logger`; `changeVersion` then returns False | high, not executed | UnityConnector.ImportAssetAsWritten | UnityConnector.ImportAsset |
| source/ftrack_connect_unity/connector/unity_assets.py:56-69 | a cancelled directory dialog returns None and a dialog with nothing selected returns `[]`; either is passed to `os.path.isdir`, which raises TypeError instead of returning the directory error | an existing `.fbx` file and a cancelled dialog | reject with the 'cannot import into the chosen directory' error | medium (depends on the Python 2 `isdir`), not executed | UnityAssets.ImportAssetAsWritten | UnityAssets.ImportAsset |

The lemmas that show each discrepancy are `FtrackClient.PingAsWrittenLetsEndOfFileEscape`, `UnityConnector.UnsupportedTypeRaisesAsWritten` (which also covers `ChangeVersionAsWritten` and `ChangeVersion`) and `UnityAssets.CancelledDialogRaises`. The intended behaviour is proved by `FtrackClient.PingSendsOnlyAfterInterval`, the contracts of `UnityConnector.ImportAsset` and `UnityConnector.ChangeVersion`, and `UnityAssets.ImportChecksInOrder`.

Other behaviour the proofs bring out:

- Publishing a 'geo' asset calls the one-argument stub with two arguments (`UnityConnector.GeometryPublishRaises`).
- The Assets check is a substring test, so a sibling directory such as `Assets_backup` passes (`UnityAssets.AssetsTestIsSubstring`).
- `CallServiceOnClient` embeds its arguments verbatim, so `("a,b", "c")` and `("a", "b,c")` run the same code (`PythonRunner.CallServiceCodeIsVerbatim`).
- The empty-version check in out-of-process set-up can never fail: by then validation has either thrown or returned a version (`PythonRunner.OutOfProcessChecks`).
- The server-side rpyc check in out-of-process set-up (PythonRunner.cs:368-373) can never fail: `ImportModule` returns a module, which is always truthy, or throws. A missing rpyc therefore surfaces as Python.NET's `PythonException`, not as the 'Install rpyc where the system Python can find it.' install exception (`PythonRunner.ServerRpycCheckNeverFires`).
- The Publish menu entry opens nothing in the client service of the ftrack process (`UnityMenus.PublishMenuOpensNoClientDialog`).
