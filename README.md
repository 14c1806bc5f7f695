# ADBManager: device discovery, photo sync and reconnection, in Dafny

ADBManager is a macOS app that copies photos from an Android phone. An XPC service runs the
Android Debug Bridge. It lists attached devices, reads their properties, lists folders and
photos, and pulls photos into a destination folder while it keeps a progress snapshot. The
app's view-model polls the service. It shows the devices and the sync progress. When a sync
fails because the phone went away, it runs a reconnection state machine.

This project is a model of that logic, with proofs about it. It models three revisions of
the service and two of the view-model.

| module | file | models |
|---|---|---|
| `Wrappers` | wrappers.dfy | Swift optionals (`Option`) and thrown errors (`Result`) |
| `Text` | text.dfy | the Foundation string operations the parsers use: `contains`, `components(separatedBy:)`, trimming, `replacingOccurrences`, `lowercased`, `capitalized`, `lastPathComponent`, `pathExtension`, integer interpolation |
| `Ordering` | ordering.dfy | string `<`, `sorted()` and `Array(Set(_)).sorted()` |
| `AdbUtilities` | adb_utilities.dfy | `ADBError` and its descriptions, and the lookup of the bundled adb |
| `ServiceErrors` | service_errors.dfy | `ADBServiceError` and its descriptions |
| `Devices` | devices.dfy | `Device`, `DeviceState`, display names, and the archive |
| `AndroidDevices` | android_devices.dfy | the earlier app-side `AndroidDevice` |
| `FolderItems` | folder_items.dfy | `FolderItem` |
| `Wire` | wire.dfy | what crosses the XPC connection: dictionaries, progress, completion replies |
| `AdbProcess` | adb_process.dfy | the adb executable, `runADBCommand`, and the destination folder |
| `AdbParsing` | adb_parsing.dfy | `parseADBOutput` and `parseBatteryLevel`, which all three services share |
| `SyncRun` | sync_run.dfy | the photo-sync loop as a function, and what it computes |
| `ServiceImplementation` | service_implementation.dfy | the live service: a class with the cache, the adb path and the progress fields |
| `LegacyImplementation` | legacy_implementation.dfy | the earlier service under `Implementation/` |
| `EarliestService` | earliest_service.dfy | the first service, `ADBServiceXPC` |
| `Client` | client.dfy | `ADBServiceClient`: replies to results, dictionaries to `FolderItem`s |
| `ViewModel` | view_model.dfy | the live view-model as a class, plus the reconnection panel's Cancel button |
| `LegacyViewModel` | legacy_view_model.dfy | the earlier view-model |

The model takes the outside world as input:

- The adb executable is a function `Adb` from an argument vector to a `ProcessResult`. A
  `ProcessResult` holds a launch error, an exit status, and stdout and stderr, each decoded
  or not.
- The bundle and the chmod outcome are a `Host`.
- The destination folder is a `DestinationFolder` object. It holds whether the folder
  exists, its file names, and the error its creation would raise.
- The view-model is driven by what each client call returned. The progress loop's reads
  while a sync runs are a sequence of snapshots.

The sync loop is specified once, as `SyncRun.Run`. It takes the files, the names already at
the destination, and the pull of each file. Both service classes are proved to compute it.
The lemmas of `SyncRun` then say what it computes, against independent reference
definitions (`ToPull`, `UpToFailure`, `FirstFailure`).

## Model

| member | source | states |
|---|---|---|
| Text.Split | XPCLibrary/Sources/XPCLibrary/ADBServiceImplementation.swift:296 | there is always at least one component, and no component holds a separator |
| Text.SplitAtSeparator | XPCLibrary/Sources/XPCLibrary/ADBServiceImplementation.swift:296 | the first component runs up to the first separator, and the rest is split again |
| Text.SplitWithoutSeparator | XPCLibrary/Sources/XPCLibrary/ADBServiceImplementation.swift:296 | text without a separator is one component |
| Text.Lines | XPCLibrary/Sources/XPCLibrary/ADBServiceImplementation.swift:293 | no line holds a newline character |
| Text.Contains | XPCLibrary/Sources/XPCLibrary/ADBServiceImplementation.swift:310 | definition: an occurrence of the text at some index; what the markers it tests for classify is stated by ViewModel.NoMarkerWithout, the *NotDisconnection lemmas and ServiceImplementation.PullPhoto |
| Text.NonEmpty | XPCLibrary/Sources/XPCLibrary/ADBServiceImplementation.swift:60 | exactly the non-empty strings of the input, no more of them than there are inputs, and input without an empty string unchanged |
| Text.NonEmptyAppend | XPCLibrary/Sources/XPCLibrary/ADBServiceImplementation.swift:60 | dropping empty strings distributes over concatenation, so order and repeats are kept |
| Text.Trim | XPCLibrary/Sources/XPCLibrary/ADBServiceImplementation.swift:289 | the result neither starts nor ends with a dropped character, and text without one is unchanged |
| Text.TrimIsPiece | XPCLibrary/Sources/XPCLibrary/ADBServiceImplementation.swift:289 | the trimmed text is a contiguous piece of the input, and everything cut off on either side is a dropped character |
| Text.ReplaceChar | XPCLibrary/Sources/XPCLibrary/ADBServiceImplementation.swift:158 | text without the character is unchanged |
| Text.ReplaceCharAppend | XPCLibrary/Sources/XPCLibrary/ADBServiceImplementation.swift:158 | replacing distributes over concatenation |
| Text.Lower | XPCLibrary/Sources/XPCLibrary/Implementation/ADBServiceImplementation.swift:376 | every character is lower-cased in place, and the length is kept |
| Text.CapitalizedWord | ADBManager/AndroidDevice.swift:24 | `capitalized` of one word keeps its length; AndroidDevices.DisplayNameByState states the words it gives |
| Text.LastPathComponent | XPCLibrary/Sources/XPCLibrary/ADBServiceImplementation.swift:63 | the component is empty exactly when the path is |
| Text.LastPathComponentOfChild | XPCLibrary/Sources/XPCLibrary/ADBServiceImplementation.swift:63 | the last component of dir + "/" + name is name, for a name without a slash |
| Text.PathExtension | XPCLibrary/Sources/XPCLibrary/Implementation/ADBServiceImplementation.swift:376 | an extension holds no dot, and a non-empty one comes from a last component with a dot |
| Text.PathExtensionOfName | XPCLibrary/Sources/XPCLibrary/Implementation/ADBServiceImplementation.swift:376 | the extension of stem.ext is ext |
| Text.Decimal | ADBManager/Services/ADBService.swift:225-231 | the digits of the absolute value, behind a minus sign for a negative number |
| Text.NaturalDecimalReadsBack | ADBManager/Services/ADBService.swift:225-231 | reading the printed digits back gives the number |
| Text.DecimalInjective | ADBManager/Services/ADBService.swift:225-231 | different numbers print differently |
| Ordering.Less | XPCLibrary/Sources/XPCLibrary/ADBServiceImplementation.swift:435 | definition: Swift's string `<` as the lexicographic order of characters; LessTransitive and LessTotal state that it is a strict total order |
| Ordering.LessTransitive | XPCLibrary/Sources/XPCLibrary/ADBServiceImplementation.swift:73-77 | string order is transitive |
| Ordering.LessTotal | XPCLibrary/Sources/XPCLibrary/ADBServiceImplementation.swift:73-77 | of two different strings, one is less than the other |
| Ordering.InsertDistinct | XPCLibrary/Sources/XPCLibrary/ADBServiceImplementation.swift:435 | inserting into a strictly increasing list keeps it strictly increasing, and adds exactly the new element |
| Ordering.SortedDistinct | XPCLibrary/Sources/XPCLibrary/ADBServiceImplementation.swift:435 | the result is strictly increasing and has exactly the input's elements |
| Ordering.StrictlyIncreasingUnique | XPCLibrary/Sources/XPCLibrary/ADBServiceImplementation.swift:435 | two strictly increasing lists with the same elements are equal, so the result does not depend on how the set is sorted |
| Ordering.InsertSorted | XPCLibrary/Sources/XPCLibrary/Implementation/ADBServiceImplementation.swift:464 | inserting into a sorted list keeps it sorted and adds one copy of the element |
| Ordering.Sort | XPCLibrary/Sources/XPCLibrary/Implementation/ADBServiceImplementation.swift:464 | the result is sorted and is a permutation of the input |
| Ordering.SortedUnique | XPCLibrary/Sources/XPCLibrary/Implementation/ADBServiceImplementation.swift:464 | two sorted permutations of the same list are equal, so the result does not depend on the sort algorithm |
| AdbUtilities.ErrorDescription | XPCLibrary/Sources/XPCLibrary/Utilities/ADBUtilities.swift:44-55 | every case has a description, and a command failure's description is "ADB command failed: " followed by its message |
| AdbUtilities.CommandFailedDescriptionInjective | XPCLibrary/Sources/XPCLibrary/Utilities/ADBUtilities.swift:50-51 | command failures with different messages have different descriptions |
| AdbUtilities.ErrorDescriptionsDistinct | XPCLibrary/Sources/XPCLibrary/Utilities/ADBUtilities.swift:44-55 | different errors never share a description, including the two fixed texts |
| AdbUtilities.DeviceDisconnectedMentionsIt | XPCLibrary/Sources/XPCLibrary/Utilities/ADBUtilities.swift:52-53 | the disconnection's description contains "disconnected" |
| AdbUtilities.Description | XPCLibrary/Sources/XPCLibrary/ADBServiceImplementation.swift:131 | definition: the `localizedDescription` of a thrown error, the ADBError description or the system error's own text; ServiceImplementation.ToReply and PullErrorDescriptions state what crosses the connection |
| AdbUtilities.LocateAdb | XPCLibrary/Sources/XPCLibrary/Utilities/ADBUtilities.swift:16-25 | definition: adbNotFound without the resource, the chmod error when there is one, otherwise the bundled path; ServiceImplementation.Located, CacheAfter and GetADBPath state its use |
| ServiceErrors.ErrorDescription | XPCLibrary/Sources/XPCLibrary/ADBServiceError.swift:11-20 | every case has a description, and xpcError reports its message verbatim |
| ServiceErrors.FixedDescriptionsDistinct | XPCLibrary/Sources/XPCLibrary/ADBServiceError.swift:13-16 | noConnection and serviceUnavailable differ, and xpcError(m) reads like noConnection exactly when m is its text |
| Devices.StateFromRaw | XPCLibrary/Sources/XPCLibrary/Device.swift:96-103 | never nil: "device", "offline" and "unauthorized" give their states, and every other string gives Unknown |
| Devices.RawValue | XPCLibrary/Sources/XPCLibrary/Device.swift:79-86 | the raw value reads back as the state it came from |
| Devices.StateRawRoundTrip | XPCLibrary/Sources/XPCLibrary/Device.swift:79-86 | reading a state's raw value back gives the state, for all four states |
| Devices.RawValueOfKnownState | XPCLibrary/Sources/XPCLibrary/Device.swift:79-86 | a string that names a known state is that state's raw value |
| Devices.StateDisplayName | XPCLibrary/Sources/XPCLibrary/Device.swift:88-94 | "Connected" exactly for a connected device, "Awaiting Pairing" exactly for unauthorized, and "Not Connected" exactly for offline and unknown |
| Devices.NewDevice | XPCLibrary/Sources/XPCLibrary/Device.swift:23-27 | the id and the parsed state, and all five details nil |
| Devices.DisplayName | XPCLibrary/Sources/XPCLibrary/Device.swift:29-39 | the model when set and not empty, else the manufacturer when set and not empty, else the id |
| Devices.Encode | XPCLibrary/Sources/XPCLibrary/Device.swift:61-70 | always the id and the state's raw value; each detail key exactly when the detail is set; no other key |
| Devices.Decode | XPCLibrary/Sources/XPCLibrary/Device.swift:45-59 | nil exactly when "id" or "state" is missing; otherwise the id, the parsed state, and each detail as the archive holds it |
| Devices.DecodeEncode | XPCLibrary/Sources/XPCLibrary/Device.swift:45-70 | decoding an encoded device gives it back, nil details included |
| Devices.DecodeUnrecognisedState | XPCLibrary/Sources/XPCLibrary/Device.swift:46-51 | an archive whose state string names no state decodes to an Unknown device |
| AndroidDevices.NewAndroidDevice | ADBManager/AndroidDevice.swift:17-21 | the id; the state is Unknown exactly for a string that names no state, and otherwise has that string as raw value |
| AndroidDevices.DisplayName | ADBManager/AndroidDevice.swift:23-26 | the id followed by " - " and a state word, which is "Connected" exactly for a connected device |
| AndroidDevices.DisplayNameByState | ADBManager/AndroidDevice.swift:23-26 | the id, " - ", then "Connected", "Offline", "Unauthorized" or "Unknown" according to the state |
| AndroidDevices.DisplayNameStartsWithId | ADBManager/AndroidDevice.swift:23-26 | the display name is longer than the id and starts with it |
| AndroidDevices.Encode | ADBManager/AndroidDevice.swift:42-45 | exactly the keys "id" and "state", holding the id and the raw value |
| AndroidDevices.Decode | ADBManager/AndroidDevice.swift:32-40 | nil exactly when "id" or "state" is missing |
| AndroidDevices.DecodeEncode | ADBManager/AndroidDevice.swift:32-45 | decoding an encoded device gives it back |
| AndroidDevices.DecodeLaterArchive | ADBManager/AndroidDevice.swift:32-40 | an archive written by the later `Device` decodes here to the same id and state |
| FolderItems.Id | XPCLibrary/Sources/XPCLibrary/FolderItem.swift:12-19 | "folder_" or "photo_" followed by the name, by kind |
| FolderItems.Name | XPCLibrary/Sources/XPCLibrary/FolderItem.swift:21-26 | the name the item carries, whichever its kind |
| FolderItems.IsFolder | XPCLibrary/Sources/XPCLibrary/FolderItem.swift:28-31 | true exactly for the folder case |
| FolderItems.IdsEqualIff | XPCLibrary/Sources/XPCLibrary/FolderItem.swift:12-19 | two items share an id exactly when they have the same kind and name: a folder and a photo never collide, and the photo count does not count |
| AdbProcess.DeviceArgs | XPCLibrary/Sources/XPCLibrary/ADBServiceImplementation.swift:276 | definition: "-s", the device id and the command, then the arguments; AdbProcess.RunCommand and GetProp state what running it gives |
| AdbProcess.RunCommand | XPCLibrary/Sources/XPCLibrary/ADBServiceImplementation.swift:273-290 | a launch error is rethrown; stdout that is not UTF-8 is invalidOutput; otherwise the stdout trimmed of blanks and newlines, whatever the exit status |
| AdbProcess.GetProp | XPCLibrary/Sources/XPCLibrary/ADBServiceImplementation.swift:224-229 | a property read is present exactly when its `getprop` command succeeds |
| AdbProcess.ShellRead | XPCLibrary/Sources/XPCLibrary/ADBServiceImplementation.swift:224-229 | the read is nil exactly when the command fails (`try?`) |
| AdbProcess.DestinationFolder.constructor | XPCLibrary/Sources/XPCLibrary/ADBServiceImplementation.swift:473-484 | a folder that exists with its names, or is absent and empty |
| AdbProcess.DestinationFolder.Create | XPCLibrary/Sources/XPCLibrary/ADBServiceImplementation.swift:473-484 | nothing changes for an existing folder; a missing one is created empty unless the host raises an error, which is returned with nothing changed |
| AdbProcess.DestinationFolder.Add | XPCLibrary/Sources/XPCLibrary/ADBServiceImplementation.swift:445-457 | a pulled file is in the folder from then on |
| AdbParsing.Tokens | XPCLibrary/Sources/XPCLibrary/ADBServiceImplementation.swift:314-315 | the tokens are non-empty and hold no space or tab |
| AdbParsing.ParseLine | XPCLibrary/Sources/XPCLibrary/ADBServiceImplementation.swift:308-321 | nil exactly for an empty line, a line containing "List of devices", or fewer than two tokens; otherwise a record of token 1 as id and token 2 as state |
| AdbParsing.ParseLines | XPCLibrary/Sources/XPCLibrary/ADBServiceImplementation.swift:306-322 | at most one record per line; every record is the record of some line, and every line that parses contributes its record |
| AdbParsing.ParseADBOutput | XPCLibrary/Sources/XPCLibrary/ADBServiceImplementation.swift:305-323 | no more records than lines; every record comes from a line of the output, and every line of the output that parses is listed |
| AdbParsing.ParseLinesAppend | XPCLibrary/Sources/XPCLibrary/ADBServiceImplementation.swift:306-322 | the records keep the order of their lines |
| AdbParsing.HeaderYieldsNothing | XPCLibrary/Sources/XPCLibrary/ADBServiceImplementation.swift:309-312 | the header line gives no record |
| AdbParsing.ParseRecordLine | XPCLibrary/Sources/XPCLibrary/ADBServiceImplementation.swift:314-321 | a line "id\tstate" gives the record of that id and state |
| AdbParsing.Records | XPCLibrary/Sources/XPCLibrary/ADBServiceImplementation.swift:321 | one record per listed pair |
| AdbParsing.ParseRows | XPCLibrary/Sources/XPCLibrary/ADBServiceImplementation.swift:305-323 | the device lines of a listing parse to their records, in order |
| AdbParsing.ParseListing | XPCLibrary/Sources/XPCLibrary/ADBServiceImplementation.swift:305-323 | a whole `adb devices` listing, header included, parses to one record per device in order |
| AdbParsing.LevelReportShifts | XPCLibrary/Sources/XPCLibrary/ADBServiceImplementation.swift:294-301 | a first line without "level:" moves the reporting line by one |
| AdbParsing.BatteryFromLines | XPCLibrary/Sources/XPCLibrary/ADBServiceImplementation.swift:294-302 | nil exactly when no line contains "level:"; otherwise the trimmed second ':'-field of the first such line, with "%" |
| AdbParsing.ParseBatteryLevel | XPCLibrary/Sources/XPCLibrary/ADBServiceImplementation.swift:292-303 | nil exactly when no line contains "level:"; a result always ends in "%" |
| SyncRun.Start | XPCLibrary/Sources/XPCLibrary/ADBServiceImplementation.swift:363-365 | nothing processed, nothing synced, nothing pulled and no failure, with the destination's names as they are |
| SyncRun.Finish | XPCLibrary/Sources/XPCLibrary/ADBServiceImplementation.swift:369-394 | after a failure nothing changes; otherwise at most one processed count per file, synced grows by no more than processed, and the destination only gains names |
| SyncRun.Run | XPCLibrary/Sources/XPCLibrary/ADBServiceImplementation.swift:363-405 | synced is at most processed, which is at most the number of files, and the destination keeps every name it had |
| SyncRun.Step | XPCLibrary/Sources/XPCLibrary/ADBServiceImplementation.swift:370-393 | every file is counted; a file at the destination is skipped with nothing pulled; any other is pulled |
| SyncRun.ToPull | XPCLibrary/Sources/XPCLibrary/ADBServiceImplementation.swift:375 | reference: the listed files not at the destination, each once |
| SyncRun.UpToFailure | XPCLibrary/Sources/XPCLibrary/ADBServiceImplementation.swift:369-399 | reference: a prefix of the pending pulls, all successful but maybe the last |
| SyncRun.FirstFailure | XPCLibrary/Sources/XPCLibrary/ADBServiceImplementation.swift:369-405 | reference: no failure exactly when every pending pull succeeds |
| SyncRun.UpToFailureEnds | XPCLibrary/Sources/XPCLibrary/ADBServiceImplementation.swift:369-405 | the pulls run to the end without a failure, or end at the failing one |
| SyncRun.FinishPulls | XPCLibrary/Sources/XPCLibrary/ADBServiceImplementation.swift:370-394 | the loop starts exactly the reference pulls, and fails with exactly the first failure |
| SyncRun.FinishCounts | XPCLibrary/Sources/XPCLibrary/ADBServiceImplementation.swift:364-394 | one processed count per pass; one synced count per successful pull; every file processed when nothing fails |
| SyncRun.FinishAgainstReference | XPCLibrary/Sources/XPCLibrary/ADBServiceImplementation.swift:363-405 | the loop's pulls, failure and counts equal the reference's |
| SyncRun.RunGuarantees | XPCLibrary/Sources/XPCLibrary/ADBServiceImplementation.swift:363-405 | synced is at most processed, which is at most total; a file at the destination is never pulled; without failure every file is processed and exactly the missing ones are pulled; a failure ends at the first failing pull, which is not counted |
| SyncRun.RunBounds | XPCLibrary/Sources/XPCLibrary/ADBServiceImplementation.swift:363-397 | synced is at most processed, which is at most total, and no file at the destination is pulled |
| SyncRun.RunWithoutFailure | XPCLibrary/Sources/XPCLibrary/ADBServiceImplementation.swift:363-397 | no failure exactly when every needed pull succeeds, and then the count is the number of files pulled |
| SyncRun.RunWithFailure | XPCLibrary/Sources/XPCLibrary/ADBServiceImplementation.swift:399-405 | after a failure, the last pull started is the failing one, every earlier one succeeded, and the synced count leaves the failed one out |
| SyncRun.ToPullOfDistinct | XPCLibrary/Sources/XPCLibrary/ADBServiceImplementation.swift:375 | for distinct names, the files to pull are exactly those listed and not at the destination |
| SyncRun.FinishNote | XPCLibrary/Sources/XPCLibrary/ADBServiceImplementation.swift:377-392 | a run without failure ends with the text "Skipped: " or "Completed: " followed by the last file |
| ServiceImplementation.ShellEscape | XPCLibrary/Sources/XPCLibrary/ADBServiceImplementation.swift:155-159 | the result starts and ends with a single quote; for a path without one it is the path in quotes |
| ServiceImplementation.ReadQuotedEscaped | XPCLibrary/Sources/XPCLibrary/ADBServiceImplementation.swift:158 | inside quotes, the escaped text reads back as the path |
| ServiceImplementation.ShellEscapeReadsBack | XPCLibrary/Sources/XPCLibrary/ADBServiceImplementation.swift:155-159 | a POSIX shell reads the escaped path as one word equal to the path, whatever quotes, blanks or special characters it holds |
| ServiceImplementation.TrimEach | XPCLibrary/Sources/XPCLibrary/ADBServiceImplementation.swift:59 | each line trimmed of blanks, in place |
| ServiceImplementation.Except | XPCLibrary/Sources/XPCLibrary/ADBServiceImplementation.swift:61 | exactly the paths other than the queried one |
| ServiceImplementation.LastComponents | XPCLibrary/Sources/XPCLibrary/ADBServiceImplementation.swift:63 | each path replaced by its last component, in place |
| ServiceImplementation.LastComponentsMembers | XPCLibrary/Sources/XPCLibrary/ADBServiceImplementation.swift:63 | a name is listed exactly when it is the last component of a listed path |
| ServiceImplementation.FoundPaths | XPCLibrary/Sources/XPCLibrary/ADBServiceImplementation.swift:57-60 | exactly the non-empty trimmed lines of the output |
| ServiceImplementation.FolderNames | XPCLibrary/Sources/XPCLibrary/ADBServiceImplementation.swift:57-63 | no more names than found paths, and no name is empty |
| ServiceImplementation.FolderNamesMembers | XPCLibrary/Sources/XPCLibrary/ADBServiceImplementation.swift:57-63 | the folder names are exactly the last components of the found paths other than the queried one, and none is empty |
| ServiceImplementation.FolderEntries | XPCLibrary/Sources/XPCLibrary/ADBServiceImplementation.swift:65-71 | one folder dictionary per name, in order, with a photo count of 0 |
| ServiceImplementation.Located | XPCLibrary/Sources/XPCLibrary/ADBServiceImplementation.swift:170-178 | a cached path is returned as it is |
| ServiceImplementation.CacheAfter | XPCLibrary/Sources/XPCLibrary/ADBServiceImplementation.swift:170-178 | the cache holds the located path, and stays empty after a failure |
| ServiceImplementation.CachedPathIsFinal | XPCLibrary/Sources/XPCLibrary/ADBServiceImplementation.swift:171-173 | once a path is cached, the host is not consulted again |
| ServiceImplementation.Details | XPCLibrary/Sources/XPCLibrary/ADBServiceImplementation.swift:219-271 | the requested id, with state connected |
| ServiceImplementation.ModelFallsBack | XPCLibrary/Sources/XPCLibrary/ADBServiceImplementation.swift:224-238 | the model is the marketing name when that is read and not empty, else the plain model; it is nil only when neither is read |
| ServiceImplementation.DetailsReadsAreIndependent | XPCLibrary/Sources/XPCLibrary/ADBServiceImplementation.swift:240-268 | each field depends only on its own command, and a failed read leaves only its own field nil |
| ServiceImplementation.BatteryRead | XPCLibrary/Sources/XPCLibrary/ADBServiceImplementation.swift:261-268 | a battery level, when read, is a non-empty text ending in '%' |
| ServiceImplementation.EnrichOne | XPCLibrary/Sources/XPCLibrary/ADBServiceImplementation.swift:202-214 | enriching a record keeps its id and state, whether the details were read or not |
| ServiceImplementation.Enriched | XPCLibrary/Sources/XPCLibrary/ADBServiceImplementation.swift:202-214 | one record per parsed record, in place |
| ServiceImplementation.EnrichedKeepsIdsAndStates | XPCLibrary/Sources/XPCLibrary/ADBServiceImplementation.swift:202-214 | enrichment keeps each record's id, state and place in the list |
| ServiceImplementation.ReadDevices | XPCLibrary/Sources/XPCLibrary/ADBServiceImplementation.swift:183-196 | `adb devices` succeeds exactly when adb launches and its output is UTF-8 |
| ServiceImplementation.ListedDevices | XPCLibrary/Sources/XPCLibrary/ADBServiceImplementation.swift:180-217 | success exactly when adb is located and `adb devices` is read; a located failure is that error; on success one record per parsed record, with its id and state |
| ServiceImplementation.Collected | XPCLibrary/Sources/XPCLibrary/ADBServiceImplementation.swift:418-433 | a failed listing carries the error of some extension's query |
| ServiceImplementation.CollectedFailureSticks | XPCLibrary/Sources/XPCLibrary/ADBServiceImplementation.swift:418-433 | the first query that fails ends the listing with its error |
| ServiceImplementation.CollectedSucceeds | XPCLibrary/Sources/XPCLibrary/ADBServiceImplementation.swift:418-433 | the listing succeeds exactly when every extension's query does |
| ServiceImplementation.CollectedMembers | XPCLibrary/Sources/XPCLibrary/ADBServiceImplementation.swift:418-433 | a name is collected exactly when some extension's query found it |
| ServiceImplementation.PhotoListing | XPCLibrary/Sources/XPCLibrary/ADBServiceImplementation.swift:410-436 | a listing is strictly increasing, so no name appears twice |
| ServiceImplementation.PhotoListingContents | XPCLibrary/Sources/XPCLibrary/ADBServiceImplementation.swift:415-435 | success exactly when all six queries succeed; then exactly the names some query found, each once, in ascending order |
| ServiceImplementation.PhotoNamesNotEmpty | XPCLibrary/Sources/XPCLibrary/ADBServiceImplementation.swift:426-430 | no listed photo name is empty |
| ServiceImplementation.PullOf | XPCLibrary/Sources/XPCLibrary/ADBServiceImplementation.swift:438-471 | a pull succeeds exactly when adb launches and exits with status 0 |
| ServiceImplementation.ReportsDisconnection | XPCLibrary/Sources/XPCLibrary/ADBServiceImplementation.swift:463-465 | definition: stderr contains "device offline", "device not found" or "no devices"; ServiceImplementation.PullPhoto and PullErrorDescriptions state its effect |
| ServiceImplementation.AppendPath | XPCLibrary/Sources/XPCLibrary/ADBServiceImplementation.swift:445 | definition: `appendingPathComponent` for a relative name, with one slash between |
| ServiceImplementation.AppendPathNamesFile | XPCLibrary/Sources/XPCLibrary/ADBServiceImplementation.swift:445 | the joined path's last component is the file's name, whether or not the folder ends in a slash |
| ServiceImplementation.PullPhoto | XPCLibrary/Sources/XPCLibrary/ADBServiceImplementation.swift:438-471 | success exactly when adb launches and exits with 0; stderr with "device offline", "device not found" or "no devices" is deviceDisconnected; any other is commandFailed("Failed to pull <file>: <stderr>"), with "Unknown error" for stderr that is not UTF-8 |
| ServiceImplementation.PullErrorDescriptions | XPCLibrary/Sources/XPCLibrary/ADBServiceImplementation.swift:459-470 | every adb error of a pull describes itself as the disconnection or names the failed pull |
| ServiceImplementation.ToReply | XPCLibrary/Sources/XPCLibrary/ADBServiceImplementation.swift:121-139 | a value with no error, or no value and the error's description |
| ServiceImplementation.ADBServiceImplementation.constructor | XPCLibrary/Sources/XPCLibrary/ADBServiceImplementation.swift:19-21 | an empty cache, no adb path, no polling, and progress (0, 0, "") |
| ServiceImplementation.ADBServiceImplementation.StartMonitoring | XPCLibrary/Sources/XPCLibrary/ADBServiceImplementation.swift:82-91 | the polling task runs |
| ServiceImplementation.ADBServiceImplementation.StopMonitoring | XPCLibrary/Sources/XPCLibrary/ADBServiceImplementation.swift:93-96 | the polling task is gone |
| ServiceImplementation.ADBServiceImplementation.UpdateCache | XPCLibrary/Sources/XPCLibrary/ADBServiceImplementation.swift:325-329 | the cache is replaced |
| ServiceImplementation.ADBServiceImplementation.GetCache | XPCLibrary/Sources/XPCLibrary/ADBServiceImplementation.swift:331-335 | the cache as it stands |
| ServiceImplementation.ADBServiceImplementation.ListDevices | XPCLibrary/Sources/XPCLibrary/ADBServiceImplementation.swift:98-101 | the cached list, never an error |
| ServiceImplementation.ADBServiceImplementation.UpdateSyncProgress | XPCLibrary/Sources/XPCLibrary/ADBServiceImplementation.swift:486-492 | the snapshot becomes (current, total, currentFile) |
| ServiceImplementation.ADBServiceImplementation.GetPhotoSyncProgress | XPCLibrary/Sources/XPCLibrary/ADBServiceImplementation.swift:143-151 | the snapshot as it stands |
| ServiceImplementation.ADBServiceImplementation.GetADBPath | XPCLibrary/Sources/XPCLibrary/ADBServiceImplementation.swift:170-178 | the cached path, or the bundled one, which is then cached |
| ServiceImplementation.ADBServiceImplementation.FetchDeviceDetails | XPCLibrary/Sources/XPCLibrary/ADBServiceImplementation.swift:219-271 | the error locating adb, or the details read one property at a time |
| ServiceImplementation.ADBServiceImplementation.GetDeviceDetails | XPCLibrary/Sources/XPCLibrary/ADBServiceImplementation.swift:103-112 | the details, or the error's description |
| ServiceImplementation.ADBServiceImplementation.PerformListDevices | XPCLibrary/Sources/XPCLibrary/ADBServiceImplementation.swift:180-217 | the parsed records, each connected one replaced by its details |
| ServiceImplementation.ADBServiceImplementation.EnrichAll | XPCLibrary/Sources/XPCLibrary/ADBServiceImplementation.swift:200-216 | the loop builds the enriched list |
| ServiceImplementation.ADBServiceImplementation.PollDevices | XPCLibrary/Sources/XPCLibrary/ADBServiceImplementation.swift:161-168 | a successful listing replaces the cache, and a failed one leaves it |
| ServiceImplementation.ADBServiceImplementation.ListFolderContentsOnDevice | XPCLibrary/Sources/XPCLibrary/ADBServiceImplementation.swift:42-80 | the error, or one folder dictionary per sub-folder name, the names sorted |
| ServiceImplementation.ADBServiceImplementation.ListFolderContents | XPCLibrary/Sources/XPCLibrary/ADBServiceImplementation.swift:24-40 | exactly one of a listing and an error is sent |
| ServiceImplementation.ADBServiceImplementation.ListPhotosOnDevice | XPCLibrary/Sources/XPCLibrary/ADBServiceImplementation.swift:410-436 | the loop over the six extensions computes the photo listing |
| ServiceImplementation.ADBServiceImplementation.SyncFiles | XPCLibrary/Sources/XPCLibrary/ADBServiceImplementation.swift:363-405 | the loop computes the sync run and leaves the pulled files in the folder; the progress ends at (total, total, last text), or after a failure at (files synced, total, "") with the error rethrown |
| ServiceImplementation.ADBServiceImplementation.SyncListing | XPCLibrary/Sources/XPCLibrary/ADBServiceImplementation.swift:355-405 | no photos throws the no-photos error before the folder is created; a folder that cannot be created throws its error; otherwise the run |
| ServiceImplementation.ADBServiceImplementation.PerformPhotoSync | XPCLibrary/Sources/XPCLibrary/ADBServiceImplementation.swift:340-407 | every outcome of the sync: adb missing, listing failed, no photos (progress (0, 0, "")), folder not created, or the run |
| ServiceImplementation.ADBServiceImplementation.StartPhotoSync | XPCLibrary/Sources/XPCLibrary/ADBServiceImplementation.swift:115-140 | exactly one of a count and an error is sent, and a count is not negative |
| LegacyImplementation.Details | XPCLibrary/Sources/XPCLibrary/Implementation/ADBServiceImplementation.swift:167-210 | the requested id, with state connected |
| LegacyImplementation.DetailsAgreeExceptModel | XPCLibrary/Sources/XPCLibrary/Implementation/ADBServiceImplementation.swift:167-210 | the two revisions read the same details except the model, which here is always the plain model, and agree fully without a marketing name |
| LegacyImplementation.EnrichOne | XPCLibrary/Sources/XPCLibrary/Implementation/ADBServiceImplementation.swift:150-162 | enriching a record keeps its id and state |
| LegacyImplementation.ListedDevices | XPCLibrary/Sources/XPCLibrary/Implementation/ADBServiceImplementation.swift:128-165 | success exactly when adb is located and `adb devices` is read; a located failure is that error; on success one record per parsed record, with its id and state |
| LegacyImplementation.Enriched | XPCLibrary/Sources/XPCLibrary/Implementation/ADBServiceImplementation.swift:128-165 | one record per parsed record, in place |
| LegacyImplementation.ListedDevicesAgree | XPCLibrary/Sources/XPCLibrary/Implementation/ADBServiceImplementation.swift:128-165 | both revisions list the same devices in the same order, differing at most in the model |
| LegacyImplementation.IsPhotoFile | XPCLibrary/Sources/XPCLibrary/Implementation/ADBServiceImplementation.swift:374-378 | a photo always has an extension |
| LegacyImplementation.IsPhotoFileByExtension | XPCLibrary/Sources/XPCLibrary/Implementation/ADBServiceImplementation.swift:374-378 | stem.ext is a photo exactly when ext, lower-cased, is one of the six extensions, so "IMG.JPG" is one |
| LegacyImplementation.DotlessNameIsNoPhoto | XPCLibrary/Sources/XPCLibrary/Implementation/ADBServiceImplementation.swift:374-378 | a name without a dot is never a photo |
| LegacyImplementation.FilterPhotos | XPCLibrary/Sources/XPCLibrary/Implementation/ADBServiceImplementation.swift:367 | exactly the photo names of the listing, no more of them than there are lines |
| LegacyImplementation.FilterPhotosAppend | XPCLibrary/Sources/XPCLibrary/Implementation/ADBServiceImplementation.swift:367 | filtering distributes over concatenation, so the photos keep their listing order and repeats |
| LegacyImplementation.FilterPhotosKeepsPhotos | XPCLibrary/Sources/XPCLibrary/Implementation/ADBServiceImplementation.swift:367 | a listing made only of photos passes through unchanged |
| LegacyImplementation.PhotoListing | XPCLibrary/Sources/XPCLibrary/Implementation/ADBServiceImplementation.swift:351-370 | success exactly when `ls` succeeds; then a name is listed exactly when it is a non-empty trimmed line of the output and a photo (order: FilterPhotosAppend) |
| LegacyImplementation.UnescapedBlankSplitsPath | XPCLibrary/Sources/XPCLibrary/Implementation/ADBServiceImplementation.swift:360 | a path with a blank and no quote or backslash is not one shell word |
| LegacyImplementation.FolderWithBlankIsSplit | XPCLibrary/Sources/XPCLibrary/Implementation/ADBServiceImplementation.swift:446-451 | "/sdcard/My Photos" is split by the shell here, and read whole once escaped |
| LegacyImplementation.ADBServiceImplementation.constructor | XPCLibrary/Sources/XPCLibrary/Implementation/ADBServiceImplementation.swift:32-42 | an empty cache, no adb path, no polling, and progress (0, 0) |
| LegacyImplementation.ADBServiceImplementation.StartMonitoring | XPCLibrary/Sources/XPCLibrary/Implementation/ADBServiceImplementation.swift:45-54 | the polling task runs |
| LegacyImplementation.ADBServiceImplementation.StopMonitoring | XPCLibrary/Sources/XPCLibrary/Implementation/ADBServiceImplementation.swift:56-59 | the polling task is gone |
| LegacyImplementation.ADBServiceImplementation.UpdateCache | XPCLibrary/Sources/XPCLibrary/Implementation/ADBServiceImplementation.swift:264-268 | the cache is replaced |
| LegacyImplementation.ADBServiceImplementation.GetCache | XPCLibrary/Sources/XPCLibrary/Implementation/ADBServiceImplementation.swift:270-274 | the cache as it stands |
| LegacyImplementation.ADBServiceImplementation.ListDevices | XPCLibrary/Sources/XPCLibrary/Implementation/ADBServiceImplementation.swift:61-64 | the cached list, never an error |
| LegacyImplementation.ADBServiceImplementation.UpdateSyncProgress | XPCLibrary/Sources/XPCLibrary/Implementation/ADBServiceImplementation.swift:431-436 | the snapshot becomes (current, total) |
| LegacyImplementation.ADBServiceImplementation.GetPhotoSyncProgress | XPCLibrary/Sources/XPCLibrary/Implementation/ADBServiceImplementation.swift:100-107 | the snapshot as it stands |
| LegacyImplementation.ADBServiceImplementation.GetADBPath | XPCLibrary/Sources/XPCLibrary/Implementation/ADBServiceImplementation.swift:118-126 | the cached path, or the bundled one, which is then cached |
| LegacyImplementation.ADBServiceImplementation.FetchDeviceDetails | XPCLibrary/Sources/XPCLibrary/Implementation/ADBServiceImplementation.swift:167-210 | the error locating adb, or the details read one property at a time |
| LegacyImplementation.ADBServiceImplementation.GetDeviceDetails | XPCLibrary/Sources/XPCLibrary/Implementation/ADBServiceImplementation.swift:66-75 | the details, or the error's description |
| LegacyImplementation.ADBServiceImplementation.PerformListDevices | XPCLibrary/Sources/XPCLibrary/Implementation/ADBServiceImplementation.swift:128-165 | the parsed records, each connected one replaced by its details |
| LegacyImplementation.ADBServiceImplementation.EnrichAll | XPCLibrary/Sources/XPCLibrary/Implementation/ADBServiceImplementation.swift:148-164 | the loop builds the enriched list |
| LegacyImplementation.ADBServiceImplementation.PollDevices | XPCLibrary/Sources/XPCLibrary/Implementation/ADBServiceImplementation.swift:109-116 | a successful listing replaces the cache, and a failed one leaves it |
| LegacyImplementation.ADBServiceImplementation.ListFoldersOnDevice | XPCLibrary/Sources/XPCLibrary/Implementation/ADBServiceImplementation.swift:439-467 | the error, or the folder names, sorted and a permutation of the last components of the found paths other than the queried one |
| LegacyImplementation.ADBServiceImplementation.ListFolders | XPCLibrary/Sources/XPCLibrary/Implementation/ADBServiceImplementation.swift:13-29 | exactly one of a listing and an error is sent; a failure to locate adb or a failed `find` sends that error; otherwise the names sent are sorted and a permutation of the found folder names |
| LegacyImplementation.ADBServiceImplementation.ListPhotosOnDevice | XPCLibrary/Sources/XPCLibrary/Implementation/ADBServiceImplementation.swift:351-370 | the method computes the photo listing: the `ls` error, or exactly the trimmed photo lines |
| LegacyImplementation.ADBServiceImplementation.SyncFiles | XPCLibrary/Sources/XPCLibrary/Implementation/ADBServiceImplementation.swift:302-346 | the loop computes the sync run; progress ends at (total, total), or after a failure at (files synced, total) with the error rethrown |
| LegacyImplementation.ADBServiceImplementation.PerformPhotoSync | XPCLibrary/Sources/XPCLibrary/Implementation/ADBServiceImplementation.swift:280-347 | an empty listing syncs 0 photos, without creating the folder or touching the progress; otherwise as the live one, but with no progress reset |
| LegacyImplementation.ADBServiceImplementation.StartPhotoSync | XPCLibrary/Sources/XPCLibrary/Implementation/ADBServiceImplementation.swift:77-98 | exactly one of a count and an error is sent, and a count is not negative |
| EarliestService.FindAdb | ADBServiceXPC/ADBServiceXPC.swift:43-45 | definition: the bundled path, or adbNotFound; EarliestService.ListedDevices states its effect on the listing |
| EarliestService.ListedDevices | ADBServiceXPC/ADBServiceXPC.swift:42-63 | exactly the parsed records of `adb devices` |
| EarliestService.ListedDevicesHaveNoDetails | ADBServiceXPC/ADBServiceXPC.swift:42-63 | no listed record carries a detail |
| EarliestService.LiveListingEnrichesThis | ADBServiceXPC/ADBServiceXPC.swift:42-63 | the live service lists these same records, each connected one replaced by its details |
| EarliestService.FetchDeviceDetails | ADBServiceXPC/ADBServiceXPC.swift:65-90 | adbNotFound, or the details read one property at a time |
| EarliestService.DetailsReadAlone | ADBServiceXPC/ADBServiceXPC.swift:65-90 | the requested id, connected, where each field is nil exactly when its own read fails |
| Client.Message | ADBManager/Services/ADBService.swift:182 | definition: the `localizedDescription` the app reads, the service error's description or the remote text; Client.MessagePreserved and ViewModel.SyncFailureMessage state what it carries |
| Client.WrappedReply | XPCLibrary/Sources/XPCLibrary/ADBServiceClient.swift:30-64 | no service is serviceUnavailable; an error wins and becomes xpcError of its text; a value comes through; neither is xpcError("No data returned") |
| Client.PassedReply | XPCLibrary/Sources/XPCLibrary/ADBServiceClient.swift:101-126 | the same, except that the remote error is thrown as it came |
| Client.ListDevices | XPCLibrary/Sources/XPCLibrary/ADBServiceClient.swift:30-46 | success exactly when connected with no error and a value, which is then returned; a remote error's text reaches the caller |
| Client.StartPhotoSync | XPCLibrary/Sources/XPCLibrary/ADBServiceClient.swift:101-125 | success exactly when connected with no error and a count, which is then returned; the service's error text reaches the caller |
| Client.MessagePreserved | XPCLibrary/Sources/XPCLibrary/ADBServiceClient.swift:36-56 | wrapped or passed through, the message reaches the caller unchanged, and the two agree on a value |
| Client.DecodeItem | XPCLibrary/Sources/XPCLibrary/ADBServiceClient.swift:79-90 | nothing unless "type" and "name" are strings; type "folder" is a folder with the integer photo count, 0 without one; any other type a photo |
| Client.Decoded | XPCLibrary/Sources/XPCLibrary/ADBServiceClient.swift:79-90 | definition: one dictionary's decoded item, or nothing; Client.DecodeItems states the listing it builds |
| Client.DecodeItems | XPCLibrary/Sources/XPCLibrary/ADBServiceClient.swift:79-91 | at most one item per dictionary, exactly one when all decode; every item comes from a dictionary, and every dictionary that decodes contributes its item |
| Client.DecodeItemsAppend | XPCLibrary/Sources/XPCLibrary/ADBServiceClient.swift:79-91 | the items keep the order of their dictionaries |
| Client.DecodedItemsComeFromDictionaries | XPCLibrary/Sources/XPCLibrary/ADBServiceClient.swift:79-91 | every item comes from a dictionary that decodes to it |
| Client.Folders | XPCLibrary/Sources/XPCLibrary/ADBServiceClient.swift:85-88 | one folder per name, in order, with a photo count of 0 |
| Client.DecodeFolderEntries | XPCLibrary/Sources/XPCLibrary/ADBServiceClient.swift:79-91 | the service's folder dictionaries decode to folders with a count of 0, with the same names in the same order |
| Client.ListFolderContents | XPCLibrary/Sources/XPCLibrary/ADBServiceClient.swift:66-99 | the decoded items exactly when connected with data and no error; otherwise the error passed through |
| Client.GetPhotoSyncProgress | XPCLibrary/Sources/XPCLibrary/ADBServiceClient.swift:128-138 | the service's snapshot, or (0, 0, "") without a service |
| Client.SyncOutcomeReachesApp | XPCLibrary/Sources/XPCLibrary/ADBServiceClient.swift:101-126 | a sync's count reaches the app intact, and so does its error's description |
| Client.FolderListingReachesApp | XPCLibrary/Sources/XPCLibrary/ADBServiceClient.swift:66-99 | a folder listing reaches the app as folders of those names, in order, with a count of 0 |
| ViewModel.Gate | ADBManager/Services/ADBService.swift:72-80 | flags change only while reconnecting to a device; its absence confirms it gone; its presence as connected, after it was confirmed gone, marks it reconnected; isReconnecting is kept |
| ViewModel.ReconnectedOnlyAfterGone | ADBManager/Services/ADBService.swift:72-80 | a refresh marks the device reconnected only when it is listed as connected and an earlier refresh confirmed it gone |
| ViewModel.GoneThenBackReconnects | ADBManager/Services/ADBService.swift:72-80 | a refresh without the device, then one with it, reconnect it |
| ViewModel.ReconnectedStaysReconnecting | ADBManager/Services/ADBService.swift:77-78 | after reconnection it is still reconnecting, so a later absence confirms it gone again |
| ViewModel.Arm | ADBManager/Services/ADBService.swift:190-197 | needs reconnection and reconnecting, not confirmed gone, the device's id, and the partial count only when positive |
| ViewModel.ArmedNeedsAbsenceFirst | ADBManager/Services/ADBService.swift:72-80 | once armed, a refresh that still lists the device changes nothing |
| ViewModel.Resumed | ADBManager/Services/ADBService.swift:122-128 | everything cleared but the partial count |
| ViewModel.Cancelled | ADBManager/Views/Sheets/ReconnectionPanel.swift:43-50 | everything cleared but the confirmed-gone flag |
| ViewModel.RefreshInertWhenNotReconnecting | ADBManager/Services/ADBService.swift:72-80 | after a resume or a cancel, refreshes leave the reconnection fields alone |
| ViewModel.IsDisconnectionMessage | ADBManager/Services/ADBService.swift:183-188 | definition: the message contains one of the six markers; ViewModel.NoMarkerWithout, the *NotDisconnection lemmas and PullFailuresAreDisconnections state how errors are classified |
| ViewModel.NoMarkerWithout | ADBManager/Services/ADBService.swift:183-188 | a message without 'v', 'F', "nn" and "cl" holds none of the six markers |
| ViewModel.SyncFailureMessage | ADBManager/Services/ADBService.swift:174-188 | the message the view-model sees is the service error's description |
| ViewModel.NoPhotosNotDisconnection | ADBManager/Services/ADBService.swift:183-188 | the no-photos error is not a disconnection |
| ViewModel.AdbNotFoundNotDisconnection | ADBManager/Services/ADBService.swift:183-188 | a missing adb is not a disconnection |
| ViewModel.InvalidOutputNotDisconnection | ADBManager/Services/ADBService.swift:183-188 | output that is not UTF-8 is not a disconnection |
| ViewModel.PullFailuresAreDisconnections | ADBManager/Services/ADBService.swift:183-188 | whatever adb says, a failed pull is classified as a disconnection |
| ViewModel.SyncingMessage | ADBManager/Services/ADBService.swift:225-231 | the text starts with "Syncing " and ends with " photos...", with a "/" between them |
| ViewModel.SyncingMessageInjective | ADBManager/Services/ADBService.swift:225-231 | the message tells which count and total it was made from |
| ViewModel.LastShown | ADBManager/Services/ADBService.swift:222-232 | the last snapshot with a total, if any |
| ViewModel.AfterPollsShowsLastShown | ADBManager/Services/ADBService.swift:222-232 | after a run of snapshots, the view shows the last one with a total, or what it showed before |
| ViewModel.LastCurrent | ADBManager/Services/ADBService.swift:231 | the current count of the last snapshot, or the one before there was any |
| ViewModel.SyncReturn | ADBManager/Services/ADBService.swift:155-200 | the count on success; on failure the partial count when it is positive, else nil |
| ViewModel.AfterSync | ADBManager/Services/ADBService.swift:174-197 | only a disconnection touches the reconnection fields: it arms reconnection to the synced device, keeps the reconnected flag and records the partial count |
| ViewModel.PartialCountComesFromThisSync | ADBManager/Services/ADBService.swift:141-200 | a partial count comes from a snapshot of this sync |
| ViewModel.DisconnectionArms | ADBManager/Services/ADBService.swift:183-197 | a disconnection arms reconnection to the synced device with the returned partial count |
| ViewModel.EmptyFolderDoesNotArm | ADBManager/Services/ADBService.swift:183-197 | the no-photos error and a missing adb leave the reconnection fields alone |
| ViewModel.ResumeRearms | ADBManager/Services/ADBService.swift:117-129 | a resume that fails with a disconnection arms again, and without a snapshot it records no partial count |
| ViewModel.FirstIndex | ADBManager/Services/ADBService.swift:102 | the first position with the id, or nil exactly when none has it |
| ViewModel.ConnectedDevices | ADBManager/Services/ADBService.swift:81-85 | exactly the connected devices, no more of them than there are devices |
| ViewModel.ConnectedDevicesAppend | ADBManager/Services/ADBService.swift:81-85 | the filter distributes over concatenation, so the connected devices keep their order |
| ViewModel.ADBService.constructor | ADBManager/Services/ADBService.swift:13-40 | nothing listed, nothing syncing, no reconnection, no task running |
| ViewModel.ADBService.StartMonitoring | ADBManager/Services/ADBService.swift:43-54 | monitoring, with the polling task running |
| ViewModel.ADBService.StopMonitoring | ADBManager/Services/ADBService.swift:56-60 | not monitoring, with no polling task |
| ViewModel.ADBService.RefreshDevices | ADBManager/Services/ADBService.swift:63-96 | success replaces the devices, applies the gate, and fetches details of the connected ones; failure keeps the devices and sets the error unless reconnection is needed; loading is reset |
| ViewModel.ADBService.FetchDeviceDetails | ADBManager/Services/ADBService.swift:98-108 | the details replace the first device with that id; without one, or on failure, nothing changes |
| ViewModel.ADBService.UpdateSyncProgress | ADBManager/Services/ADBService.swift:222-232 | count, total and photo change only when the total is known; the partial count always |
| ViewModel.ADBService.ApplyPolls | ADBManager/Services/ADBService.swift:206-215 | the view after the snapshots, and the partial count of the last one |
| ViewModel.ADBService.StartSyncProgressPolling | ADBManager/Services/ADBService.swift:206-215 | the progress loop runs |
| ViewModel.ADBService.StopSyncProgressPolling | ADBManager/Services/ADBService.swift:217-220 | the progress loop is gone |
| ViewModel.ADBService.SyncPhotos | ADBManager/Services/ADBService.swift:132-202 | returns the sync's result; arms on a disconnection; always ends not syncing, with monitoring restarted and the progress loop stopped |
| ViewModel.ADBService.BeginSync | ADBManager/Services/ADBService.swift:137-147 | the sync fields are reset, monitoring stops and the progress loop starts |
| ViewModel.ADBService.CompleteSync | ADBManager/Services/ADBService.swift:155-172 | the count; "Sync complete!" only for a positive count |
| ViewModel.ADBService.FailSync | ADBManager/Services/ADBService.swift:174-200 | the partial count when positive; arms only on a disconnection; the error ends as the message |
| ViewModel.ADBService.ArmReconnection | ADBManager/Services/ADBService.swift:190-197 | the arming, with the error cleared |
| ViewModel.ADBService.ResumeSync | ADBManager/Services/ADBService.swift:117-129 | clears all but the partial count, then syncs |
| ViewModel.ADBService.Cancel | ADBManager/Views/Sheets/ReconnectionPanel.swift:43-50 | the reconnection is cancelled and the error cleared |
| LegacyViewModel.Gate | ADBManager/ADBService.swift:82-91 | like the live gate, except that finding the device back also ends reconnecting |
| LegacyViewModel.GatesAgreeButReconnecting | ADBManager/ADBService.swift:82-91 | the two gates agree on all but isReconnecting, which only this one clears, exactly when the device is back |
| LegacyViewModel.ReconnectedOnlyAfterGone | ADBManager/ADBService.swift:82-88 | reconnected only after it was confirmed gone and is listed as connected |
| LegacyViewModel.ReconnectionIsFinal | ADBManager/ADBService.swift:86-90 | seen gone and then back: reconnected, not reconnecting, and no later refresh changes anything |
| LegacyViewModel.Resumed | ADBManager/ADBService.swift:186-189 | keeps the confirmed-gone flag and the partial count |
| LegacyViewModel.KeptGoneFlagIsInert | ADBManager/ADBService.swift:186-189 | the kept flag has no effect: refreshes ignore it, and re-arming gives what the live resume gives |
| LegacyViewModel.SyncReturn | ADBManager/ADBService.swift:157-176 | the count; on failure the last read count when positive, else nil |
| LegacyViewModel.AfterSync | ADBManager/ADBService.swift:159-172 | a success leaves the reconnection fields alone; every failure arms reconnection to the synced device with the partial count |
| LegacyViewModel.EveryFailureArms | ADBManager/ADBService.swift:159-172 | any failure arms reconnection to the synced device |
| LegacyViewModel.MissingAdbArms | ADBManager/ADBService.swift:159-172 | even a missing adb arms reconnection |
| LegacyViewModel.DisconnectionsArmAlike | ADBManager/ADBService.swift:159-176 | on a disconnection, equal to the live view-model given the same partial count |
| LegacyViewModel.StalePartialCount | ADBManager/ADBService.swift:160 | a failure before any snapshot reports the count left by an earlier sync |
| LegacyViewModel.ProgressAfterShowsLastShown | ADBManager/ADBService.swift:212-219 | the message shown is that of the last snapshot with a total |
| LegacyViewModel.ADBService.constructor | ADBManager/ADBService.swift:45-47 | nothing listed, nothing syncing, no reconnection, no task running |
| LegacyViewModel.ADBService.StartMonitoring | ADBManager/ADBService.swift:51-62 | monitoring, with the polling task running |
| LegacyViewModel.ADBService.StopMonitoring | ADBManager/ADBService.swift:64-68 | not monitoring, with no polling task |
| LegacyViewModel.ADBService.RefreshDevices | ADBManager/ADBService.swift:72-102 | success replaces the devices and applies the gate; failure keeps them and sets the error unless reconnection is needed |
| LegacyViewModel.ADBService.FetchDeviceDetails | ADBManager/ADBService.swift:104-114 | the details replace the first device with that id |
| LegacyViewModel.ADBService.UpdateSyncProgress | ADBManager/ADBService.swift:212-219 | the message only when the total is known; the count always |
| LegacyViewModel.ADBService.ApplyPolls | ADBManager/ADBService.swift:196-205 | the message of the last snapshot with a total, and the last count |
| LegacyViewModel.ADBService.StartSyncProgressPolling | ADBManager/ADBService.swift:196-205 | the progress loop runs |
| LegacyViewModel.ADBService.StopSyncProgressPolling | ADBManager/ADBService.swift:207-210 | the progress loop is gone |
| LegacyViewModel.ADBService.SyncPhotos | ADBManager/ADBService.swift:124-178 | returns the sync's result; every failure arms; always ends not syncing, with monitoring restarted |
| LegacyViewModel.ADBService.FailSync | ADBManager/ADBService.swift:159-177 | arms whatever the message, and the error is the message |
| LegacyViewModel.ADBService.ArmReconnection | ADBManager/ADBService.swift:166-171 | the arming |
| LegacyViewModel.ADBService.ResumeSync | ADBManager/ADBService.swift:180-192 | clears all but the confirmed-gone flag and the partial count, then syncs |

## Left out

- Launching processes, pipes and UTF-8 decoding are the host's. The adb executable is an input, a function from argument vectors to results, so the same command always gives the same answer.
- The bundle lookup and the chmod of `ADBUtilities.getADBPath` are inputs: `Host.resource`, and `Host.chmodError` for the error `ensureExecutable` may raise.
- `FileManager.fileExists` and `createDirectory` are the `DestinationFolder` object. A pulled file is taken to land in it under its own name.
- Tasks, sleeps, cancellation and `NSLock` are left out, since they are concurrency and timing. Each polling loop is a flag. The model does not capture a progress poll racing with a sync.
- The progress loop's reads during a sync are an input sequence of snapshots, in the order they arrive. That is also why the partial count is an input.
- The detached detail fetches of the live `refreshDevices` are returned as a list of requests. Each fetch's effect is `FetchDeviceDetails`.
- The 3-second task that clears "Sync complete!" is left out, because it is a timer.
- XPC connections, the continuation bridging and NSCoder mechanics are left out. Archives are key-to-string maps, and completion handlers are `Reply` values.
- The view-models' `listFolderContents` and `listFolders` only pass the client's result through, and are left out.
- SwiftUI views are left out, except the reconnection panel's Cancel button. So is `print` logging.
- Swift's string `<` is taken as the lexicographic order of characters. Unicode collation and normalisation are not modelled.
- `lowercased()` and `capitalized` are modelled for ASCII letters only.
- `appendingPathComponent` joins with one slash. The path standardisation NSString also does (repeated slashes, a leading slash on the name) is not modelled.
- AdbProcess.RunCommand: stderr is modelled only where it is read, in the pull.
- The earliest service builds its records with `AndroidDevice(id:stateString:)` and then sets detail fields that `ADBManager/AndroidDevice.swift` does not declare. The model uses the `Device` record, which has those fields.
- ServiceImplementation.ADBServiceImplementation.StartPhotoSync: says only that exactly one of a count and an error is sent. `Client.SyncOutcomeReachesApp` states the rest, about `ToReply` of the sync's result.
- LegacyImplementation.ADBServiceImplementation.StartPhotoSync: as for the live one.
- ServiceImplementation.ADBServiceImplementation.ListFolderContents: says only that exactly one of a listing and an error is sent. `ListFolderContentsOnDevice` states the listing.
- EarliestService.FindAdb: the earliest service declares its own `ADBError` with only `adbNotFound` and `invalidOutput` and no descriptions (ADBServiceXPC/ADBServiceXPC.swift:145-148). The model reuses the later `ADBError` cases of the same names, so the descriptions the later enum gives them are not meant for this service.

## Findings

| source | as written | input that shows it | evidently intended | confidence | as-written member | corrected member |
|---|---|---|---|---|---|---|
| XPCLibrary/Sources/XPCLibrary/Implementation/ADBServiceImplementation.swift:356-361 | the folder path goes to the device's shell as it is (`ls` there, `find` at lines 446-451) | "/sdcard/My Photos": the shell splits it into two words | the path reaches the command whole, as the later `shellEscape` does | high; not executed | LegacyImplementation.FolderWithBlankIsSplit | ServiceImplementation.ShellEscapeReadsBack |
| ADBManager/ADBService.swift:160 | the partial count is whatever the progress loop last read, and a new sync does not reset it | a sync that left the count at 5, then a sync that fails before its first snapshot: it reports 5 photos synced | the count of this sync only, as the live view-model resets it at ADBManager/Services/ADBService.swift:141 | medium; not executed | LegacyViewModel.StalePartialCount | ViewModel.PartialCountComesFromThisSync |
