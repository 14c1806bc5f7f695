/** The app's view-model (ADBManager/Services/ADBService.swift) and the Cancel button of the
    reconnection panel (ADBManager/Views/Sheets/ReconnectionPanel.swift): the device list, the
    sync state shown while photos are copied, and the reconnection state machine that takes
    over when a sync fails because the phone went away.

    What the view-model awaits from the client is an input: the result of one `listDevices`,
    one `getDeviceDetails` or one `startPhotoSync`, and the progress snapshots the progress
    loop reads while the sync runs, in the order they arrive. Tasks, sleeps and cancellation
    are left out; whether the device-polling loop and the progress loop are running is kept
    as a flag each. */
module ViewModel {
  import opened Wrappers
  import opened Text
  import opened Devices
  import opened Wire
  import opened AdbUtilities
  import AdbProcess
  import C = Client
  import SI = ServiceImplementation

  // ---------------------------------------------------------------------------
  // Reconnection

  /** The published reconnection fields. */
  datatype Reconnection = Reconnection(
    needsReconnection: bool,
    isReconnecting: bool,
    deviceReconnected: bool,
    deviceConfirmedGone: bool,
    partialSyncCount: Option<int>,
    disconnectedDeviceId: Option<string>)

  /** `fetchedDevices.contains(where: { $0.id == deviceId && $0.state == .device })` */
  predicate DevicePresent(devices: seq<Device>, id: string) {
    exists k | 0 <= k < |devices| :: devices[k].id == id && devices[k].state == Connected
  }

  /** What a successful refresh does to the reconnection fields: while reconnecting to a
      device, a refresh without it confirms that it is gone, and a refresh with it, once it
      was confirmed gone, marks it reconnected. isReconnecting stays as it was. */
  function Gate(f: Reconnection, fetched: seq<Device>): (g: Reconnection)
    ensures g.needsReconnection == f.needsReconnection && g.isReconnecting == f.isReconnecting
    ensures g.partialSyncCount == f.partialSyncCount && g.disconnectedDeviceId == f.disconnectedDeviceId
    ensures !(f.isReconnecting && f.disconnectedDeviceId.Some?) ==> g == f
    ensures f.isReconnecting && f.disconnectedDeviceId.Some? ==>
      var present := DevicePresent(fetched, f.disconnectedDeviceId.value);
      && g.deviceConfirmedGone == (f.deviceConfirmedGone || !present)
      && g.deviceReconnected == (f.deviceReconnected || (present && f.deviceConfirmedGone))
  {
    if f.isReconnecting && f.disconnectedDeviceId.Some? then
      var present := DevicePresent(fetched, f.disconnectedDeviceId.value);
      if !present then f.(deviceConfirmedGone := true)
      else if f.deviceConfirmedGone then f.(deviceReconnected := true)
      else f
    else f
  }

  /** A refresh marks the device reconnected only when it is listed as connected and an earlier
      refresh had confirmed it gone. */
  lemma ReconnectedOnlyAfterGone(f: Reconnection, fetched: seq<Device>)
    requires !f.deviceReconnected && Gate(f, fetched).deviceReconnected
    ensures f.isReconnecting && f.disconnectedDeviceId.Some? && f.deviceConfirmedGone
    ensures DevicePresent(fetched, f.disconnectedDeviceId.value)
  {
  }

  /** The device seen gone, then seen back: reconnected. */
  lemma GoneThenBackReconnects(f: Reconnection, first: seq<Device>, second: seq<Device>)
    requires f.isReconnecting && f.disconnectedDeviceId.Some?
    requires !DevicePresent(first, f.disconnectedDeviceId.value)
    requires DevicePresent(second, f.disconnectedDeviceId.value)
    ensures Gate(Gate(f, first), second).deviceReconnected
  {
  }

  /** After reconnection the model is still reconnecting, so a later refresh without the device
      confirms it gone again while it stays marked reconnected. */
  lemma ReconnectedStaysReconnecting(f: Reconnection, back: seq<Device>, later: seq<Device>)
    requires f.isReconnecting && f.disconnectedDeviceId.Some? && f.deviceConfirmedGone
    requires DevicePresent(back, f.disconnectedDeviceId.value)
    requires !DevicePresent(later, f.disconnectedDeviceId.value)
    ensures var g := Gate(f, back);
      g.deviceReconnected && g.isReconnecting && Gate(g, later).deviceReconnected && Gate(g, later).deviceConfirmedGone
  {
  }

  /** Arming after a disconnection (lines 190-197). deviceReconnected is not touched. */
  function Arm(f: Reconnection, deviceId: string, partialCount: int): (g: Reconnection)
    ensures g.needsReconnection && g.isReconnecting && !g.deviceConfirmedGone
    ensures g.deviceReconnected == f.deviceReconnected
    ensures g.disconnectedDeviceId == Some(deviceId)
    ensures g.partialSyncCount == if partialCount > 0 then Some(partialCount) else None
  {
    f.(needsReconnection := true, isReconnecting := true, deviceConfirmedGone := false,
       partialSyncCount := if partialCount > 0 then Some(partialCount) else None,
       disconnectedDeviceId := Some(deviceId))
  }

  /** Once armed, the device must be seen gone before it can count as reconnected: a refresh
      that still lists it changes nothing. */
  lemma ArmedNeedsAbsenceFirst(f: Reconnection, deviceId: string, partialCount: int, fetched: seq<Device>)
    requires DevicePresent(fetched, deviceId)
    ensures Gate(Arm(f, deviceId, partialCount), fetched) == Arm(f, deviceId, partialCount)
  {
  }

  /** `resumeSync` clears everything but the partial count before syncing again. */
  function Resumed(f: Reconnection): (g: Reconnection)
    ensures !g.needsReconnection && !g.isReconnecting && !g.deviceReconnected && !g.deviceConfirmedGone
    ensures g.disconnectedDeviceId.None? && g.partialSyncCount == f.partialSyncCount
  {
    f.(needsReconnection := false, isReconnecting := false, deviceReconnected := false,
       deviceConfirmedGone := false, disconnectedDeviceId := None)
  }

  /** The Cancel button clears everything but deviceConfirmedGone. */
  function Cancelled(f: Reconnection): (g: Reconnection)
    ensures !g.needsReconnection && !g.isReconnecting && !g.deviceReconnected
    ensures g.partialSyncCount.None? && g.disconnectedDeviceId.None?
    ensures g.deviceConfirmedGone == f.deviceConfirmedGone
  {
    f.(needsReconnection := false, isReconnecting := false, deviceReconnected := false,
       partialSyncCount := None, disconnectedDeviceId := None)
  }

  /** After a resume or a cancel, refreshes no longer touch the reconnection fields. */
  lemma RefreshInertWhenNotReconnecting(f: Reconnection, fetched: seq<Device>)
    ensures Gate(Resumed(f), fetched) == Resumed(f)
    ensures Gate(Cancelled(f), fetched) == Cancelled(f)
  {
  }

  // ---------------------------------------------------------------------------
  // Classifying a failed sync

  /** Lines 183-188: the failure counts as a disconnection when its message contains one of
      six markers. */
  predicate IsDisconnectionMessage(m: string) {
    || Contains(m, "device offline")
    || Contains(m, "device not found")
    || Contains(m, "disconnected")
    || Contains(m, "connect failed")
    || Contains(m, "closed")
    || Contains(m, "Failed to pull")
  }

  /** A message has none of the markers when it lacks 'v' (in both "device" markers), 'F'
      ("Failed to pull"), two n's in a row ("disconnected", "connect failed") and "cl"
      ("closed"). */
  lemma NoMarkerWithout(m: string)
    requires 'v' !in m && 'F' !in m && !HasPair(m, 'n', 'n') && !HasPair(m, 'c', 'l')
    ensures !IsDisconnectionMessage(m)
  {
    if Contains(m, "device offline") { ContainsChar(m, "device offline", 2); }
    if Contains(m, "device not found") { ContainsChar(m, "device not found", 2); }
    if Contains(m, "disconnected") { ContainsPair(m, "disconnected", 5); }
    if Contains(m, "connect failed") { ContainsPair(m, "connect failed", 2); }
    if Contains(m, "closed") { ContainsPair(m, "closed", 0); }
    if Contains(m, "Failed to pull") { ContainsChar(m, "Failed to pull", 0); }
  }

  /** What a failed `startPhotoSync` of the live service has the view-model see. */
  function SyncFailureMessage(f: Fault): (m: string)
    ensures C.StartPhotoSync(true, SI.ToReply<int>(Failure(f))) == Failure(C.Remote(m))
    ensures m == Description(f)
  {
    C.Message(C.StartPhotoSync(true, SI.ToReply<int>(Failure(f))).error)
  }

  /** None of the four tell-tales of a marker: no 'v', no 'F', no "nn", no "cl". */
  predicate Unmarked(m: string) {
    'v' !in m && 'F' !in m && !HasPair(m, 'n', 'n') && !HasPair(m, 'c', 'l')
  }

  lemma UnmarkedConcat(a: string, b: string)
    requires Unmarked(a) && Unmarked(b)
    requires a == [] || b == [] || ((a[|a| - 1] != 'n' || b[0] != 'n') && (a[|a| - 1] != 'c' || b[0] != 'l'))
    ensures Unmarked(a + b)
  {
    NoPairInConcat(a, b, 'n', 'n');
    NoPairInConcat(a, b, 'c', 'l');
  }

  // Helpers of NoPhotosMessageUnmarked: the message in chunks, one literal fact each, kept
  // apart so that each proof stays small.

  lemma NoPhotosHeadUnmarked()
    ensures Unmarked("No photos found ") && Unmarked("in this folder.\n\n")
  {
  }

  lemma NoPhotosTailUnmarked()
    ensures Unmarked("Please select a ") && Unmarked("different folder ")
  {
  }

  lemma NoPhotosEndUnmarked()
    ensures Unmarked("with images.")
  {
  }

  lemma NoPhotosMessageUnmarked()
    ensures Unmarked(SI.NoPhotosMessage)
  {
    var a, b, c, d, e := "No photos found ", "in this folder.\n\n", "Please select a ", "different folder ", "with images.";
    NoPhotosHeadUnmarked();
    NoPhotosTailUnmarked();
    NoPhotosEndUnmarked();
    UnmarkedConcat(a, b);
    UnmarkedConcat(a + b, c);
    UnmarkedConcat(a + b + c, d);
    UnmarkedConcat(a + b + c + d, e);
  }

  /** The failures that are not about the device stay unclassified: an empty source folder,
      a missing adb, output that is not UTF-8. */
  lemma NoPhotosNotDisconnection()
    ensures !IsDisconnectionMessage(SyncFailureMessage(Adb(CommandFailed(SI.NoPhotosMessage))))
  {
    assert Unmarked("ADB command ") && Unmarked("failed: ");
    UnmarkedConcat("ADB command ", "failed: ");
    NoPhotosMessageUnmarked();
    UnmarkedConcat(CommandFailedPrefix, SI.NoPhotosMessage);
    NoMarkerWithout(CommandFailedPrefix + SI.NoPhotosMessage);
  }

  lemma AdbNotFoundNotDisconnection()
    ensures !IsDisconnectionMessage(SyncFailureMessage(Adb(AdbNotFound)))
  {
    assert Unmarked("ADB executable not ");
    assert Unmarked("found in package ");
    assert Unmarked("resources");
    UnmarkedConcat("ADB executable not ", "found in package ");
    UnmarkedConcat("ADB executable not " + "found in package ", "resources");
    NoMarkerWithout(AdbNotFoundText);
  }

  lemma InvalidOutputNotDisconnection()
    ensures !IsDisconnectionMessage(SyncFailureMessage(Adb(InvalidOutput)))
  {
    assert Unmarked("Could not decode ");
    assert Unmarked("ADB command output");
    UnmarkedConcat("Could not decode ", "ADB command output");
    NoMarkerWithout(InvalidOutputText);
  }

  /** Whatever adb says when a pull fails, the failure the service reports is classified as
      a disconnection: either the device-disconnected text or a message naming the failed pull. */
  lemma PullFailuresAreDisconnections(adb: AdbProcess.Adb, deviceId: string, sourcePath: string, fileName: string, destinationPath: string)
    requires SI.PullPhoto(adb, deviceId, sourcePath, fileName, destinationPath).Some?
    requires SI.PullPhoto(adb, deviceId, sourcePath, fileName, destinationPath).value.Adb?
    ensures IsDisconnectionMessage(SyncFailureMessage(SI.PullPhoto(adb, deviceId, sourcePath, fileName, destinationPath).value))
  {
    SI.PullErrorDescriptions(adb, deviceId, sourcePath, fileName, destinationPath);
    DeviceDisconnectedMentionsIt();
  }

  // ---------------------------------------------------------------------------
  // Sync progress

  const StartingSync: string := "Starting sync..."
  const SyncComplete: string := "Sync complete!"

  /** `"Syncing \(current)/\(total) photos..."` */
  function SyncingMessage(current: int, total: int): (m: string)
    ensures |m| > 18 && m[..8] == "Syncing " && m[|m| - 10..] == " photos..."
    ensures '/' in m[8..|m| - 10]
  {
    var middle := Decimal(current) + "/" + Decimal(total);
    Affixes("Syncing ", middle, " photos...");
    assert middle[|Decimal(current)|] == '/';
    "Syncing " + middle + " photos..."
  }

  /** The message tells the count and the total it was made from. */
  lemma SyncingMessageInjective(c1: int, t1: int, c2: int, t2: int)
    requires SyncingMessage(c1, t1) == SyncingMessage(c2, t2)
    ensures c1 == c2 && t1 == t2
  {
    var d1, e1, d2, e2 := Decimal(c1), Decimal(t1), Decimal(c2), Decimal(t2);
    SyncingMessageMiddle(d1, e1, d2, e2);
    SplitAtAbsent(d1, e1, d2, e2, '/');
    DecimalInjective(c1, c2);
    DecimalInjective(t1, t2);
  }

  lemma SyncingMessageMiddle(d1: string, e1: string, d2: string, e2: string)
    requires "Syncing " + (d1 + "/" + e1) + " photos..." == "Syncing " + (d2 + "/" + e2) + " photos..."
    ensures d1 + "/" + e1 == d2 + "/" + e2
  {
    BetweenAffixes("Syncing ", d1 + "/" + e1, d2 + "/" + e2, " photos...");
  }



  /** The published sync fields. */
  datatype SyncView = SyncView(syncProgress: Option<string>, count: int, total: int, photo: string)

  /** One progress snapshot as `updateSyncProgress` publishes it: nothing while the total is
      not yet known. */
  function Shown(v: SyncView, p: Progress): SyncView {
    if p.total > 0 then SyncView(Some(SyncingMessage(p.current, p.total)), p.current, p.total, p.currentFile) else v
  }

  /** A run of snapshots, published in turn. */
  function AfterPolls(v: SyncView, polls: seq<Progress>): SyncView {
    if polls == [] then v else Shown(AfterPolls(v, polls[..|polls| - 1]), polls[|polls| - 1])
  }

  /** The last snapshot that knew its total. */
  function LastShown(polls: seq<Progress>): (r: Option<Progress>)
    ensures r.Some? ==> r.value.total > 0 && r.value in polls
    ensures r.None? <==> forall k :: 0 <= k < |polls| ==> polls[k].total <= 0
  {
    if polls == [] then None
    else if polls[|polls| - 1].total > 0 then Some(polls[|polls| - 1])
    else LastShown(polls[..|polls| - 1])
  }

  /** What the sync view shows after a run of snapshots is the last one with a total, or what
      it showed before when there was none. */
  lemma {:induction false} AfterPollsShowsLastShown(v: SyncView, polls: seq<Progress>)
    ensures AfterPolls(v, polls) == match LastShown(polls)
      case None => v
      case Some(p) => SyncView(Some(SyncingMessage(p.current, p.total)), p.current, p.total, p.currentFile)
  {
    if polls != [] {
      AfterPollsShowsLastShown(v, polls[..|polls| - 1]);
    }
  }

  /** The partial count: `current` of the last snapshot, or what it was before. */
  function LastCurrent(before: int, polls: seq<Progress>): (c: int)
    ensures polls == [] ==> c == before
    ensures polls != [] ==> c == polls[|polls| - 1].current
  {
    if polls == [] then before else polls[|polls| - 1].current
  }

  // ---------------------------------------------------------------------------
  // The outcome of a sync

  /** The reconnection fields after `syncPhotos`: armed when the failure is classified as a
      disconnection, as before otherwise. */
  function AfterSync(f: Reconnection, deviceId: string, polls: seq<Progress>, outcome: Result<int, string>): (g: Reconnection)
    ensures !(outcome.Failure? && IsDisconnectionMessage(outcome.error)) ==> g == f
    ensures outcome.Failure? && IsDisconnectionMessage(outcome.error) ==>
      && g.needsReconnection && g.isReconnecting && !g.deviceConfirmedGone
      && g.deviceReconnected == f.deviceReconnected
      && g.disconnectedDeviceId == Some(deviceId)
      && g.partialSyncCount == SyncReturn(polls, outcome)
  {
    if outcome.Failure? && IsDisconnectionMessage(outcome.error) then Arm(f, deviceId, LastCurrent(0, polls)) else f
  }

  /** What `syncPhotos` returns: the count, or the partial count when it is positive. */
  function SyncReturn(polls: seq<Progress>, outcome: Result<int, string>): (r: Option<int>)
    ensures outcome.Success? ==> r == Some(outcome.value)
    ensures outcome.Failure? ==> r == if LastCurrent(0, polls) > 0 then Some(LastCurrent(0, polls)) else None
  {
    match outcome
    case Success(count) => Some(count)
    case Failure(_) => var partial := LastCurrent(0, polls); if partial > 0 then Some(partial) else None
  }

  /** The partial count a failed sync reports is the count of this sync's last snapshot:
      without a snapshot there is none. */
  lemma PartialCountComesFromThisSync(polls: seq<Progress>, message: string)
    requires SyncReturn(polls, Failure(message)).Some?
    ensures polls != [] && SyncReturn(polls, Failure(message)).value == polls[|polls| - 1].current > 0
  {
  }

  /** A disconnection arms reconnection to the synced device, recording as partial count the
      value the failed sync returns. */
  lemma DisconnectionArms(f: Reconnection, deviceId: string, polls: seq<Progress>, message: string)
    requires IsDisconnectionMessage(message)
    ensures var g := AfterSync(f, deviceId, polls, Failure(message));
      && g.needsReconnection && g.isReconnecting && !g.deviceConfirmedGone
      && g.disconnectedDeviceId == Some(deviceId)
      && g.partialSyncCount == SyncReturn(polls, Failure(message))
  {
  }

  /** A sync of an empty folder fails without arming reconnection, and so does one without adb. */
  lemma EmptyFolderDoesNotArm(f: Reconnection, deviceId: string, polls: seq<Progress>)
    ensures AfterSync(f, deviceId, polls, Failure(SyncFailureMessage(Adb(CommandFailed(SI.NoPhotosMessage))))) == f
    ensures AfterSync(f, deviceId, polls, Failure(SyncFailureMessage(Adb(AdbNotFound)))) == f
  {
    NoPhotosNotDisconnection();
    AdbNotFoundNotDisconnection();
  }

  /** A failed resume of a disconnected sync arms again; the partial count kept through the
      resume is replaced, so without a snapshot none is recorded. */
  lemma ResumeRearms(f: Reconnection, deviceId: string, message: string)
    requires IsDisconnectionMessage(message)
    ensures AfterSync(Resumed(f), deviceId, [], Failure(message)).partialSyncCount.None?
    ensures AfterSync(Resumed(f), deviceId, [], Failure(message)).disconnectedDeviceId == Some(deviceId)
  {
  }

  // ---------------------------------------------------------------------------
  // Device list helpers

  /** `firstIndex(where: { $0.id == id })` */
  function FirstIndex(devices: seq<Device>, id: string): (r: Option<nat>)
    ensures r.Some? ==> r.value < |devices| && devices[r.value].id == id
    ensures r.Some? ==> forall j :: 0 <= j < r.value ==> devices[j].id != id
    ensures r.None? <==> forall j :: 0 <= j < |devices| ==> devices[j].id != id
  {
    if devices == [] then None
    else if devices[0].id == id then Some(0)
    else match FirstIndex(devices[1..], id)
      case None => None
      case Some(k) => Some(k + 1)
  }

  /** The connected devices of a list, in order. */
  function ConnectedDevices(devices: seq<Device>): (r: seq<Device>)
    ensures forall d :: d in r <==> d in devices && d.state == Connected
    ensures |r| <= |devices|
  {
    if devices == [] then []
    else
      var last := devices[|devices| - 1];
      ConnectedDevices(devices[..|devices| - 1]) + (if last.state == Connected then [last] else [])
  }

  /** The filter works piece by piece, so it keeps the order and the repeats of its input. */
  lemma {:induction false} ConnectedDevicesAppend(a: seq<Device>, b: seq<Device>)
    ensures ConnectedDevices(a + b) == ConnectedDevices(a) + ConnectedDevices(b)
    decreases |b|
  {
    if b == [] {
      assert a + b == a;
    } else {
      var last := b[|b| - 1];
      assert (a + b)[..|a + b| - 1] == a + b[..|b| - 1] && (a + b)[|a + b| - 1] == last;
      ConnectedDevicesAppend(a, b[..|b| - 1]);
    }
  }

  // ---------------------------------------------------------------------------

  class ADBService {
    var devices: seq<Device>
    var isLoading: bool
    var error: Option<string>
    var isMonitoring: bool
    var isSyncing: bool
    var syncProgress: Option<string>
    var syncCurrentCount: int
    var syncTotalCount: int
    var syncCurrentPhoto: string
    var needsReconnection: bool
    var isReconnecting: bool
    var deviceReconnected: bool
    var deviceConfirmedGone: bool
    var partialSyncCount: Option<int>
    var disconnectedDeviceId: Option<string>
    var syncProgressCurrent: int
    /** Whether the device-polling task is running. */
    var devicePolling: bool
    /** Whether the progress-polling task is running. */
    var progressPolling: bool

    function Flags(): Reconnection
      reads this`needsReconnection, this`isReconnecting, this`deviceReconnected, this`deviceConfirmedGone,
            this`partialSyncCount, this`disconnectedDeviceId
    {
      Reconnection(needsReconnection, isReconnecting, deviceReconnected, deviceConfirmedGone,
                   partialSyncCount, disconnectedDeviceId)
    }

    function Published(): SyncView
      reads this`syncProgress, this`syncCurrentCount, this`syncTotalCount, this`syncCurrentPhoto
    {
      SyncView(syncProgress, syncCurrentCount, syncTotalCount, syncCurrentPhoto)
    }

    constructor()
      ensures devices == [] && !isLoading && error.None? && !isMonitoring && !isSyncing
      ensures Published() == SyncView(None, 0, 0, []) && syncProgressCurrent == 0
      ensures Flags() == Reconnection(false, false, false, false, None, None)
      ensures !devicePolling && !progressPolling
    {
      devices := [];
      isLoading := false;
      error := None;
      isMonitoring := false;
      isSyncing := false;
      syncProgress := None;
      syncCurrentCount := 0;
      syncTotalCount := 0;
      syncCurrentPhoto := [];
      needsReconnection := false;
      isReconnecting := false;
      deviceReconnected := false;
      deviceConfirmedGone := false;
      partialSyncCount := None;
      disconnectedDeviceId := None;
      syncProgressCurrent := 0;
      devicePolling := false;
      progressPolling := false;
    }

    // -------------------------------------------------------------------------
    // Monitoring

    /** `startMonitoring`: the device-polling task is (re)started. */
    method StartMonitoring()
      modifies this`isMonitoring, this`devicePolling
      ensures isMonitoring && devicePolling
    {
      isMonitoring := true;
      devicePolling := true;
    }

    method StopMonitoring()
      modifies this`isMonitoring, this`devicePolling
      ensures !isMonitoring && !devicePolling
    {
      devicePolling := false;
      isMonitoring := false;
    }

    // -------------------------------------------------------------------------
    // Devices

    /** `refreshDevices`, given what `listDevices` returned. Returns the devices whose details
        are then fetched, each by a `fetchDeviceDetails` of its own. */
    method RefreshDevices(showLoading: bool, fetched: Result<seq<Device>, string>) returns (detailRequests: seq<Device>)
      modifies this`isLoading, this`devices, this`deviceConfirmedGone, this`deviceReconnected, this`error
      ensures isLoading == if showLoading then false else old(isLoading)
      ensures fetched.Success? ==>
        && devices == fetched.value
        && Flags() == Gate(old(Flags()), fetched.value)
        && error == old(error)
        && detailRequests == ConnectedDevices(fetched.value)
      ensures fetched.Failure? ==>
        && devices == old(devices)
        && Flags() == old(Flags())
        && error == (if old(needsReconnection) then old(error) else Some(fetched.error))
        && detailRequests == []
    {
      if showLoading {
        isLoading := true;
      }
      detailRequests := [];
      match fetched {
        case Success(fetchedDevices) =>
          devices := fetchedDevices;
          if isReconnecting && disconnectedDeviceId.Some? {
            var deviceId := disconnectedDeviceId.value;
            var deviceExists := DevicePresent(fetchedDevices, deviceId);
            if !deviceExists {
              deviceConfirmedGone := true;
            } else if deviceConfirmedGone && deviceExists {
              deviceReconnected := true;
            }
          }
          var i := 0;
          while i < |fetchedDevices|
            invariant 0 <= i <= |fetchedDevices|
            invariant detailRequests == ConnectedDevices(fetchedDevices[..i])
          {
            assert fetchedDevices[..i + 1][..i] == fetchedDevices[..i];
            if fetchedDevices[i].state == Connected {
              detailRequests := detailRequests + [fetchedDevices[i]];
            }
            i := i + 1;
          }
          assert fetchedDevices[..i] == fetchedDevices;
        case Failure(message) =>
          if !needsReconnection {
            error := Some(message);
          }
      }
      if showLoading {
        isLoading := false;
      }
    }

    /** `fetchDeviceDetails`, given what `getDeviceDetails` returned: the details replace the
        first listed device of that id; without one, or when the read failed, nothing changes. */
    method FetchDeviceDetails(device: Device, detailed: Result<Device, string>)
      modifies this`devices
      ensures detailed.Failure? || FirstIndex(old(devices), device.id).None? ==> devices == old(devices)
      ensures detailed.Success? && FirstIndex(old(devices), device.id).Some? ==>
        devices == old(devices)[FirstIndex(old(devices), device.id).value := detailed.value]
    {
      if detailed.Success? {
        var index := FirstIndex(devices, device.id);
        if index.Some? {
          devices := devices[index.value := detailed.value];
        }
      }
    }

    // -------------------------------------------------------------------------
    // Sync

    /** `updateSyncProgress`, given what `getPhotoSyncProgress` returned. */
    method UpdateSyncProgress(progress: Progress)
      modifies this`syncProgress, this`syncCurrentCount, this`syncTotalCount, this`syncCurrentPhoto, this`syncProgressCurrent
      ensures Published() == Shown(old(Published()), progress)
      ensures syncProgressCurrent == progress.current
    {
      if progress.total > 0 {
        syncProgress := Some(SyncingMessage(progress.current, progress.total));
        syncCurrentCount := progress.current;
        syncTotalCount := progress.total;
        syncCurrentPhoto := progress.currentFile;
      }
      syncProgressCurrent := progress.current;
    }

    /** The progress loop, for the snapshots it reads while the sync runs. */
    method ApplyPolls(polls: seq<Progress>)
      modifies this`syncProgress, this`syncCurrentCount, this`syncTotalCount, this`syncCurrentPhoto, this`syncProgressCurrent
      ensures Published() == AfterPolls(old(Published()), polls)
      ensures syncProgressCurrent == LastCurrent(old(syncProgressCurrent), polls)
    {
      var i := 0;
      while i < |polls|
        invariant 0 <= i <= |polls|
        invariant Published() == AfterPolls(old(Published()), polls[..i])
        invariant syncProgressCurrent == LastCurrent(old(syncProgressCurrent), polls[..i])
      {
        assert polls[..i + 1][..i] == polls[..i];
        UpdateSyncProgress(polls[i]);
        i := i + 1;
      }
      assert polls[..i] == polls;
    }

    method StartSyncProgressPolling()
      modifies this`progressPolling
      ensures progressPolling
    {
      progressPolling := true;
    }

    method StopSyncProgressPolling()
      modifies this`progressPolling
      ensures !progressPolling
    {
      progressPolling := false;
    }

    /** `syncPhotos`, given the snapshots the progress loop reads and what `startPhotoSync`
        returned. */
    method SyncPhotos(device: Device, polls: seq<Progress>, outcome: Result<int, string>) returns (r: Option<int>)
      modifies this`syncProgress, this`syncCurrentCount, this`syncTotalCount, this`syncCurrentPhoto,
               this`syncProgressCurrent, this`isSyncing, this`error, this`isMonitoring, this`devicePolling,
               this`progressPolling, this`needsReconnection, this`isReconnecting, this`deviceReconnected,
               this`deviceConfirmedGone, this`partialSyncCount, this`disconnectedDeviceId
      ensures r == SyncReturn(polls, outcome)
      ensures Flags() == AfterSync(old(Flags()), device.id, polls, outcome)
      ensures !isSyncing && !progressPolling && isMonitoring && devicePolling && syncCurrentPhoto == []
      ensures syncProgressCurrent == LastCurrent(0, polls)
      ensures var v := AfterPolls(SyncView(Some(StartingSync), 0, 0, []), polls);
        && syncCurrentCount == v.count && syncTotalCount == v.total
        && (outcome.Success? ==> error.None? && syncProgress == if outcome.value > 0 then Some(SyncComplete) else v.syncProgress)
        && (outcome.Failure? ==> error == Some(outcome.error) && syncProgress.None?)
    {
      BeginSync();
      ghost var flags := Flags();
      ApplyPolls(polls);
      ghost var v := AfterPolls(SyncView(Some(StartingSync), 0, 0, []), polls);
      assert Published() == v && Flags() == flags;
      match outcome {
        case Success(count) =>
          r := CompleteSync(count);
        case Failure(errorMessage) =>
          r := FailSync(device.id, errorMessage);
      }
    }

    /** Lines 137-147: the sync fields are reset, device monitoring stops and the progress loop
        starts. */
    method BeginSync()
      modifies this`syncProgress, this`syncCurrentCount, this`syncTotalCount, this`syncCurrentPhoto,
               this`syncProgressCurrent, this`isSyncing, this`error, this`isMonitoring, this`devicePolling,
               this`progressPolling
      ensures Published() == SyncView(Some(StartingSync), 0, 0, []) && syncProgressCurrent == 0
      ensures isSyncing && error.None? && !isMonitoring && !devicePolling && progressPolling
    {
      syncProgress := None;
      syncCurrentCount := 0;
      syncTotalCount := 0;
      syncCurrentPhoto := [];
      syncProgressCurrent := 0;
      isSyncing := true;
      syncProgress := Some(StartingSync);
      error := None;
      StopMonitoring();
      StartSyncProgressPolling();
    }

    /** Lines 155-172: the count was returned. */
    method CompleteSync(count: int) returns (r: Option<int>)
      modifies this`syncProgress, this`progressPolling, this`isSyncing, this`syncCurrentPhoto,
               this`isMonitoring, this`devicePolling
      ensures r == Some(count)
      ensures syncProgress == if count > 0 then Some(SyncComplete) else old(syncProgress)
      ensures !progressPolling && !isSyncing && syncCurrentPhoto == [] && isMonitoring && devicePolling
    {
      if count > 0 {
        syncProgress := Some(SyncComplete);
      }
      StopSyncProgressPolling();
      isSyncing := false;
      syncCurrentPhoto := [];
      StartMonitoring();
      return Some(count);
    }

    /** Lines 174-200: the sync threw an error with this message. */
    method FailSync(deviceId: string, errorMessage: string) returns (r: Option<int>)
      modifies this`syncProgress, this`progressPolling, this`isSyncing, this`syncCurrentPhoto,
               this`needsReconnection, this`isReconnecting, this`deviceConfirmedGone, this`partialSyncCount,
               this`disconnectedDeviceId, this`error, this`isMonitoring, this`devicePolling
      ensures r == if syncProgressCurrent > 0 then Some(syncProgressCurrent) else None
      ensures Flags() == if IsDisconnectionMessage(errorMessage) then Arm(old(Flags()), deviceId, syncProgressCurrent) else old(Flags())
      ensures syncProgress.None? && error == Some(errorMessage)
      ensures !progressPolling && !isSyncing && syncCurrentPhoto == [] && isMonitoring && devicePolling
    {
      var partialCount := syncProgressCurrent;
      syncProgress := None;
      StopSyncProgressPolling();
      isSyncing := false;
      syncCurrentPhoto := [];
      var isDisconnectionError := IsDisconnectionMessage(errorMessage);
      if isDisconnectionError {
        ArmReconnection(deviceId, partialCount);
      }
      error := Some(errorMessage);
      StartMonitoring();
      return if partialCount > 0 then Some(partialCount) else None;
    }

    /** Lines 191-196. */
    method ArmReconnection(deviceId: string, partialCount: int)
      modifies this`needsReconnection, this`isReconnecting, this`deviceConfirmedGone, this`partialSyncCount,
               this`disconnectedDeviceId, this`error
      ensures Flags() == Arm(old(Flags()), deviceId, partialCount) && error.None?
    {
      needsReconnection := true;
      isReconnecting := true;
      deviceConfirmedGone := false;
      partialSyncCount := if partialCount > 0 then Some(partialCount) else None;
      disconnectedDeviceId := Some(deviceId);
      error := None;
    }

    /** `resumeSync`: the reconnection fields but the partial count are cleared, then the sync
        runs again. */
    method ResumeSync(device: Device, polls: seq<Progress>, outcome: Result<int, string>) returns (r: Option<int>)
      modifies this`syncProgress, this`syncCurrentCount, this`syncTotalCount, this`syncCurrentPhoto,
               this`syncProgressCurrent, this`isSyncing, this`error, this`isMonitoring, this`devicePolling,
               this`progressPolling, this`needsReconnection, this`isReconnecting, this`deviceReconnected,
               this`deviceConfirmedGone, this`partialSyncCount, this`disconnectedDeviceId
      ensures r == SyncReturn(polls, outcome)
      ensures Flags() == AfterSync(Resumed(old(Flags())), device.id, polls, outcome)
      ensures !isSyncing && isMonitoring
      ensures outcome.Failure? ==> error == Some(outcome.error)
      ensures outcome.Success? ==> error.None?
    {
      needsReconnection := false;
      isReconnecting := false;
      deviceReconnected := false;
      deviceConfirmedGone := false;
      disconnectedDeviceId := None;
      r := SyncPhotos(device, polls, outcome);
    }

    /** The reconnection panel's Cancel button. */
    method Cancel()
      modifies this`needsReconnection, this`isReconnecting, this`deviceReconnected, this`partialSyncCount,
               this`disconnectedDeviceId, this`error
      ensures Flags() == Cancelled(old(Flags())) && error.None?
    {
      needsReconnection := false;
      isReconnecting := false;
      deviceReconnected := false;
      partialSyncCount := None;
      disconnectedDeviceId := None;
      error := None;
    }
  }
}
