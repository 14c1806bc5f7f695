/** The earlier view-model (ADBManager/ADBService.swift). It differs from the live one
    (module ViewModel) in four ways: a reconnection also ends reconnecting; every failed sync
    arms reconnection, whatever its message; `resumeSync` keeps deviceConfirmedGone; and a
    sync does not reset the count its progress loop last read, nor does it publish a count,
    a total or a photo name. A refresh starts no detail fetches. */
module LegacyViewModel {
  import opened Wrappers
  import opened Devices
  import opened Wire
  import opened AdbUtilities
  import VM = ViewModel

  // ---------------------------------------------------------------------------
  // Reconnection

  /** Lines 82-90: like the live gate, except that the refresh that finds the device back also
      ends reconnecting. */
  function Gate(f: VM.Reconnection, fetched: seq<Device>): (g: VM.Reconnection)
    ensures g.needsReconnection == f.needsReconnection
    ensures g.partialSyncCount == f.partialSyncCount && g.disconnectedDeviceId == f.disconnectedDeviceId
    ensures !(f.isReconnecting && f.disconnectedDeviceId.Some?) ==> g == f
    ensures f.isReconnecting && f.disconnectedDeviceId.Some? ==>
      var back := VM.DevicePresent(fetched, f.disconnectedDeviceId.value) && f.deviceConfirmedGone;
      && g.deviceConfirmedGone == (f.deviceConfirmedGone || !VM.DevicePresent(fetched, f.disconnectedDeviceId.value))
      && g.deviceReconnected == (f.deviceReconnected || back)
      && g.isReconnecting == !back
  {
    if f.isReconnecting && f.disconnectedDeviceId.Some? then
      var deviceExists := VM.DevicePresent(fetched, f.disconnectedDeviceId.value);
      if !deviceExists then f.(deviceConfirmedGone := true)
      else if f.deviceConfirmedGone && deviceExists then f.(deviceReconnected := true, isReconnecting := false)
      else f
    else f
  }

  /** The two gates agree on everything but isReconnecting, which only this one clears. */
  lemma GatesAgreeButReconnecting(f: VM.Reconnection, fetched: seq<Device>)
    ensures Gate(f, fetched).(isReconnecting := f.isReconnecting) == VM.Gate(f, fetched)
    ensures VM.Gate(f, fetched).isReconnecting == f.isReconnecting
    ensures Gate(f, fetched).isReconnecting ==
      (f.isReconnecting && !(f.disconnectedDeviceId.Some? && f.deviceConfirmedGone && VM.DevicePresent(fetched, f.disconnectedDeviceId.value)))
  {
  }

  /** The device is marked reconnected only once it was confirmed gone and is listed as
      connected again. */
  lemma ReconnectedOnlyAfterGone(f: VM.Reconnection, fetched: seq<Device>)
    requires !f.deviceReconnected && Gate(f, fetched).deviceReconnected
    ensures f.isReconnecting && f.disconnectedDeviceId.Some? && f.deviceConfirmedGone
    ensures VM.DevicePresent(fetched, f.disconnectedDeviceId.value)
  {
  }

  /** Seen gone, then back: reconnected and no longer reconnecting, after which no refresh
      changes the reconnection fields. */
  lemma ReconnectionIsFinal(f: VM.Reconnection, first: seq<Device>, second: seq<Device>, later: seq<Device>)
    requires f.isReconnecting && f.disconnectedDeviceId.Some?
    requires !VM.DevicePresent(first, f.disconnectedDeviceId.value)
    requires VM.DevicePresent(second, f.disconnectedDeviceId.value)
    ensures var g := Gate(Gate(f, first), second);
      g.deviceReconnected && !g.isReconnecting && Gate(g, later) == g
  {
  }

  /** Lines 186-189: deviceConfirmedGone and the partial count are kept. */
  function Resumed(f: VM.Reconnection): (g: VM.Reconnection)
    ensures !g.needsReconnection && !g.isReconnecting && !g.deviceReconnected && g.disconnectedDeviceId.None?
    ensures g.deviceConfirmedGone == f.deviceConfirmedGone && g.partialSyncCount == f.partialSyncCount
  {
    f.(needsReconnection := false, isReconnecting := false, deviceReconnected := false, disconnectedDeviceId := None)
  }

  /** The flag a resume keeps cannot be seen: refreshes ignore it until a failure re-arms,
      and re-arming sets the same fields as after a live resume. */
  lemma KeptGoneFlagIsInert(f: VM.Reconnection, fetched: seq<Device>, deviceId: string, partialCount: int)
    ensures Gate(Resumed(f), fetched) == Resumed(f)
    ensures VM.Arm(Resumed(f), deviceId, partialCount) == VM.Arm(VM.Resumed(f), deviceId, partialCount)
  {
  }

  // ---------------------------------------------------------------------------
  // The outcome of a sync

  /** Lines 159-172: any failure arms. */
  function AfterSync(f: VM.Reconnection, deviceId: string, before: int, polls: seq<Progress>, outcome: Result<int, string>): (g: VM.Reconnection)
    ensures outcome.Success? ==> g == f
    ensures outcome.Failure? ==>
      && g.needsReconnection && g.isReconnecting && !g.deviceConfirmedGone
      && g.deviceReconnected == f.deviceReconnected
      && g.disconnectedDeviceId == Some(deviceId)
      && g.partialSyncCount == SyncReturn(before, polls, outcome)
  {
    if outcome.Failure? then VM.Arm(f, deviceId, VM.LastCurrent(before, polls)) else f
  }

  /** Lines 157 and 176. The partial count is the one last read, by this sync or before it. */
  function SyncReturn(before: int, polls: seq<Progress>, outcome: Result<int, string>): (r: Option<int>)
    ensures outcome.Success? ==> r == Some(outcome.value)
    ensures outcome.Failure? ==> r == if VM.LastCurrent(before, polls) > 0 then Some(VM.LastCurrent(before, polls)) else None
  {
    match outcome
    case Success(count) => Some(count)
    case Failure(_) => var partial := VM.LastCurrent(before, polls); if partial > 0 then Some(partial) else None
  }

  /** Whatever the message, a failure arms reconnection to the synced device, recording as
      partial count the value the sync returns. */
  lemma EveryFailureArms(f: VM.Reconnection, deviceId: string, before: int, polls: seq<Progress>, message: string)
    ensures var g := AfterSync(f, deviceId, before, polls, Failure(message));
      && g.needsReconnection && g.isReconnecting && !g.deviceConfirmedGone
      && g.disconnectedDeviceId == Some(deviceId)
      && g.partialSyncCount == SyncReturn(before, polls, Failure(message))
  {
  }

  /** Unlike the live view-model, this one arms reconnection also when adb is missing, which no
      reconnecting can mend. */
  lemma MissingAdbArms(f: VM.Reconnection, deviceId: string, before: int, polls: seq<Progress>)
    ensures var m := VM.SyncFailureMessage(Adb(AdbNotFound));
      && AfterSync(f, deviceId, before, polls, Failure(m)).needsReconnection
      && AfterSync(f, deviceId, before, polls, Failure(m)).disconnectedDeviceId == Some(deviceId)
      && VM.AfterSync(f, deviceId, polls, Failure(m)) == f
  {
    VM.AdbNotFoundNotDisconnection();
  }

  /** On a disconnection the two revisions arm alike, given the same partial count. */
  lemma DisconnectionsArmAlike(f: VM.Reconnection, deviceId: string, polls: seq<Progress>, message: string)
    requires VM.IsDisconnectionMessage(message)
    ensures AfterSync(f, deviceId, 0, polls, Failure(message)) == VM.AfterSync(f, deviceId, polls, Failure(message))
    ensures SyncReturn(0, polls, Failure(message)) == VM.SyncReturn(polls, Failure(message))
  {
  }

  /** A sync that fails before its progress loop reads anything reports, as its partial count,
      the count an earlier sync left behind. */
  lemma StalePartialCount(f: VM.Reconnection, deviceId: string)
    ensures SyncReturn(5, [], Failure("closed")) == Some(5)
    ensures AfterSync(f, deviceId, 5, [], Failure("closed")).partialSyncCount == Some(5)
    ensures VM.SyncReturn([], Failure("closed")).None?
  {
  }

  /** The progress message after a run of snapshots, each applied in turn. */
  function ProgressAfter(before: Option<string>, polls: seq<Progress>): Option<string> {
    if polls == [] then before
    else if polls[|polls| - 1].total > 0 then Some(VM.SyncingMessage(polls[|polls| - 1].current, polls[|polls| - 1].total))
    else ProgressAfter(before, polls[..|polls| - 1])
  }

  /** The message shown is that of the last snapshot with a total, or the one before when there
      was none. */
  lemma {:induction false} ProgressAfterShowsLastShown(before: Option<string>, polls: seq<Progress>)
    ensures ProgressAfter(before, polls) == match VM.LastShown(polls)
      case None => before
      case Some(p) => Some(VM.SyncingMessage(p.current, p.total))
  {
    if polls != [] && polls[|polls| - 1].total <= 0 {
      ProgressAfterShowsLastShown(before, polls[..|polls| - 1]);
    }
  }

  // ---------------------------------------------------------------------------

  class ADBService {
    var devices: seq<Device>
    var isLoading: bool
    var error: Option<string>
    var isMonitoring: bool
    var isSyncing: bool
    var syncProgress: Option<string>
    var needsReconnection: bool
    var isReconnecting: bool
    var deviceReconnected: bool
    var deviceConfirmedGone: bool
    var partialSyncCount: Option<int>
    var disconnectedDeviceId: Option<string>
    var syncProgressCurrent: int
    /** Whether the device-polling task is running. */
    var devicePolling: bool
    /** Whether the progress-polling task is running. */
    var progressPolling: bool

    function Flags(): VM.Reconnection
      reads this`needsReconnection, this`isReconnecting, this`deviceReconnected, this`deviceConfirmedGone,
            this`partialSyncCount, this`disconnectedDeviceId
    {
      VM.Reconnection(needsReconnection, isReconnecting, deviceReconnected, deviceConfirmedGone,
                      partialSyncCount, disconnectedDeviceId)
    }

    constructor()
      ensures devices == [] && !isLoading && error.None? && !isMonitoring && !isSyncing && syncProgress.None?
      ensures Flags() == VM.Reconnection(false, false, false, false, None, None) && syncProgressCurrent == 0
      ensures !devicePolling && !progressPolling
    {
      devices := [];
      isLoading := false;
      error := None;
      isMonitoring := false;
      isSyncing := false;
      syncProgress := None;
      needsReconnection := false;
      isReconnecting := false;
      deviceReconnected := false;
      deviceConfirmedGone := false;
      partialSyncCount := None;
      disconnectedDeviceId := None;
      syncProgressCurrent := 0;
      devicePolling := false;
      progressPolling := false;
    }

    method StartMonitoring()
      modifies this`isMonitoring, this`devicePolling
      ensures isMonitoring && devicePolling
    {
      isMonitoring := true;
      devicePolling := true;
    }

    method StopMonitoring()
      modifies this`isMonitoring, this`devicePolling
      ensures !isMonitoring && !devicePolling
    {
      devicePolling := false;
      isMonitoring := false;
    }

    /** `refreshDevices`, given what `listDevices` returned. */
    method RefreshDevices(showLoading: bool, fetched: Result<seq<Device>, string>)
      modifies this`isLoading, this`devices, this`deviceConfirmedGone, this`deviceReconnected, this`isReconnecting, this`error
      ensures isLoading == if showLoading then false else old(isLoading)
      ensures fetched.Success? ==>
        devices == fetched.value && Flags() == Gate(old(Flags()), fetched.value) && error == old(error)
      ensures fetched.Failure? ==>
        && devices == old(devices)
        && Flags() == old(Flags())
        && error == (if old(needsReconnection) then old(error) else Some(fetched.error))
    {
      if showLoading {
        isLoading := true;
      }
      match fetched {
        case Success(fetchedDevices) =>
          devices := fetchedDevices;
          if isReconnecting && disconnectedDeviceId.Some? {
            var deviceId := disconnectedDeviceId.value;
            var deviceExists := VM.DevicePresent(fetchedDevices, deviceId);
            if !deviceExists {
              deviceConfirmedGone := true;
            } else if deviceConfirmedGone && deviceExists {
              deviceReconnected := true;
              isReconnecting := false;
            }
          }
        case Failure(message) =>
          if !needsReconnection {
            error := Some(message);
          }
      }
      if showLoading {
        isLoading := false;
      }
    }

    /** `fetchDeviceDetails`: as in the live view-model. */
    method FetchDeviceDetails(device: Device, detailed: Result<Device, string>)
      modifies this`devices
      ensures detailed.Failure? || VM.FirstIndex(old(devices), device.id).None? ==> devices == old(devices)
      ensures detailed.Success? && VM.FirstIndex(old(devices), device.id).Some? ==>
        devices == old(devices)[VM.FirstIndex(old(devices), device.id).value := detailed.value]
    {
      if detailed.Success? {
        var index := VM.FirstIndex(devices, device.id);
        if index.Some? {
          devices := devices[index.value := detailed.value];
        }
      }
    }

    /** `updateSyncProgress`: the message only once the total is known; the count always. */
    method UpdateSyncProgress(progress: Progress)
      modifies this`syncProgress, this`syncProgressCurrent
      ensures syncProgress == if progress.total > 0 then Some(VM.SyncingMessage(progress.current, progress.total)) else old(syncProgress)
      ensures syncProgressCurrent == progress.current
    {
      if progress.total > 0 {
        syncProgress := Some(VM.SyncingMessage(progress.current, progress.total));
      }
      syncProgressCurrent := progress.current;
    }

    /** The progress loop: the message of the last snapshot with a total is shown. */
    method ApplyPolls(polls: seq<Progress>)
      modifies this`syncProgress, this`syncProgressCurrent
      ensures syncProgress == match VM.LastShown(polls)
        case None => old(syncProgress)
        case Some(p) => Some(VM.SyncingMessage(p.current, p.total))
      ensures syncProgressCurrent == VM.LastCurrent(old(syncProgressCurrent), polls)
    {
      var i := 0;
      while i < |polls|
        invariant 0 <= i <= |polls|
        invariant syncProgress == ProgressAfter(old(syncProgress), polls[..i])
        invariant syncProgressCurrent == VM.LastCurrent(old(syncProgressCurrent), polls[..i])
      {
        assert polls[..i + 1][..i] == polls[..i] && polls[..i + 1][i] == polls[i];
        UpdateSyncProgress(polls[i]);
        i := i + 1;
      }
      assert polls[..i] == polls;
      ProgressAfterShowsLastShown(old(syncProgress), polls);
    }

    method StartSyncProgressPolling()
      modifies this`progressPolling
      ensures progressPolling
    {
      progressPolling := true;
    }

    method StopSyncProgressPolling()
      modifies this`progressPolling
      ensures !progressPolling
    {
      progressPolling := false;
    }

    /** `syncPhotos`, given the snapshots the progress loop reads and what `startPhotoSync`
        returned. */
    method SyncPhotos(device: Device, polls: seq<Progress>, outcome: Result<int, string>) returns (r: Option<int>)
      modifies this`syncProgress, this`syncProgressCurrent, this`isSyncing, this`error, this`isMonitoring,
               this`devicePolling, this`progressPolling, this`needsReconnection, this`isReconnecting,
               this`deviceConfirmedGone, this`partialSyncCount, this`disconnectedDeviceId
      ensures r == SyncReturn(old(syncProgressCurrent), polls, outcome)
      ensures Flags() == AfterSync(old(Flags()), device.id, old(syncProgressCurrent), polls, outcome)
      ensures syncProgressCurrent == VM.LastCurrent(old(syncProgressCurrent), polls)
      ensures !isSyncing && !progressPolling && isMonitoring && devicePolling
      ensures outcome.Success? ==> error.None? && syncProgress == Some(VM.SyncComplete)
      ensures outcome.Failure? ==> error == Some(outcome.error) && syncProgress.None?
    {
      isSyncing := true;
      syncProgress := Some(VM.StartingSync);
      error := None;
      StopMonitoring();
      StartSyncProgressPolling();
      ghost var flags := Flags();
      ApplyPolls(polls);
      assert Flags() == flags && syncProgressCurrent == VM.LastCurrent(old(syncProgressCurrent), polls);
      match outcome {
        case Success(count) =>
          syncProgress := Some(VM.SyncComplete);
          StopSyncProgressPolling();
          isSyncing := false;
          StartMonitoring();
          return Some(count);
        case Failure(errorMessage) =>
          r := FailSync(device.id, errorMessage);
      }
    }

    /** Lines 159-176: every failure arms reconnection. */
    method FailSync(deviceId: string, errorMessage: string) returns (r: Option<int>)
      modifies this`syncProgress, this`progressPolling, this`isSyncing, this`needsReconnection, this`isReconnecting,
               this`deviceConfirmedGone, this`partialSyncCount, this`disconnectedDeviceId, this`error,
               this`isMonitoring, this`devicePolling
      ensures r == if syncProgressCurrent > 0 then Some(syncProgressCurrent) else None
      ensures Flags() == VM.Arm(old(Flags()), deviceId, syncProgressCurrent)
      ensures syncProgress.None? && error == Some(errorMessage)
      ensures !progressPolling && !isSyncing && isMonitoring && devicePolling
    {
      var partialCount := syncProgressCurrent;
      syncProgress := None;
      StopSyncProgressPolling();
      isSyncing := false;
      ArmReconnection(deviceId, partialCount);
      error := Some(errorMessage);
      StartMonitoring();
      return if partialCount > 0 then Some(partialCount) else None;
    }

    /** Lines 167-171. */
    method ArmReconnection(deviceId: string, partialCount: int)
      modifies this`needsReconnection, this`isReconnecting, this`deviceConfirmedGone, this`partialSyncCount,
               this`disconnectedDeviceId
      ensures Flags() == VM.Arm(old(Flags()), deviceId, partialCount)
    {
      needsReconnection := true;
      isReconnecting := true;
      deviceConfirmedGone := false;
      partialSyncCount := if partialCount > 0 then Some(partialCount) else None;
      disconnectedDeviceId := Some(deviceId);
    }

    /** `resumeSync` */
    method ResumeSync(device: Device, polls: seq<Progress>, outcome: Result<int, string>) returns (r: Option<int>)
      modifies this`syncProgress, this`syncProgressCurrent, this`isSyncing, this`error, this`isMonitoring,
               this`devicePolling, this`progressPolling, this`needsReconnection, this`isReconnecting,
               this`deviceReconnected, this`deviceConfirmedGone, this`partialSyncCount, this`disconnectedDeviceId
      ensures r == SyncReturn(old(syncProgressCurrent), polls, outcome)
      ensures Flags() == AfterSync(Resumed(old(Flags())), device.id, old(syncProgressCurrent), polls, outcome)
      ensures !isSyncing && isMonitoring
    {
      needsReconnection := false;
      isReconnecting := false;
      deviceReconnected := false;
      disconnectedDeviceId := None;
      r := SyncPhotos(device, polls, outcome);
    }
  }
}
