/** The earlier revision of the XPC service (XPCLibrary/Sources/XPCLibrary/Implementation/ADBServiceImplementation.swift).
    It differs from the live one in what it reads and lists: the model only from
    ro.product.model, photos from one `ls` filtered by extension and kept in listing order,
    folders as sorted names, paths passed to the shell unescaped, an empty folder synced as
    zero photos, and a progress snapshot without the current file. Its pull, its device
    parsing and its sync loop are the live ones (modules ServiceImplementation, AdbParsing,
    SyncRun). */
module LegacyImplementation {
  import opened Wrappers
  import opened Text
  import opened Ordering
  import opened AdbUtilities
  import opened AdbProcess
  import opened AdbParsing
  import opened Devices
  import opened SyncRun
  import opened Wire
  import SI = ServiceImplementation

  // ---------------------------------------------------------------------------
  // Device details

  /** `fetchDeviceDetails`: a connected record with the plain model name. */
  function Details(adb: Adb, deviceId: string): (d: Device)
    ensures d.id == deviceId && d.state == Connected
  {
    Device(deviceId, Connected,
      GetProp(adb, deviceId, SI.ModelProp),
      GetProp(adb, deviceId, SI.ManufacturerProp),
      GetProp(adb, deviceId, SI.ReleaseProp),
      SI.BatteryRead(adb, deviceId),
      GetProp(adb, deviceId, SI.SdkProp))
  }

  /** The two revisions read the same details except the model, and agree on it too when the
      device reports no marketing name. */
  lemma DetailsAgreeExceptModel(adb: Adb, deviceId: string)
    ensures Details(adb, deviceId).(model := None) == SI.Details(adb, deviceId).(model := None)
    ensures !Present(GetProp(adb, deviceId, SI.MarketNameProp)) ==> Details(adb, deviceId) == SI.Details(adb, deviceId)
    ensures Details(adb, deviceId).model == GetProp(adb, deviceId, SI.ModelProp)
  {
  }

  /** A connected record is replaced by its details, any other one kept. */
  function EnrichOne(adb: Adb, d: Device): (r: Device)
    ensures r.id == d.id && r.state == d.state
  {
    if d.state == Connected then Details(adb, d.id) else d
  }

  function Enriched(adb: Adb, basic: seq<Device>): (r: seq<Device>)
    ensures |r| == |basic|
    ensures forall k :: 0 <= k < |basic| ==> r[k] == EnrichOne(adb, basic[k])
  {
    if basic == [] then [] else [EnrichOne(adb, basic[0])] + Enriched(adb, basic[1..])
  }

  /** `performListDevices`: the located adb's listing, parsed and enriched. */
  function ListedDevices(cached: Option<string>, host: Host): (r: Result<seq<Device>, Fault>)
    ensures r.Success? <==> SI.Located(cached, host).Success? && SI.ReadDevices(host.adb).Success?
    ensures SI.Located(cached, host).Failure? ==> r == Failure(SI.Located(cached, host).error)
    ensures r.Success? ==>
      var basic := ParseADBOutput(SI.ReadDevices(host.adb).value);
      && |r.value| == |basic|
      && forall k :: 0 <= k < |basic| ==> r.value[k].id == basic[k].id && r.value[k].state == basic[k].state
  {
    match SI.Located(cached, host)
    case Failure(e) => Failure(e)
    case Success(_) =>
      match SI.ReadDevices(host.adb)
      case Failure(e) => Failure(e)
      case Success(out) => Success(Enriched(host.adb, ParseADBOutput(out)))
  }

  /** Both revisions list the same devices, in the same order, with the same ids and states;
      they differ at most in the model name of connected records. */
  lemma ListedDevicesAgree(cached: Option<string>, host: Host)
    ensures ListedDevices(cached, host).Success? <==> SI.ListedDevices(cached, host).Success?
    ensures ListedDevices(cached, host).Success? ==>
      var a, b := ListedDevices(cached, host).value, SI.ListedDevices(cached, host).value;
      && |a| == |b|
      && forall k :: 0 <= k < |a| ==> a[k].(model := None) == b[k].(model := None)
  {
    if ListedDevices(cached, host).Success? {
      var basic := ParseADBOutput(SI.ReadDevices(host.adb).value);
      forall k | 0 <= k < |basic|
        ensures EnrichOne(host.adb, basic[k]).(model := None) == SI.EnrichOne(host.adb, basic[k]).(model := None)
      {
        DetailsAgreeExceptModel(host.adb, basic[k].id);
      }
    }
  }

  // ---------------------------------------------------------------------------
  // Photo and folder listings

  /** `isPhotoFile`: the lower-cased path extension is one of the photo extensions. */
  predicate IsPhotoFile(filename: string)
    ensures IsPhotoFile(filename) ==> PathExtension(filename) != []
  {
    assert Lower([]) == [];
    Lower(PathExtension(filename)) in SI.PhotoExtensions
  }

  /** A file name stem.ext without slashes and with a non-empty stem is a photo exactly when
      its extension, lower-cased, is one of the six; a name without a dot, or whose only dot
      starts it, is never one. */
  lemma IsPhotoFileByExtension(stem: string, ext: string)
    requires stem != [] && '/' !in stem && '/' !in ext && '.' !in ext
    ensures IsPhotoFile(stem + "." + ext) <==> Lower(ext) in SI.PhotoExtensions
  {
    PathExtensionOfName(stem, ext);
  }

  /** A name whose last component has no dot has no extension, so it is never a photo. */
  lemma DotlessNameIsNoPhoto(filename: string)
    requires '.' !in LastPathComponent(filename)
    ensures !IsPhotoFile(filename)
  {
    assert PathExtension(filename) == [];
    assert Lower(PathExtension(filename)) == [];
  }

  /** `.filter(keep)` on a listing. */
  function Kept(lines: seq<string>, keep: string -> bool): (r: seq<string>)
    ensures |r| <= |lines|
    ensures forall x :: x in r <==> x in lines && keep(x)
  {
    if lines == [] then [] else (if keep(lines[0]) then [lines[0]] else []) + Kept(lines[1..], keep)
  }

  lemma {:induction false} KeptAppend(a: seq<string>, b: seq<string>, keep: string -> bool)
    ensures Kept(a + b, keep) == Kept(a, keep) + Kept(b, keep)
  {
    if a != [] {
      assert (a + b)[0] == a[0] && (a + b)[1..] == a[1..] + b;
      KeptAppend(a[1..], b, keep);
    } else {
      assert a + b == b;
    }
  }

  /** `.filter { isPhotoFile($0) }`, keeping the listing order. */
  function FilterPhotos(lines: seq<string>): (r: seq<string>)
    ensures |r| <= |lines|
    ensures forall x :: x in r <==> x in lines && IsPhotoFile(x)
  {
    Kept(lines, IsPhotoFile)
  }

  /** The filter works piece by piece, so it keeps the listing order and its repeats. */
  lemma FilterPhotosAppend(a: seq<string>, b: seq<string>)
    ensures FilterPhotos(a + b) == FilterPhotos(a) + FilterPhotos(b)
  {
    KeptAppend(a, b, IsPhotoFile);
  }

  lemma {:induction false} KeptAll(lines: seq<string>, keep: string -> bool)
    requires forall k :: 0 <= k < |lines| ==> keep(lines[k])
    ensures Kept(lines, keep) == lines
  {
    if lines != [] {
      assert forall k :: 0 <= k < |lines[1..]| ==> lines[1..][k] == lines[k + 1];
      KeptAll(lines[1..], keep);
    }
  }

  /** A listing of photos only is kept whole. */
  lemma FilterPhotosKeepsPhotos(lines: seq<string>)
    requires forall k :: 0 <= k < |lines| ==> IsPhotoFile(lines[k])
    ensures FilterPhotos(lines) == lines
  {
    KeptAll(lines, IsPhotoFile);
  }

  /** `ls` with the path as it is, which the device's shell then splits at its blanks and
      expands at its wildcards. */
  function LsArgs(deviceId: string, sourcePath: string): seq<string> {
    DeviceArgs(deviceId, "shell", ["ls", sourcePath])
  }

  /** `listPhotosOnDevice`: the listed names that are photos, in listing order. */
  function PhotoListing(adb: Adb, deviceId: string, sourcePath: string): (r: Result<seq<string>, Fault>)
    ensures r.Success? <==> RunCommand(adb, LsArgs(deviceId, sourcePath)).Success?
    ensures r.Success? ==> forall x :: x in r.value <==>
      x != [] && IsPhotoFile(x) && x in SI.TrimEach(Lines(RunCommand(adb, LsArgs(deviceId, sourcePath)).value))
  {
    match RunCommand(adb, LsArgs(deviceId, sourcePath))
    case Failure(e) => Failure(e)
    case Success(out) => Success(FilterPhotos(SI.FoundPaths(out)))
  }

  function FindFoldersArgs(deviceId: string, path: string): seq<string> {
    DeviceArgs(deviceId, "shell", ["find", path, "-maxdepth", "1", "-type", "d"])
  }

  /** A path with a blank and no quote or backslash is not one word to the shell: `ls` and
      `find` get it in pieces. */
  lemma {:induction false} UnescapedBlankSplitsPath(p: string)
    requires forall i :: 0 <= i < |p| ==> p[i] != '\'' && p[i] != '\\'
    requires ' ' in p
    ensures SI.ReadWord(p) == None
  {
    if p[0] != ' ' {
      assert p == [p[0]] + p[1..];
      UnescapedBlankSplitsPath(p[1..]);
    }
  }

  /** A folder with a blank in its name: the earlier revision hands it to the shell in two
      pieces, the live one as one word. */
  lemma FolderWithBlankIsSplit()
    ensures SI.ReadWord("/sdcard/My Photos") == None
    ensures SI.ReadWord(SI.ShellEscape("/sdcard/My Photos")) == Some("/sdcard/My Photos")
  {
    var p := "/sdcard/My Photos";
    assert p[10] == ' ';
    UnescapedBlankSplitsPath(p);
    SI.ShellEscapeReadsBack(p);
  }

  // ---------------------------------------------------------------------------
  // The service object

  class ADBServiceImplementation {
    var cachedDevices: seq<Device>
    var monitoring: bool
    var cachedADBPath: Option<string>
    var syncProgressCurrent: int
    var syncProgressTotal: int

    constructor()
      ensures cachedDevices == [] && !monitoring && cachedADBPath.None?
      ensures syncProgressCurrent == 0 && syncProgressTotal == 0
    {
      cachedDevices := [];
      monitoring := false;
      cachedADBPath := None;
      syncProgressCurrent := 0;
      syncProgressTotal := 0;
    }

    method StartMonitoring()
      modifies this`monitoring
      ensures monitoring
    {
      monitoring := true;
    }

    method StopMonitoring()
      modifies this`monitoring
      ensures !monitoring
    {
      monitoring := false;
    }

    method UpdateCache(devices: seq<Device>)
      modifies this`cachedDevices
      ensures cachedDevices == devices
    {
      cachedDevices := devices;
    }

    method GetCache() returns (devices: seq<Device>)
      ensures devices == cachedDevices
    {
      devices := cachedDevices;
    }

    method ListDevices() returns (reply: Reply<seq<Device>>)
      ensures reply == Reply(Some(cachedDevices), None)
    {
      var devices := GetCache();
      reply := Reply(Some(devices), None);
    }

    method UpdateSyncProgress(current: int, total: int)
      modifies this`syncProgressCurrent, this`syncProgressTotal
      ensures syncProgressCurrent == current && syncProgressTotal == total
    {
      syncProgressCurrent := current;
      syncProgressTotal := total;
    }

    /** `getPhotoSyncProgress`: (current, total). */
    method GetPhotoSyncProgress() returns (current: int, total: int)
      ensures current == syncProgressCurrent && total == syncProgressTotal
    {
      current, total := syncProgressCurrent, syncProgressTotal;
    }

    method GetADBPath(host: Host) returns (r: Result<string, Fault>)
      modifies this`cachedADBPath
      ensures r == SI.Located(old(cachedADBPath), host)
      ensures cachedADBPath == SI.CacheAfter(old(cachedADBPath), host)
    {
      if cachedADBPath.Some? {
        return Success(cachedADBPath.value);
      }
      r := LocateAdb(host.resource, host.chmodError);
      if r.Success? {
        cachedADBPath := Some(r.value);
      }
    }

    method FetchDeviceDetails(host: Host, deviceId: string) returns (r: Result<Device, Fault>)
      modifies this`cachedADBPath
      ensures cachedADBPath == SI.CacheAfter(old(cachedADBPath), host)
      ensures SI.Located(old(cachedADBPath), host).Failure? ==> r == Failure(SI.Located(old(cachedADBPath), host).error)
      ensures SI.Located(old(cachedADBPath), host).Success? ==> r == Success(Details(host.adb, deviceId))
    {
      var located := GetADBPath(host);
      if located.Failure? {
        return Failure(located.error);
      }
      var device := NewDevice(deviceId, "device");
      device := device.(model := GetProp(host.adb, deviceId, SI.ModelProp));
      device := device.(manufacturer := GetProp(host.adb, deviceId, SI.ManufacturerProp));
      device := device.(androidVersion := GetProp(host.adb, deviceId, SI.ReleaseProp));
      device := device.(apiLevel := GetProp(host.adb, deviceId, SI.SdkProp));
      var battery := ShellRead(host.adb, deviceId, ["dumpsys", "battery"]);
      if battery.Some? {
        device := device.(batteryLevel := ParseBatteryLevel(battery.value));
      }
      return Success(device);
    }

    method GetDeviceDetails(host: Host, deviceId: string) returns (reply: Reply<Device>)
      modifies this`cachedADBPath
      ensures cachedADBPath == SI.CacheAfter(old(cachedADBPath), host)
      ensures SI.Located(old(cachedADBPath), host).Failure? ==> reply == SI.ToReply<Device>(Failure(SI.Located(old(cachedADBPath), host).error))
      ensures SI.Located(old(cachedADBPath), host).Success? ==> reply == Reply(Some(Details(host.adb, deviceId)), None)
    {
      var r := FetchDeviceDetails(host, deviceId);
      reply := SI.ToReply(r);
    }

    method PerformListDevices(host: Host) returns (r: Result<seq<Device>, Fault>)
      modifies this`cachedADBPath
      ensures cachedADBPath == SI.CacheAfter(old(cachedADBPath), host)
      ensures r == ListedDevices(old(cachedADBPath), host)
    {
      var located := GetADBPath(host);
      if located.Failure? {
        return Failure(located.error);
      }
      var output := SI.ReadDevices(host.adb);
      if output.Failure? {
        return Failure(output.error);
      }
      var basic := ParseADBOutput(output.value);
      var detailed := EnrichAll(host, basic);
      return Success(detailed);
    }

    /** The loop of `performListDevices` over the parsed records, once adb is located: each
        connected record is replaced by its details. */
    method EnrichAll(host: Host, basic: seq<Device>) returns (detailed: seq<Device>)
      requires cachedADBPath.Some?
      modifies this`cachedADBPath
      ensures cachedADBPath == old(cachedADBPath)
      ensures detailed == Enriched(host.adb, basic)
    {
      detailed := [];
      var i := 0;
      while i < |basic|
        invariant 0 <= i <= |basic|
        invariant cachedADBPath == old(cachedADBPath)
        invariant |detailed| == i
        invariant forall k :: 0 <= k < i ==> detailed[k] == EnrichOne(host.adb, basic[k])
      {
        var device := basic[i];
        var next := device;
        if device.state == Connected {
          var fetched := FetchDeviceDetails(host, device.id);
          assert fetched == Success(Details(host.adb, device.id));
          if fetched.Success? {
            next := fetched.value;
          }
        }
        assert next == EnrichOne(host.adb, device);
        ghost var before := detailed;
        detailed := detailed + [next];
        assert forall k :: 0 <= k < i ==> detailed[k] == before[k];
        i := i + 1;
      }
      assert |detailed| == |Enriched(host.adb, basic)|;
    }

    method PollDevices(host: Host)
      modifies this`cachedADBPath, this`cachedDevices
      ensures cachedADBPath == SI.CacheAfter(old(cachedADBPath), host)
      ensures ListedDevices(old(cachedADBPath), host).Success? ==> cachedDevices == ListedDevices(old(cachedADBPath), host).value
      ensures ListedDevices(old(cachedADBPath), host).Failure? ==> cachedDevices == old(cachedDevices)
    {
      var r := PerformListDevices(host);
      if r.Success? {
        UpdateCache(r.value);
      }
    }

    /** `listFoldersOnDevice`: the sub-folder names in ascending order. */
    method ListFoldersOnDevice(host: Host, deviceId: string, path: string) returns (r: Result<seq<string>, Fault>)
      modifies this`cachedADBPath
      ensures cachedADBPath == SI.CacheAfter(old(cachedADBPath), host)
      ensures SI.Located(old(cachedADBPath), host).Failure? ==> r == Failure(SI.Located(old(cachedADBPath), host).error)
      ensures SI.Located(old(cachedADBPath), host).Success? ==>
        var out := RunCommand(host.adb, FindFoldersArgs(deviceId, path));
        && (out.Failure? ==> r == Failure(out.error))
        && (out.Success? ==>
              r.Success? && Sorted(r.value) && multiset(r.value) == multiset(SI.FolderNames(out.value, path)))
    {
      var located := GetADBPath(host);
      if located.Failure? {
        return Failure(located.error);
      }
      var output := RunCommand(host.adb, FindFoldersArgs(deviceId, path));
      if output.Failure? {
        return Failure(output.error);
      }
      return Success(Sort(SI.FolderNames(output.value, path)));
    }

    /** `listFolders` */
    method ListFolders(host: Host, deviceId: string, path: string) returns (reply: Reply<seq<string>>)
      modifies this`cachedADBPath
      ensures cachedADBPath == SI.CacheAfter(old(cachedADBPath), host)
      ensures SI.Located(old(cachedADBPath), host).Failure? ==>
        reply == SI.ToReply<seq<string>>(Failure(SI.Located(old(cachedADBPath), host).error))
      ensures SI.Located(old(cachedADBPath), host).Success? ==>
        var out := RunCommand(host.adb, FindFoldersArgs(deviceId, path));
        && (out.Failure? ==> reply == SI.ToReply<seq<string>>(Failure(out.error)))
        && (out.Success? ==>
              && reply.error.None? && reply.value.Some? && Sorted(reply.value.value)
              && multiset(reply.value.value) == multiset(SI.FolderNames(out.value, path)))
    {
      var r := ListFoldersOnDevice(host, deviceId, path);
      reply := SI.ToReply(r);
    }

    method ListPhotosOnDevice(adb: Adb, deviceId: string, sourcePath: string) returns (r: Result<seq<string>, Fault>)
      ensures r == PhotoListing(adb, deviceId, sourcePath)
    {
      var output := RunCommand(adb, LsArgs(deviceId, sourcePath));
      if output.Failure? {
        return Failure(output.error);
      }
      return Success(FilterPhotos(SI.FoundPaths(output.value)));
    }

    /** The sync loop and its catch block: the run of SyncRun, with progress
        (total, total) at the end or (files synced so far, total) after a failure. */
    method SyncFiles(adb: Adb, deviceId: string, sourcePath: string, destinationPath: string,
                     files: seq<string>, folder: DestinationFolder) returns (r: Result<int, Fault>)
      requires folder.isPresent
      modifies this`syncProgressCurrent, this`syncProgressTotal, folder
      ensures var run := Run(files, old(folder.names), SI.PullOf(adb, deviceId, sourcePath, destinationPath));
        && folder.isPresent && folder.names == run.present && syncProgressTotal == |files|
        && (run.failure.None? ==> r == Success(run.synced) && syncProgressCurrent == |files|)
        && (run.failure.Some? ==> r == Failure(run.failure.value) && syncProgressCurrent == run.synced)
    {
      ghost var pull := SI.PullOf(adb, deviceId, sourcePath, destinationPath);
      ghost var expected := Run(files, folder.names, pull);
      var total := |files|;
      var processed, synced := 0, 0;
      ghost var attempted: seq<string> := [];
      ghost var note: string := [];
      UpdateSyncProgress(0, total);
      var i := 0;
      while i < |files|
        invariant 0 <= i <= |files| && processed == i
        invariant folder.isPresent
        invariant syncProgressCurrent == processed && syncProgressTotal == total
        invariant Finish(Tally(processed, synced, folder.names, attempted, None, note), files[i..], pull) == expected
      {
        var f := files[i];
        ghost var t := Tally(processed, synced, folder.names, attempted, None, note);
        assert files[i..][0] == f && files[i..][1..] == files[i + 1..];
        processed := processed + 1;
        if f in folder.names {
          note := SkippedPrefix + f;
          UpdateSyncProgress(processed, total);
        } else {
          var failure := SI.PullPhoto(adb, deviceId, sourcePath, f, destinationPath);
          attempted := attempted + [f];
          if failure.Some? {
            assert Step(t, f, pull) == expected;
            UpdateSyncProgress(synced, total);
            return Failure(failure.value);
          }
          synced := synced + 1;
          folder.Add(f);
          note := CompletedPrefix + f;
          UpdateSyncProgress(processed, total);
        }
        assert Tally(processed, synced, folder.names, attempted, None, note) == Step(t, f, pull);
        i := i + 1;
      }
      return Success(synced);
    }

    /** `performPhotoSync`: an empty listing is a sync of nothing, before the destination is
        created or the progress touched. */
    method PerformPhotoSync(host: Host, deviceId: string, sourcePath: string, destinationPath: string,
                            folder: DestinationFolder) returns (r: Result<int, Fault>)
      modifies this`cachedADBPath, this`syncProgressCurrent, this`syncProgressTotal, folder
      ensures cachedADBPath == SI.CacheAfter(old(cachedADBPath), host)
      ensures SI.Located(old(cachedADBPath), host).Failure? ==>
        r == Failure(SI.Located(old(cachedADBPath), host).error) && unchanged(folder)
        && syncProgressCurrent == old(syncProgressCurrent) && syncProgressTotal == old(syncProgressTotal)
      ensures SI.Located(old(cachedADBPath), host).Success? && PhotoListing(host.adb, deviceId, sourcePath).Failure? ==>
        r == Failure(PhotoListing(host.adb, deviceId, sourcePath).error) && unchanged(folder)
        && syncProgressCurrent == old(syncProgressCurrent) && syncProgressTotal == old(syncProgressTotal)
      ensures SI.Located(old(cachedADBPath), host).Success? && PhotoListing(host.adb, deviceId, sourcePath) == Success([]) ==>
        r == Success(0) && unchanged(folder)
        && syncProgressCurrent == old(syncProgressCurrent) && syncProgressTotal == old(syncProgressTotal)
      ensures SI.Located(old(cachedADBPath), host).Success? && PhotoListing(host.adb, deviceId, sourcePath).Success? ==>
        var files := PhotoListing(host.adb, deviceId, sourcePath).value;
        && (files != [] && !old(folder.isPresent) && folder.createError.Some? ==>
              r == Failure(System(folder.createError.value)) && unchanged(folder)
              && syncProgressCurrent == old(syncProgressCurrent) && syncProgressTotal == old(syncProgressTotal))
        && (files != [] && (old(folder.isPresent) || folder.createError.None?) ==>
              var run := Run(files, if old(folder.isPresent) then old(folder.names) else {}, SI.PullOf(host.adb, deviceId, sourcePath, destinationPath));
              && folder.isPresent && folder.names == run.present && syncProgressTotal == |files|
              && (run.failure.None? ==> r == Success(run.synced) && syncProgressCurrent == |files|)
              && (run.failure.Some? ==> r == Failure(run.failure.value) && syncProgressCurrent == run.synced))
    {
      var located := GetADBPath(host);
      if located.Failure? {
        return Failure(located.error);
      }
      var listing := ListPhotosOnDevice(host.adb, deviceId, sourcePath);
      if listing.Failure? {
        return Failure(listing.error);
      }
      if listing.value == [] {
        return Success(0);
      }
      var created := folder.Create();
      if created.Some? {
        return Failure(created.value);
      }
      r := SyncFiles(host.adb, deviceId, sourcePath, destinationPath, listing.value, folder);
    }

    method StartPhotoSync(host: Host, deviceId: string, sourcePath: string, destinationPath: string,
                          folder: DestinationFolder) returns (reply: Reply<int>)
      modifies this`cachedADBPath, this`syncProgressCurrent, this`syncProgressTotal, folder
      ensures reply.value.Some? <==> reply.error.None?
      ensures reply.value.Some? ==> 0 <= reply.value.value
    {
      var r := PerformPhotoSync(host, deviceId, sourcePath, destinationPath, folder);
      if r.Success? && r.value != 0 {
        var listing := PhotoListing(host.adb, deviceId, sourcePath);
        RunGuarantees(listing.value, if old(folder.isPresent) then old(folder.names) else {}, SI.PullOf(host.adb, deviceId, sourcePath, destinationPath));
      }
      reply := SI.ToReply(r);
    }
  }
}
