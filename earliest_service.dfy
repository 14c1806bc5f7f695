/** The first XPC service (ADBServiceXPC/ADBServiceXPC.swift): it finds adb in its own bundle
    on every call, lists the parsed records of `adb devices` as they are, and reads the details
    of one device on request. Its records are built with `AndroidDevice(id:stateString:)` and
    then given model, manufacturer, version, battery and API level, which is the shape of the
    Device record (module Devices), so that record stands for them here. Its parsers are those
    of module AdbParsing, its property reads those of module AdbProcess. */
module EarliestService {
  import opened Wrappers
  import opened Text
  import opened AdbUtilities
  import opened AdbProcess
  import opened AdbParsing
  import opened Devices
  import SI = ServiceImplementation
  import LI = LegacyImplementation

  /** `Bundle.main.path(forResource: "adb", ofType: nil)`, or `adbNotFound`; nothing is made
      executable and nothing is cached. */
  function FindAdb(bundled: Option<string>): Result<string, Fault> {
    if bundled.Some? then Success(bundled.value) else Failure(Adb(AdbNotFound))
  }

  /** `performListDevices`: exactly the parsed records, none of them enriched. */
  function ListedDevices(bundled: Option<string>, adb: Adb): (r: Result<seq<Device>, Fault>)
    ensures r.Success? <==> bundled.Some? && SI.ReadDevices(adb).Success?
    ensures bundled.None? ==> r == Failure(Adb(AdbNotFound))
    ensures r.Success? ==> r.value == ParseADBOutput(SI.ReadDevices(adb).value)
  {
    match FindAdb(bundled)
    case Failure(e) => Failure(e)
    case Success(_) =>
      match SI.ReadDevices(adb)
      case Failure(e) => Failure(e)
      case Success(out) => Success(ParseADBOutput(out))
  }

  /** The listed records carry no details: each is the record of a line of the output, with
      only an id and a state. */
  lemma ListedDevicesHaveNoDetails(bundled: Option<string>, adb: Adb)
    requires ListedDevices(bundled, adb).Success?
    ensures forall d :: d in ListedDevices(bundled, adb).value ==>
      d.model.None? && d.manufacturer.None? && d.androidVersion.None? && d.batteryLevel.None? && d.apiLevel.None?
  {
    var lines := Lines(SI.ReadDevices(adb).value);
    forall d | d in ListedDevices(bundled, adb).value
      ensures d.model.None? && d.manufacturer.None? && d.androidVersion.None? && d.batteryLevel.None? && d.apiLevel.None?
    {
      var k :| 0 <= k < |lines| && ParseLine(lines[k]) == Some(d);
    }
  }

  /** The live service lists the same records, each connected one replaced by its details. */
  lemma LiveListingEnrichesThis(cached: Option<string>, host: Host, bundled: Option<string>)
    requires bundled.Some? && SI.Located(cached, host).Success?
    ensures ListedDevices(bundled, host.adb).Success? <==> SI.ListedDevices(cached, host).Success?
    ensures ListedDevices(bundled, host.adb).Success? ==>
      SI.ListedDevices(cached, host).value == SI.Enriched(host.adb, ListedDevices(bundled, host.adb).value)
  {
  }

  /** `fetchDeviceDetails`: a fresh connected record of the id, then each property read in
      turn, a failed read leaving its field nil. */
  method FetchDeviceDetails(bundled: Option<string>, adb: Adb, deviceId: string) returns (r: Result<Device, Fault>)
    ensures bundled.None? ==> r == Failure(Adb(AdbNotFound))
    ensures bundled.Some? ==> r == Success(LI.Details(adb, deviceId))
  {
    var located := FindAdb(bundled);
    if located.Failure? {
      return Failure(located.error);
    }
    var device := NewDevice(deviceId, "device");
    device := device.(model := GetProp(adb, deviceId, SI.ModelProp));
    device := device.(manufacturer := GetProp(adb, deviceId, SI.ManufacturerProp));
    device := device.(androidVersion := GetProp(adb, deviceId, SI.ReleaseProp));
    device := device.(apiLevel := GetProp(adb, deviceId, SI.SdkProp));
    var battery := ShellRead(adb, deviceId, ["dumpsys", "battery"]);
    if battery.Some? {
      device := device.(batteryLevel := ParseBatteryLevel(battery.value));
    }
    return Success(device);
  }

  /** The details name the requested device as connected, and each field is nil exactly when
      its own read fails (the battery also when no level is reported). */
  lemma DetailsReadAlone(adb: Adb, deviceId: string)
    ensures var d := LI.Details(adb, deviceId);
      && d.id == deviceId && d.state == Connected
      && (d.model.None? <==> RunCommand(adb, DeviceArgs(deviceId, "shell", ["getprop", SI.ModelProp])).Failure?)
      && (d.manufacturer.None? <==> RunCommand(adb, DeviceArgs(deviceId, "shell", ["getprop", SI.ManufacturerProp])).Failure?)
      && (d.androidVersion.None? <==> RunCommand(adb, DeviceArgs(deviceId, "shell", ["getprop", SI.ReleaseProp])).Failure?)
      && (d.apiLevel.None? <==> RunCommand(adb, DeviceArgs(deviceId, "shell", ["getprop", SI.SdkProp])).Failure?)
      && (d.batteryLevel.None? <==>
            ShellRead(adb, deviceId, ["dumpsys", "battery"]).None?
            || ParseBatteryLevel(ShellRead(adb, deviceId, ["dumpsys", "battery"]).value).None?)
  {
  }
}
