/** Device and DeviceState (XPCLibrary/Sources/XPCLibrary/Device.swift): the device record the
    service sends to the app, its display name, and its archive as a key-to-string map. */
module Devices {
  import opened Wrappers

  /** The states `adb devices` reports. `Connected` is the case whose raw value is "device". */
  datatype DeviceState = Connected | Offline | Unauthorized | Unknown

  /** The raw value of each state, which `DeviceState(rawValue:)` reads back. */
  function RawValue(s: DeviceState): (raw: string)
    ensures StateFromRaw(raw) == Some(s)
  {
    match s
    case Connected => "device"
    case Offline => "offline"
    case Unauthorized => "unauthorized"
    case Unknown => "unknown"
  }

  /** `DeviceState(rawValue:)`: never nil; the three known strings map to their states and
      every other string, "unknown" included, to Unknown. */
  function StateFromRaw(raw: string): (r: Option<DeviceState>)
    ensures r.Some?
    ensures r.value == Connected <==> raw == "device"
    ensures r.value == Offline <==> raw == "offline"
    ensures r.value == Unauthorized <==> raw == "unauthorized"
    ensures r.value == Unknown <==> raw != "device" && raw != "offline" && raw != "unauthorized"
  {
    match raw
    case "device" => Some(Connected)
    case "offline" => Some(Offline)
    case "unauthorized" => Some(Unauthorized)
    case _ => Some(Unknown)
  }

  /** Reading a state's raw value back gives the state. */
  lemma StateRawRoundTrip(s: DeviceState)
    ensures StateFromRaw(RawValue(s)) == Some(s)
  {
  }

  /** A raw value that names a state is that state's raw value. */
  lemma RawValueOfKnownState(raw: string)
    requires StateFromRaw(raw).value != Unknown
    ensures RawValue(StateFromRaw(raw).value) == raw
  {
  }

  /** `DeviceState.displayName`. */
  function StateDisplayName(s: DeviceState): (name: string)
    ensures name == "Connected" <==> s == Connected
    ensures name == "Awaiting Pairing" <==> s == Unauthorized
    ensures name == "Not Connected" <==> s == Offline || s == Unknown
  {
    match s
    case Connected => "Connected"
    case Unauthorized => "Awaiting Pairing"
    case Offline | Unknown => "Not Connected"
  }

  // ---------------------------------------------------------------------------

  datatype Device = Device(
    id: string,
    state: DeviceState,
    model: Option<string>,
    manufacturer: Option<string>,
    androidVersion: Option<string>,
    batteryLevel: Option<string>,
    apiLevel: Option<string>)

  /** `Device(id:stateString:)`: a record with no details yet. */
  function NewDevice(id: string, stateString: string): (d: Device)
    ensures d.id == id && d.state == StateFromRaw(stateString).GetOr(Unknown)
    ensures d.model.None? && d.manufacturer.None? && d.androidVersion.None?
    ensures d.batteryLevel.None? && d.apiLevel.None?
  {
    Device(id, StateFromRaw(stateString).GetOr(Unknown), None, None, None, None, None)
  }

  predicate Present(o: Option<string>) {
    o.Some? && o.value != []
  }

  /** `displayName`: the model, falling back to the manufacturer, falling back to the id;
      an empty model or manufacturer counts as missing. */
  function DisplayName(d: Device): (name: string)
    ensures Present(d.model) ==> name == d.model.value
    ensures !Present(d.model) && Present(d.manufacturer) ==> name == d.manufacturer.value
    ensures !Present(d.model) && !Present(d.manufacturer) ==> name == d.id
    ensures name == [] ==> d.id == []
  {
    if Present(d.model) then d.model.value
    else if Present(d.manufacturer) then d.manufacturer.value
    else d.id
  }

  // ---------------------------------------------------------------------------
  // NSSecureCoding, over a key-to-string archive

  type Archive = map<string, string>

  function Put(a: Archive, key: string, o: Option<string>): Archive {
    if o.Some? then a[key := o.value] else a
  }

  /** `encode(with:)`: id and the state's raw value always, each detail only when it is set. */
  function Encode(d: Device): (a: Archive)
    ensures "id" in a && a["id"] == d.id
    ensures "state" in a && a["state"] == RawValue(d.state)
    ensures "model" in a <==> d.model.Some?
    ensures "manufacturer" in a <==> d.manufacturer.Some?
    ensures "androidVersion" in a <==> d.androidVersion.Some?
    ensures "batteryLevel" in a <==> d.batteryLevel.Some?
    ensures "apiLevel" in a <==> d.apiLevel.Some?
    ensures forall k :: k in a ==> k in {"id", "state", "model", "manufacturer", "androidVersion", "batteryLevel", "apiLevel"}
  {
    var base := map["id" := d.id, "state" := RawValue(d.state)];
    Put(Put(Put(Put(Put(base, "model", d.model), "manufacturer", d.manufacturer),
      "androidVersion", d.androidVersion), "batteryLevel", d.batteryLevel), "apiLevel", d.apiLevel)
  }

  function Get(a: Archive, key: string): Option<string> {
    if key in a then Some(a[key]) else None
  }

  /** `init?(coder:)`: nil without an id or a state; an unknown state string reads as Unknown;
      a detail missing from the archive stays nil. */
  function Decode(a: Archive): (r: Option<Device>)
    ensures r.None? <==> "id" !in a || "state" !in a
    ensures r.Some? ==> r.value.id == a["id"] && r.value.state == StateFromRaw(a["state"]).GetOr(Unknown)
    ensures r.Some? ==> r.value.model == Get(a, "model") && r.value.manufacturer == Get(a, "manufacturer")
    ensures r.Some? ==> r.value.androidVersion == Get(a, "androidVersion")
    ensures r.Some? ==> r.value.batteryLevel == Get(a, "batteryLevel") && r.value.apiLevel == Get(a, "apiLevel")
  {
    if "id" !in a || "state" !in a then None
    else
      Some(Device(a["id"], StateFromRaw(a["state"]).GetOr(Unknown), Get(a, "model"),
        Get(a, "manufacturer"), Get(a, "androidVersion"), Get(a, "batteryLevel"), Get(a, "apiLevel")))
  }

  /** Decoding an encoded device gives the device back, nil details included. */
  lemma DecodeEncode(d: Device)
    ensures Decode(Encode(d)) == Some(d)
  {
    var a := Encode(d);
    StateRawRoundTrip(d.state);
    assert Get(a, "model") == d.model;
    assert Get(a, "manufacturer") == d.manufacturer;
    assert Get(a, "androidVersion") == d.androidVersion;
    assert Get(a, "batteryLevel") == d.batteryLevel;
    assert Get(a, "apiLevel") == d.apiLevel;
  }

  /** An archive whose state string names no state decodes to an Unknown device. */
  lemma DecodeUnrecognisedState(a: Archive)
    requires "id" in a && "state" in a
    requires a["state"] != "device" && a["state"] != "offline" && a["state"] != "unauthorized"
    ensures Decode(a).Some? && Decode(a).value.state == Unknown
  {
  }
}
