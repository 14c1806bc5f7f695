/** The earlier app-side device record (ADBManager/AndroidDevice.swift): only an id and a
    state, a display name that always shows both, and an archive of those two keys. Its
    DeviceState enumeration is the same as the later one and is shared with it. */
module AndroidDevices {
  import opened Wrappers
  import opened Text
  import opened Devices

  datatype AndroidDevice = AndroidDevice(id: string, state: DeviceState)

  /** `AndroidDevice(id:stateString:)` */
  function NewAndroidDevice(id: string, stateString: string): (d: AndroidDevice)
    ensures d.id == id
    ensures d.state == Unknown <==> stateString != "device" && stateString != "offline" && stateString != "unauthorized"
    ensures d.state != Unknown ==> RawValue(d.state) == stateString
  {
    var s := StateFromRaw(stateString).GetOr(Unknown);
    AndroidDevice(id, s)
  }

  /** "<id> - Connected" for a connected device, else "<id> - " and the capitalised raw value. */
  function DisplayName(d: AndroidDevice): (name: string)
    ensures |name| > |d.id| + 3 && name[..|d.id| + 3] == d.id + " - "
    ensures name[|d.id| + 3..] == "Connected" <==> d.state == Connected
  {
    var stateText := if d.state == Connected then "Connected" else CapitalizedWord(RawValue(d.state));
    assert (d.id + " - " + stateText)[..|d.id| + 3] == d.id + " - ";
    assert (d.id + " - " + stateText)[|d.id| + 3..] == stateText;
    d.id + " - " + stateText
  }

  /** The state texts the display name ends in, case by case. */
  lemma DisplayNameByState(d: AndroidDevice)
    ensures d.state == Connected ==> DisplayName(d) == d.id + " - " + "Connected"
    ensures d.state == Offline ==> DisplayName(d) == d.id + " - " + "Offline"
    ensures d.state == Unauthorized ==> DisplayName(d) == d.id + " - " + "Unauthorized"
    ensures d.state == Unknown ==> DisplayName(d) == d.id + " - " + "Unknown"
  {
    CapitalizedOffline();
    CapitalizedUnauthorized();
    CapitalizedUnknown();
  }

  // Helpers of DisplayNameByState: one literal fact each, kept apart so that each proof
  // stays small.

  lemma CapitalizedOffline()
    ensures CapitalizedWord(RawValue(Offline)) == "Offline"
  {
    assert RawValue(Offline) == "offline";
  }

  lemma CapitalizedUnauthorized()
    ensures CapitalizedWord(RawValue(Unauthorized)) == "Unauthorized"
  {
    var w := RawValue(Unauthorized);
    UnauthorizedSplits();
    LowerNauth();
    LowerOrized();
    LowerAppend("nauth", "orized");
    assert CapitalizedWord(w) == ['U'] + ("nauth" + "orized");
  }

  lemma UnauthorizedSplits()
    ensures RawValue(Unauthorized) == ['u'] + ("nauth" + "orized")
    ensures "Unauthorized" == ['U'] + ("nauth" + "orized")
  {
  }

  lemma LowerNauth()
    ensures Lower("nauth") == "nauth"
  {
  }

  lemma LowerOrized()
    ensures Lower("orized") == "orized"
  {
  }

  lemma CapitalizedUnknown()
    ensures CapitalizedWord(RawValue(Unknown)) == "Unknown"
  {
    assert RawValue(Unknown) == "unknown";
  }

  /** The display name always starts with the id. */
  lemma DisplayNameStartsWithId(d: AndroidDevice)
    ensures |DisplayName(d)| > |d.id| && DisplayName(d)[..|d.id|] == d.id
  {
  }

  /** `encode(with:)`: exactly the id and the state's raw value. */
  function Encode(d: AndroidDevice): (a: Archive)
    ensures a.Keys == {"id", "state"}
    ensures a["id"] == d.id && a["state"] == RawValue(d.state)
  {
    map["id" := d.id, "state" := RawValue(d.state)]
  }

  /** `init?(coder:)`: nil unless both keys are present; other keys are ignored. */
  function Decode(a: Archive): (r: Option<AndroidDevice>)
    ensures r.None? <==> "id" !in a || "state" !in a
    ensures r.Some? ==> r.value.id == a["id"]
  {
    if "id" !in a || "state" !in a then None
    else Some(NewAndroidDevice(a["id"], a["state"]))
  }

  lemma DecodeEncode(d: AndroidDevice)
    ensures Decode(Encode(d)) == Some(d)
  {
    StateRawRoundTrip(d.state);
  }

  /** An archive made by the later Device.encode decodes here to the same id and state. */
  lemma DecodeLaterArchive(d: Device)
    ensures Decode(Devices.Encode(d)) == Some(AndroidDevice(d.id, d.state))
  {
    StateRawRoundTrip(d.state);
  }
}
