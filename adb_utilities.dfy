/** XPCLibrary/Sources/XPCLibrary/Utilities/ADBUtilities.swift: ADBError with its
    errorDescription, the lookup of the bundled adb executable, and the failures the service's
    operations end in: an ADBError, or an error raised by the operating system (a process that
    cannot be launched, a file that cannot be made executable, a directory that cannot be created). */
module AdbUtilities {
  import opened Wrappers
  import opened Text

  datatype ADBError =
    | AdbNotFound
    | InvalidOutput
    | CommandFailed(message: string)
    | DeviceDisconnected

  // The texts are written in short pieces so that the verifier can look inside them.
  const AdbNotFoundText: string := "ADB executable not " + "found in package " + "resources"
  const InvalidOutputText: string := "Could not decode " + "ADB command output"
  const CommandFailedPrefix: string := "ADB command " + "failed: "
  const DeviceDisconnectedText: string := "Device " + "disconnected" + " during operation"

  /** `errorDescription`, which Foundation also reports as `localizedDescription`. */
  function ErrorDescription(e: ADBError): (r: Option<string>)
    ensures r.Some?
    ensures e.CommandFailed? ==> r.value == CommandFailedPrefix + e.message
  {
    match e
    case AdbNotFound => Some(AdbNotFoundText)
    case InvalidOutput => Some(InvalidOutputText)
    case CommandFailed(message) => Some(CommandFailedPrefix + message)
    case DeviceDisconnected => Some(DeviceDisconnectedText)
  }

  /** The description keeps the command-failure message, so different messages stay apart. */
  lemma CommandFailedDescriptionInjective(m1: string, m2: string)
    requires ErrorDescription(CommandFailed(m1)) == ErrorDescription(CommandFailed(m2))
    ensures m1 == m2
  {
    var p := CommandFailedPrefix;
    assert m1 == (p + m1)[|p|..] && m2 == (p + m2)[|p|..];
  }

  /** The four cases never share a description. */
  lemma ErrorDescriptionsDistinct(e1: ADBError, e2: ADBError)
    requires e1 != e2
    ensures ErrorDescription(e1) != ErrorDescription(e2)
  {
    var d1, d2 := ErrorDescription(e1).value, ErrorDescription(e2).value;
    if e1.CommandFailed? && e2.CommandFailed? {
      if d1 == d2 {
        CommandFailedDescriptionInjective(e1.message, e2.message);
      }
    } else if e1.CommandFailed? || e2.CommandFailed? {
      var cf := if e1.CommandFailed? then d1 else d2;
      var od := if e1.CommandFailed? then d2 else d1;
      assert cf[0] == 'A' && cf[4] == 'c';
      assert od[0] != 'A' || od[4] != 'c';
    } else {
      assert d1[0] != d2[0];
    }
  }

  /** The disconnection description names the disconnection. */
  lemma DeviceDisconnectedMentionsIt()
    ensures Contains(ErrorDescription(DeviceDisconnected).value, "disconnected")
  {
    ContainsInfix("Device ", "disconnected", " during operation");
  }

  // ---------------------------------------------------------------------------

  /** What a service operation can end in. */
  datatype Fault =
    | Adb(error: ADBError)
    | System(description: string)

  /** `localizedDescription` of the thrown error. */
  function Description(f: Fault): string {
    match f
    case Adb(e) => ErrorDescription(e).value
    case System(d) => d
  }

  // ---------------------------------------------------------------------------

  /** `ADBUtilities.getADBPath()`. The resource lookup and the chmod to 0755 are the host's:
      `resource` is the path the bundle holds, if any, and `chmodError` the description
      of the error setting the permissions raised, if it raised one. */
  function LocateAdb(resource: Option<string>, chmodError: Option<string>): Result<string, Fault> {
    if resource.None? then Failure(Adb(AdbNotFound))
    else if chmodError.Some? then Failure(System(chmodError.value))
    else Success(resource.value)
  }
}
