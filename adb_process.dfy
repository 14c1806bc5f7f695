/** The adb executable as the service sees it. Launching a process is the host's business, so
    the model takes the executable as a function from the argument vector to what the run
    produced; the same vector always gives the same result. `runADBCommand`, the same in all
    three revisions of the service, reads only standard output and ignores the exit status. */
module AdbProcess {
  import opened Wrappers
  import opened Text
  import opened AdbUtilities

  /** One run of adb: the launch error, if `Process.run()` threw; the exit status; and standard
      output and standard error decoded as UTF-8, None where the bytes are not valid UTF-8. */
  datatype ProcessResult = ProcessResult(
    launchError: Option<string>,
    status: int,
    stdout: Option<string>,
    stderr: Option<string>)

  type Adb = seq<string> -> ProcessResult

  /** `["-s", deviceId, command] + args` */
  function DeviceArgs(deviceId: string, command: string, args: seq<string>): seq<string> {
    ["-s", deviceId, command] + args
  }

  /** `runADBCommand`: the trimmed standard output; a launch error is rethrown and output that
      is not UTF-8 is `invalidOutput`. A non-zero exit status is not an error here. */
  function RunCommand(adb: Adb, args: seq<string>): (r: Result<string, Fault>)
    ensures adb(args).launchError.Some? ==> r == Failure(System(adb(args).launchError.value))
    ensures adb(args).launchError.None? && adb(args).stdout.None? ==> r == Failure(Adb(InvalidOutput))
    ensures r.Success? <==> adb(args).launchError.None? && adb(args).stdout.Some?
    ensures r.Success? ==> r.value == Trim(adb(args).stdout.value, IsWhitespaceOrNewline)
    ensures r.Success? && r.value != [] ==> !IsWhitespaceOrNewline(r.value[0]) && !IsWhitespaceOrNewline(r.value[|r.value| - 1])
  {
    var p := adb(args);
    if p.launchError.Some? then Failure(System(p.launchError.value))
    else if p.stdout.None? then Failure(Adb(InvalidOutput))
    else Success(Trim(p.stdout.value, IsWhitespaceOrNewline))
  }

  /** The output of a shell command on a device, nil when the read throws (`try?`). */
  function ShellRead(adb: Adb, deviceId: string, args: seq<string>): (r: Option<string>)
    ensures r.Some? <==> RunCommand(adb, DeviceArgs(deviceId, "shell", args)).Success?
  {
    RunCommand(adb, DeviceArgs(deviceId, "shell", args)).ToOption()
  }

  /** `getprop <name>` */
  function GetProp(adb: Adb, deviceId: string, name: string): (r: Option<string>)
    ensures r.Some? <==> RunCommand(adb, DeviceArgs(deviceId, "shell", ["getprop", name])).Success?
  {
    ShellRead(adb, deviceId, ["getprop", name])
  }

  // ---------------------------------------------------------------------------
  // The rest of the host

  /** What the service finds on the Mac: the adb resource of the bundle, the error
      making it executable would raise, if any, and the adb executable itself. */
  datatype Host = Host(resource: Option<string>, chmodError: Option<string>, adb: Adb)

  /** The destination folder of a sync: whether it exists, the names of the files in it, and
      the error `createDirectory` raises for it, if it would raise one. */
  class DestinationFolder {
    var isPresent: bool
    var names: set<string>
    const createError: Option<string>

    constructor(isPresent: bool, names: set<string>, createError: Option<string>)
      ensures this.isPresent == isPresent && this.names == (if isPresent then names else {})
      ensures this.createError == createError
    {
      this.isPresent := isPresent;
      this.names := if isPresent then names else {};
      this.createError := createError;
    }

    /** `createDestinationFolder`: nothing to do when the folder exists; otherwise it is created
        empty, unless the host refuses. */
    method Create() returns (r: Option<Fault>)
      modifies this
      ensures old(isPresent) ==> r.None? && isPresent && names == old(names)
      ensures !old(isPresent) && createError.Some? ==> r == Some(System(createError.value)) && !isPresent && names == old(names)
      ensures !old(isPresent) && createError.None? ==> r.None? && isPresent && names == {}
      ensures r.Some? ==> unchanged(this)
    {
      if !isPresent {
        if createError.Some? {
          return Some(System(createError.value));
        }
        isPresent := true;
        names := {};
      }
      return None;
    }

    /** A pulled file is in the folder from then on. */
    method Add(name: string)
      modifies this
      ensures isPresent == old(isPresent) && names == old(names) + {name}
    {
      names := names + {name};
    }
  }
}
