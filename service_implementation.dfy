/** The XPC service as it now stands (XPCLibrary/Sources/XPCLibrary/ADBServiceImplementation.swift):
    device discovery with detail enrichment, folder and photo listings from `find`, and the
    photo sync with its progress snapshot. The adb executable, the bundle and the
    destination folder are the host's (module AdbProcess). */
module ServiceImplementation {
  import opened Wrappers
  import opened Text
  import opened Ordering
  import opened AdbUtilities
  import opened AdbProcess
  import opened AdbParsing
  import opened Devices
  import opened Wire
  import opened SyncRun

  // ---------------------------------------------------------------------------
  // shellEscape

  const Quote: char := '\''
  /** What each single quote of a path becomes: close the quoted run, an escaped quote, reopen. */
  const EscapedQuote: string := "'\\''"

  /** `shellEscape`: the path in single quotes, each of its own single quotes written as '\''. */
  function ShellEscape(path: string): (r: string)
    ensures |r| >= 2 && r[0] == Quote && r[|r| - 1] == Quote
    ensures Quote !in path ==> r == "'" + path + "'"
  {
    "'" + ReplaceChar(path, Quote, EscapedQuote) + "'"
  }

  /** Characters a POSIX shell gives a meaning to when they stand outside quotes. */
  predicate IsShellSpecial(c: char) {
    c == ' ' || c == '\t' || c == '\n' || c == '|' || c == '&' || c == ';' || c == '<' || c == '>'
    || c == '(' || c == ')' || c == '$' || c == '`' || c == '"' || c == '*' || c == '?' || c == '['
    || c == '#' || c == '~' || c == '=' || c == '%' || c == '{' || c == '}' || c == '!'
  }

  function Prepend(c: char, o: Option<string>): Option<string> {
    if o.Some? then Some([c] + o.value) else None
  }

  /** How a POSIX shell reads one word as a literal: outside quotes a backslash takes the next
      character as it is and a single quote opens a run that the next single quote closes;
      inside such a run every character stands for itself. A character with a meaning of its
      own outside quotes, a trailing backslash or an unclosed quote gives no literal word. */
  function ReadWord(s: string): Option<string>
    decreases |s|
  {
    if s == [] then Some([])
    else if s[0] == Quote then ReadQuoted(s[1..])
    else if s[0] == '\\' then (if |s| == 1 then None else Prepend(s[1], ReadWord(s[2..])))
    else if IsShellSpecial(s[0]) then None
    else Prepend(s[0], ReadWord(s[1..]))
  }

  function ReadQuoted(s: string): Option<string>
    decreases |s|
  {
    if s == [] then None
    else if s[0] == Quote then ReadWord(s[1..])
    else Prepend(s[0], ReadQuoted(s[1..]))
  }

  /** Inside quotes, an escaped quote closes the run, gives a quote and opens a new run. */
  lemma EscapedQuoteStep(e: string)
    ensures ReadQuoted(EscapedQuote + e + "'") == Prepend(Quote, ReadQuoted(e + "'"))
  {
    var s := EscapedQuote + e + "'";
    assert s[1..] == "\\''" + e + "'";
    assert s[1..][0] == '\\' && s[1..][1] == Quote;
    assert s[1..][2..] == "'" + e + "'";
    assert ("'" + e + "'")[1..] == e + "'";
    assert ReadWord(s[1..][2..]) == ReadQuoted(e + "'");
    assert ReadWord(s[1..]) == Prepend(Quote, ReadWord(s[1..][2..]));
  }

  /** Inside quotes, any other character stands for itself. */
  lemma PlainQuotedStep(c: char, e: string)
    requires c != Quote
    ensures ReadQuoted([c] + e + "'") == Prepend(c, ReadQuoted(e + "'"))
  {
    assert ([c] + e + "'")[1..] == e + "'";
  }

  lemma {:induction false} ReadQuotedEscaped(p: string)
    ensures ReadQuoted(ReplaceChar(p, Quote, EscapedQuote) + "'") == Some(p)
  {
    if p == [] {
      assert ReplaceChar(p, Quote, EscapedQuote) + "'" == "'";
      assert "'"[1..] == [];
    } else {
      var e := ReplaceChar(p[1..], Quote, EscapedQuote);
      ReadQuotedEscaped(p[1..]);
      assert [p[0]] + p[1..] == p;
      if p[0] == Quote {
        assert ReplaceChar(p, Quote, EscapedQuote) + "'" == EscapedQuote + e + "'";
        EscapedQuoteStep(e);
      } else {
        assert ReplaceChar(p, Quote, EscapedQuote) + "'" == [p[0]] + e + "'";
        PlainQuotedStep(p[0], e);
      }
    }
  }

  /** The escaped path is one literal shell word, and the shell reads it as the path itself,
      whatever quotes, blanks or other special characters the path holds. */
  lemma ShellEscapeReadsBack(p: string)
    ensures ReadWord(ShellEscape(p)) == Some(p)
  {
    ReadQuotedEscaped(p);
    assert ShellEscape(p)[1..] == ReplaceChar(p, Quote, EscapedQuote) + "'";
  }

  // ---------------------------------------------------------------------------
  // `find` output

  /** `.map { $0.trimmingCharacters(in: .whitespaces) }` */
  function TrimEach(lines: seq<string>): (r: seq<string>)
    ensures |r| == |lines|
    ensures forall k :: 0 <= k < |lines| ==> r[k] == Trim(lines[k], IsWhitespace)
  {
    if lines == [] then [] else [Trim(lines[0], IsWhitespace)] + TrimEach(lines[1..])
  }

  /** `.filter { $0 != path }` */
  function Except(paths: seq<string>, path: string): (r: seq<string>)
    ensures |r| <= |paths|
    ensures forall x :: x in r <==> x in paths && x != path
  {
    if paths == [] then []
    else (if paths[0] == path then [] else [paths[0]]) + Except(paths[1..], path)
  }

  /** `.map { ($0 as NSString).lastPathComponent }` */
  function LastComponents(paths: seq<string>): (r: seq<string>)
    ensures |r| == |paths|
    ensures forall k :: 0 <= k < |paths| ==> r[k] == LastPathComponent(paths[k])
  {
    if paths == [] then [] else [LastPathComponent(paths[0])] + LastComponents(paths[1..])
  }

  lemma LastComponentsMembers(paths: seq<string>)
    ensures forall n :: n in LastComponents(paths) <==> exists x :: x in paths && n == LastPathComponent(x)
  {
    var names := LastComponents(paths);
    forall n
      ensures n in names <==> exists x :: x in paths && n == LastPathComponent(x)
    {
      if n in names {
        var k :| 0 <= k < |names| && names[k] == n;
        assert paths[k] in paths;
      }
      if exists x :: x in paths && n == LastPathComponent(x) {
        var x :| x in paths && n == LastPathComponent(x);
        var k :| 0 <= k < |paths| && paths[k] == x;
        assert names[k] == n;
      }
    }
  }

  /** The lines of a `find` listing, trimmed of blanks, empty ones dropped. */
  function FoundPaths(output: string): (r: seq<string>)
    ensures forall x :: x in r <==> x != [] && x in TrimEach(Lines(output))
  {
    NonEmpty(TrimEach(Lines(output)))
  }

  /** The folder names of a `find -type d` listing of path: the last components of the listed
      paths other than path itself. */
  function FolderNames(output: string, path: string): (names: seq<string>)
    ensures |names| <= |FoundPaths(output)|
    ensures forall k :: 0 <= k < |names| ==> names[k] != []
  {
    var paths := FoundPaths(output);
    var found := Except(paths, path);
    var names := LastComponents(found);
    assert forall k :: 0 <= k < |names| ==> names[k] != [] by {
      forall k | 0 <= k < |names|
        ensures names[k] != []
      {
        assert found[k] in found;
        assert found[k] in paths;
      }
    }
    names
  }

  /** A folder name is the last component of a listed path other than path itself, every such
      component is a name, and none is empty. */
  lemma FolderNamesMembers(output: string, path: string)
    ensures forall n :: n in FolderNames(output, path) ==> n != []
    ensures forall n :: n in FolderNames(output, path) <==>
      exists x :: x in FoundPaths(output) && x != path && n == LastPathComponent(x)
  {
    LastComponentsMembers(Except(FoundPaths(output), path));
  }

  /** The dictionary `listFolderContentsOnDevice` sends for a folder. */
  function FolderEntry(name: string): Dictionary {
    map["type" := Str("folder"), "name" := Str(name), "photoCount" := Int(0)]
  }

  function FolderEntries(names: seq<string>): (r: seq<Dictionary>)
    ensures |r| == |names|
    ensures forall k :: 0 <= k < |names| ==> r[k] == FolderEntry(names[k])
  {
    if names == [] then [] else [FolderEntry(names[0])] + FolderEntries(names[1..])
  }

  function FindFoldersArgs(deviceId: string, path: string): seq<string> {
    DeviceArgs(deviceId, "shell", ["find", ShellEscape(path), "-maxdepth", "1", "-type", "d"])
  }

  // ---------------------------------------------------------------------------
  // The adb path cache

  /** The result of `getADBPath` given the cache before the call. */
  function Located(cached: Option<string>, host: Host): (r: Result<string, Fault>)
    ensures cached.Some? ==> r == Success(cached.value)
  {
    if cached.Some? then Success(cached.value) else LocateAdb(host.resource, host.chmodError)
  }

  /** The cache after `getADBPath`: a located path is kept, a failure leaves it empty. */
  function CacheAfter(cached: Option<string>, host: Host): (r: Option<string>)
    ensures r == Located(cached, host).ToOption()
  {
    if cached.Some? then cached else LocateAdb(host.resource, host.chmodError).ToOption()
  }

  /** Once a path is cached the bundle is not consulted again: every later call returns it. */
  lemma CachedPathIsFinal(p: string, host: Host, other: Host)
    ensures var c := CacheAfter(Some(p), host); c == Some(p) && Located(c, other) == Success(p)
  {
  }

  // ---------------------------------------------------------------------------
  // Device details

  const MarketNameProp: string := "ro.product.marketname"
  const ModelProp: string := "ro.product.model"
  const ManufacturerProp: string := "ro.product.manufacturer"
  const ReleaseProp: string := "ro.build.version.release"
  const SdkProp: string := "ro.build.version.sdk"

  /** `dumpsys battery` parsed; nil when the read fails or no level is reported. */
  function BatteryRead(adb: Adb, deviceId: string): (r: Option<string>)
    ensures r.Some? ==> |r.value| > 0 && r.value[|r.value| - 1] == '%'
  {
    match ShellRead(adb, deviceId, ["dumpsys", "battery"])
    case Some(out) => ParseBatteryLevel(out)
    case None => None
  }

  /** The record `fetchDeviceDetails` builds: a connected device whose properties are read
      one by one, a failed read leaving its field nil. */
  function Details(adb: Adb, deviceId: string): (d: Device)
    ensures d.id == deviceId && d.state == Connected
  {
    var market := GetProp(adb, deviceId, MarketNameProp);
    Device(deviceId, Connected,
      if market.None? || market == Some([]) then GetProp(adb, deviceId, ModelProp) else market,
      GetProp(adb, deviceId, ManufacturerProp),
      GetProp(adb, deviceId, ReleaseProp),
      BatteryRead(adb, deviceId),
      GetProp(adb, deviceId, SdkProp))
  }

  /** The model is the marketing name when that is read and not empty, else the plain model;
      it is nil only when neither gives one. */
  lemma ModelFallsBack(adb: Adb, deviceId: string)
    ensures var market := GetProp(adb, deviceId, MarketNameProp);
      && (Present(market) ==> Details(adb, deviceId).model == market)
      && (!Present(market) ==> Details(adb, deviceId).model == GetProp(adb, deviceId, ModelProp))
      && (Details(adb, deviceId).model.None? <==> !Present(market) && GetProp(adb, deviceId, ModelProp).None?)
  {
  }

  /** Each field depends only on its own reads: two executables that answer one property's
      command alike give that field alike, whatever they answer to the others; and a read that
      fails leaves only its own field nil. */
  lemma DetailsReadsAreIndependent(adb1: Adb, adb2: Adb, deviceId: string)
    ensures adb1(DeviceArgs(deviceId, "shell", ["getprop", ManufacturerProp])) == adb2(DeviceArgs(deviceId, "shell", ["getprop", ManufacturerProp]))
      ==> Details(adb1, deviceId).manufacturer == Details(adb2, deviceId).manufacturer
    ensures adb1(DeviceArgs(deviceId, "shell", ["getprop", ReleaseProp])) == adb2(DeviceArgs(deviceId, "shell", ["getprop", ReleaseProp]))
      ==> Details(adb1, deviceId).androidVersion == Details(adb2, deviceId).androidVersion
    ensures adb1(DeviceArgs(deviceId, "shell", ["getprop", SdkProp])) == adb2(DeviceArgs(deviceId, "shell", ["getprop", SdkProp]))
      ==> Details(adb1, deviceId).apiLevel == Details(adb2, deviceId).apiLevel
    ensures adb1(DeviceArgs(deviceId, "shell", ["dumpsys", "battery"])) == adb2(DeviceArgs(deviceId, "shell", ["dumpsys", "battery"]))
      ==> Details(adb1, deviceId).batteryLevel == Details(adb2, deviceId).batteryLevel
    ensures Details(adb1, deviceId).manufacturer.None? <==> RunCommand(adb1, DeviceArgs(deviceId, "shell", ["getprop", ManufacturerProp])).Failure?
    ensures Details(adb1, deviceId).apiLevel.None? <==> RunCommand(adb1, DeviceArgs(deviceId, "shell", ["getprop", SdkProp])).Failure?
  {
  }

  /** A connected record is replaced by its details, any other one kept. */
  function EnrichOne(adb: Adb, d: Device): (r: Device)
    ensures r.id == d.id && r.state == d.state
  {
    if d.state == Connected then Details(adb, d.id) else d
  }

  /** `performListDevices` after parsing: connected records replaced by their details, the
      others kept, in order. */
  function Enriched(adb: Adb, basic: seq<Device>): (r: seq<Device>)
    ensures |r| == |basic|
    ensures forall k :: 0 <= k < |basic| ==> r[k] == EnrichOne(adb, basic[k])
  {
    if basic == [] then [] else [EnrichOne(adb, basic[0])] + Enriched(adb, basic[1..])
  }

  /** Enrichment keeps each record's id and state and its place in the list. */
  lemma EnrichedKeepsIdsAndStates(adb: Adb, basic: seq<Device>)
    ensures forall k :: 0 <= k < |basic| ==>
      Enriched(adb, basic)[k].id == basic[k].id && Enriched(adb, basic)[k].state == basic[k].state
  {
  }

  /** `adb devices`: untrimmed standard output; not UTF-8 is `invalidOutput`. */
  function ReadDevices(adb: Adb): (r: Result<string, Fault>)
    ensures r.Success? <==> adb(["devices"]).launchError.None? && adb(["devices"]).stdout.Some?
  {
    var p := adb(["devices"]);
    if p.launchError.Some? then Failure(System(p.launchError.value))
    else if p.stdout.None? then Failure(Adb(InvalidOutput))
    else Success(p.stdout.value)
  }

  /** `performListDevices`: the located adb's listing, parsed and enriched. */
  function ListedDevices(cached: Option<string>, host: Host): (r: Result<seq<Device>, Fault>)
    ensures r.Success? <==> Located(cached, host).Success? && ReadDevices(host.adb).Success?
    ensures Located(cached, host).Failure? ==> r == Failure(Located(cached, host).error)
    ensures r.Success? ==>
      var basic := ParseADBOutput(ReadDevices(host.adb).value);
      && |r.value| == |basic|
      && forall k :: 0 <= k < |basic| ==> r.value[k].id == basic[k].id && r.value[k].state == basic[k].state
  {
    match Located(cached, host)
    case Failure(e) => Failure(e)
    case Success(_) =>
      match ReadDevices(host.adb)
      case Failure(e) => Failure(e)
      case Success(out) => Success(Enriched(host.adb, ParseADBOutput(out)))
  }

  // ---------------------------------------------------------------------------
  // Photo listing

  const PhotoExtensions: seq<string> := ["jpg", "jpeg", "png", "heic", "dng", "raw"]

  function FindPhotosArgs(deviceId: string, sourcePath: string, ext: string): seq<string> {
    DeviceArgs(deviceId, "shell", ["find", ShellEscape(sourcePath), "-maxdepth", "1", "-type", "f", "-iname", "*." + ext])
  }

  /** The file names of one `find -type f` listing. */
  function PhotoNames(output: string): seq<string> {
    LastComponents(FoundPaths(output))
  }

  /** The names one extension's `find` lists, or the error of that command. */
  function Query(adb: Adb, deviceId: string, sourcePath: string, ext: string): Result<seq<string>, Fault> {
    match RunCommand(adb, FindPhotosArgs(deviceId, sourcePath, ext))
    case Failure(e) => Failure(e)
    case Success(out) => Success(PhotoNames(out))
  }

  function QueryOf(adb: Adb, deviceId: string, sourcePath: string): string -> Result<seq<string>, Fault> {
    (ext: string) => Query(adb, deviceId, sourcePath, ext)
  }

  /** Applying the query of a device and folder runs that extension's `find`. */
  lemma QueryOfRuns(adb: Adb, deviceId: string, sourcePath: string, ext: string)
    ensures var output := RunCommand(adb, FindPhotosArgs(deviceId, sourcePath, ext));
      QueryOf(adb, deviceId, sourcePath)(ext) == if output.Failure? then Failure(output.error) else Success(PhotoNames(output.value))
  {
  }

  /** Some extension's query failed with e. */
  predicate QueryFailedWith(query: string -> Result<seq<string>, Fault>, exts: seq<string>, e: Fault) {
    exists k :: 0 <= k < |exts| && query(exts[k]) == Failure(e)
  }

  /** The listings of the given extensions, concatenated in order; the first query that
      fails ends the listing with its error. */
  function Collected(query: string -> Result<seq<string>, Fault>, exts: seq<string>): (r: Result<seq<string>, Fault>)
    ensures r.Failure? ==> QueryFailedWith(query, exts, r.error)
    decreases |exts|
  {
    if exts == [] then Success([])
    else
      var found := Collected(query, exts[..|exts| - 1]);
      var last := query(exts[|exts| - 1]);
      if found.Failure? then
        assert QueryFailedWith(query, exts, found.error) by {
          var k :| 0 <= k < |exts| - 1 && query(exts[..|exts| - 1][k]) == Failure(found.error);
          assert exts[..|exts| - 1][k] == exts[k];
        }
        found
      else if last.Failure? then
        assert query(exts[|exts| - 1]) == Failure(last.error);
        Failure(last.error)
      else Success(found.value + last.value)
  }

  /** One more extension after a successful collection: its query's error, or its names
      appended. */
  lemma CollectedExtend(query: string -> Result<seq<string>, Fault>, exts: seq<string>, i: nat)
    requires i < |exts| && Collected(query, exts[..i]).Success?
    ensures Collected(query, exts[..i + 1]) ==
      if query(exts[i]).Failure? then Failure(query(exts[i]).error)
      else Success(Collected(query, exts[..i]).value + query(exts[i]).value)
  {
    assert exts[..i + 1][..i] == exts[..i] && exts[..i + 1][i] == exts[i];
  }

  lemma {:induction false} CollectedFailureSticks(query: string -> Result<seq<string>, Fault>, exts: seq<string>, n: nat)
    requires n <= |exts| && Collected(query, exts[..n]).Failure?
    ensures Collected(query, exts) == Collected(query, exts[..n])
    decreases |exts| - n
  {
    if n < |exts| {
      assert exts[..|exts| - 1][..n] == exts[..n];
      CollectedFailureSticks(query, exts[..|exts| - 1], n);
    } else {
      assert exts[..n] == exts;
    }
  }

  /** The collection succeeds exactly when every extension's query does. */
  lemma {:induction false} CollectedSucceeds(query: string -> Result<seq<string>, Fault>, exts: seq<string>)
    decreases |exts|
    ensures Collected(query, exts).Success? <==> forall k :: 0 <= k < |exts| ==> query(exts[k]).Success?
  {
    if exts != [] {
      var init := exts[..|exts| - 1];
      CollectedSucceeds(query, init);
      assert forall k :: 0 <= k < |init| ==> init[k] == exts[k];
    }
  }

  /** A name is collected exactly when some extension's query listed it. */
  lemma {:induction false} CollectedMembers(query: string -> Result<seq<string>, Fault>, exts: seq<string>)
    decreases |exts|
    requires Collected(query, exts).Success?
    ensures forall n :: n in Collected(query, exts).value <==>
      (exists k :: 0 <= k < |exts| && query(exts[k]).Success? && n in query(exts[k]).value)
  {
    if exts != [] {
      var init := exts[..|exts| - 1];
      var last := |exts| - 1;
      CollectedMembers(query, init);
      assert forall k :: 0 <= k < |init| ==> init[k] == exts[k];
      var all := Collected(query, exts).value;
      var found := Collected(query, init).value;
      var q := query(exts[last]).value;
      assert all == found + q;
      forall n
        ensures n in all <==> (exists k :: 0 <= k < |exts| && query(exts[k]).Success? && n in query(exts[k]).value)
      {
        if n in all && n !in found {
          assert n in q;
        }
        if exists k :: 0 <= k < |exts| && query(exts[k]).Success? && n in query(exts[k]).value {
          var k :| 0 <= k < |exts| && query(exts[k]).Success? && n in query(exts[k]).value;
          if k < last {
            assert n in found;
          } else {
            assert n in q;
          }
        }
      }
    }
  }

  /** `listPhotosOnDevice`: all collected names, each once, in ascending order. */
  function PhotoListing(adb: Adb, deviceId: string, sourcePath: string): (r: Result<seq<string>, Fault>)
    ensures r.Success? ==> StrictlyIncreasing(r.value)
  {
    match Collected(QueryOf(adb, deviceId, sourcePath), PhotoExtensions)
    case Failure(e) => Failure(e)
    case Success(all) => Success(SortedDistinct(all))
  }

  /** The photo listing names every file some extension query found, once, in ascending order;
      it fails when one of the six queries fails. */
  lemma PhotoListingContents(adb: Adb, deviceId: string, sourcePath: string)
    ensures PhotoListing(adb, deviceId, sourcePath).Success? <==>
      forall k :: 0 <= k < |PhotoExtensions| ==> Query(adb, deviceId, sourcePath, PhotoExtensions[k]).Success?
    ensures PhotoListing(adb, deviceId, sourcePath).Success? ==>
      var names := PhotoListing(adb, deviceId, sourcePath).value;
      && StrictlyIncreasing(names)
      && forall n :: n in names <==>
           (exists k :: 0 <= k < |PhotoExtensions| && Query(adb, deviceId, sourcePath, PhotoExtensions[k]).Success? &&
              n in Query(adb, deviceId, sourcePath, PhotoExtensions[k]).value)
  {
    CollectedSucceeds(QueryOf(adb, deviceId, sourcePath), PhotoExtensions);
    if PhotoListing(adb, deviceId, sourcePath).Success? {
      CollectedMembers(QueryOf(adb, deviceId, sourcePath), PhotoExtensions);
    }
  }

  /** No listed name is empty. */
  lemma PhotoNamesNotEmpty(output: string)
    ensures forall n :: n in PhotoNames(output) ==> n != []
  {
    LastComponentsMembers(FoundPaths(output));
  }

  // ---------------------------------------------------------------------------
  // pullPhoto

  const UnknownError: string := "Unknown error"
  const FailedToPull: string := "Failed to pull"

  /** `commandFailed` message for a failed pull. */
  function PullFailureMessage(fileName: string, errorMessage: string): string {
    FailedToPull + " " + fileName + ": " + errorMessage
  }

  /** The three texts of adb's standard error that mean the device went away. */
  predicate ReportsDisconnection(message: string) {
    Contains(message, "device offline") || Contains(message, "device not found") || Contains(message, "no devices")
  }

  /** `(dir as NSString).appendingPathComponent(name)`, for a relative name. */
  function AppendPath(dir: string, name: string): string {
    if dir == [] then name else if dir[|dir| - 1] == '/' then dir + name else dir + "/" + name
  }

  /** The pulled file's source path ends in the file's own name, whether or not the folder
      ends in a slash. */
  lemma AppendPathNamesFile(dir: string, name: string)
    requires name != [] && '/' !in name
    ensures LastPathComponent(AppendPath(dir, name)) == name
  {
    if dir == [] {
      LastPathComponentOfName(name);
    } else if dir[|dir| - 1] == '/' {
      var parent := dir[..|dir| - 1];
      assert dir + name == parent + "/" + name;
      LastPathComponentOfChild(parent, name);
    } else {
      LastPathComponentOfChild(dir, name);
    }
  }

  function PullArgs(deviceId: string, sourcePath: string, fileName: string, destinationPath: string): seq<string> {
    DeviceArgs(deviceId, "pull", [AppendPath(sourcePath, fileName), destinationPath])
  }

  /** `pullPhoto`: None when the pull succeeds, else the error it throws. */
  function PullPhoto(adb: Adb, deviceId: string, sourcePath: string, fileName: string, destinationPath: string): (r: Option<Fault>)
    ensures var p := adb(PullArgs(deviceId, sourcePath, fileName, destinationPath));
      && (r.None? <==> p.launchError.None? && p.status == 0)
      && (p.launchError.Some? ==> r == Some(System(p.launchError.value)))
      && (p.launchError.None? && p.status != 0 ==>
            var message := p.stderr.GetOr(UnknownError);
            if ReportsDisconnection(message) then r == Some(Adb(DeviceDisconnected))
            else r == Some(Adb(CommandFailed(PullFailureMessage(fileName, message)))))
  {
    var p := adb(PullArgs(deviceId, sourcePath, fileName, destinationPath));
    if p.launchError.Some? then Some(System(p.launchError.value))
    else if p.status == 0 then None
    else
      var message := p.stderr.GetOr(UnknownError);
      if ReportsDisconnection(message) then Some(Adb(DeviceDisconnected))
      else Some(Adb(CommandFailed(PullFailureMessage(fileName, message))))
  }

  /** Every adb error a pull throws describes itself either as the disconnection or with a
      text that names the failed pull. */
  lemma PullErrorDescriptions(adb: Adb, deviceId: string, sourcePath: string, fileName: string, destinationPath: string)
    requires PullPhoto(adb, deviceId, sourcePath, fileName, destinationPath).Some?
    requires PullPhoto(adb, deviceId, sourcePath, fileName, destinationPath).value.Adb?
    ensures var d := Description(PullPhoto(adb, deviceId, sourcePath, fileName, destinationPath).value);
      d == DeviceDisconnectedText || Contains(d, FailedToPull)
  {
    var p := adb(PullArgs(deviceId, sourcePath, fileName, destinationPath));
    var message := p.stderr.GetOr(UnknownError);
    if !ReportsDisconnection(message) {
      var m := PullFailureMessage(fileName, message);
      ContainsInfix(CommandFailedPrefix, FailedToPull, " " + fileName + ": " + message);
      assert CommandFailedPrefix + m == CommandFailedPrefix + FailedToPull + (" " + fileName + ": " + message);
    }
  }

  /** The pull of each file of a sync. */
  function PullOf(adb: Adb, deviceId: string, sourcePath: string, destinationPath: string): (pull: string -> Option<Fault>)
    ensures forall f :: pull(f).None? <==>
      adb(PullArgs(deviceId, sourcePath, f, destinationPath)).launchError.None? && adb(PullArgs(deviceId, sourcePath, f, destinationPath)).status == 0
  {
    (f: string) => PullPhoto(adb, deviceId, sourcePath, f, destinationPath)
  }

  // ---------------------------------------------------------------------------
  // performPhotoSync

  const NoPhotosMessage: string := "No photos found " + "in this folder.\n\n" + "Please select a " + "different folder " + "with images."

  /** The reply `startPhotoSync` sends: the count, or the error as its description. */
  function ToReply<T>(r: Result<T, Fault>): (reply: Reply<T>)
    ensures r.Success? ==> reply == Reply(Some(r.value), None)
    ensures r.Failure? ==> reply == Reply(None, Some(Description(r.error)))
  {
    match r
    case Success(v) => Reply(Some(v), None)
    case Failure(e) => Reply(None, Some(Description(e)))
  }

  class ADBServiceImplementation {
    var cachedDevices: seq<Device>
    /** Whether the device polling task is running. */
    var monitoring: bool
    var cachedADBPath: Option<string>
    var syncProgressCurrent: int
    var syncProgressTotal: int
    var syncProgressCurrentFile: string

    constructor()
      ensures cachedDevices == [] && !monitoring && cachedADBPath.None?
      ensures syncProgressCurrent == 0 && syncProgressTotal == 0 && syncProgressCurrentFile == []
    {
      cachedDevices := [];
      monitoring := false;
      cachedADBPath := None;
      syncProgressCurrent := 0;
      syncProgressTotal := 0;
      syncProgressCurrentFile := [];
    }

    function SyncProgress(): Progress
      reads this
    {
      Progress(syncProgressCurrent, syncProgressTotal, syncProgressCurrentFile)
    }

    method StartMonitoring()
      modifies this`monitoring
      ensures monitoring
    {
      monitoring := true;
    }

    method StopMonitoring()
      modifies this`monitoring
      ensures !monitoring
    {
      monitoring := false;
    }

    method UpdateCache(devices: seq<Device>)
      modifies this`cachedDevices
      ensures cachedDevices == devices
    {
      cachedDevices := devices;
    }

    method GetCache() returns (devices: seq<Device>)
      ensures devices == cachedDevices
    {
      devices := cachedDevices;
    }

    /** `listDevices`: the cached list, never an error. */
    method ListDevices() returns (reply: Reply<seq<Device>>)
      ensures reply == Reply(Some(cachedDevices), None)
    {
      var devices := GetCache();
      reply := Reply(Some(devices), None);
    }

    method UpdateSyncProgress(current: int, total: int, currentFile: string)
      modifies this`syncProgressCurrent, this`syncProgressTotal, this`syncProgressCurrentFile
      ensures SyncProgress() == Progress(current, total, currentFile)
    {
      syncProgressCurrent := current;
      syncProgressTotal := total;
      syncProgressCurrentFile := currentFile;
    }

    /** `getPhotoSyncProgress`: the snapshot as it stands. */
    method GetPhotoSyncProgress() returns (p: Progress)
      ensures p == SyncProgress()
    {
      p := Progress(syncProgressCurrent, syncProgressTotal, syncProgressCurrentFile);
    }

    /** `getADBPath`: the cached path, or the bundled one, which is then cached. */
    method GetADBPath(host: Host) returns (r: Result<string, Fault>)
      modifies this`cachedADBPath
      ensures r == Located(old(cachedADBPath), host)
      ensures cachedADBPath == CacheAfter(old(cachedADBPath), host)
    {
      if cachedADBPath.Some? {
        return Success(cachedADBPath.value);
      }
      r := LocateAdb(host.resource, host.chmodError);
      if r.Success? {
        cachedADBPath := Some(r.value);
      }
    }

    /** `fetchDeviceDetails`: fills in a fresh connected record one property at a time. */
    method FetchDeviceDetails(host: Host, deviceId: string) returns (r: Result<Device, Fault>)
      modifies this`cachedADBPath
      ensures cachedADBPath == CacheAfter(old(cachedADBPath), host)
      ensures Located(old(cachedADBPath), host).Failure? ==> r == Failure(Located(old(cachedADBPath), host).error)
      ensures Located(old(cachedADBPath), host).Success? ==> r == Success(Details(host.adb, deviceId))
    {
      var located := GetADBPath(host);
      if located.Failure? {
        return Failure(located.error);
      }
      var device := NewDevice(deviceId, "device");
      device := device.(model := GetProp(host.adb, deviceId, MarketNameProp));
      if device.model.None? || device.model == Some([]) {
        device := device.(model := GetProp(host.adb, deviceId, ModelProp));
      }
      device := device.(manufacturer := GetProp(host.adb, deviceId, ManufacturerProp));
      device := device.(androidVersion := GetProp(host.adb, deviceId, ReleaseProp));
      device := device.(apiLevel := GetProp(host.adb, deviceId, SdkProp));
      var battery := ShellRead(host.adb, deviceId, ["dumpsys", "battery"]);
      if battery.Some? {
        device := device.(batteryLevel := ParseBatteryLevel(battery.value));
      }
      return Success(device);
    }

    /** `getDeviceDetails` */
    method GetDeviceDetails(host: Host, deviceId: string) returns (reply: Reply<Device>)
      modifies this`cachedADBPath
      ensures cachedADBPath == CacheAfter(old(cachedADBPath), host)
      ensures Located(old(cachedADBPath), host).Failure? ==> reply == ToReply<Device>(Failure(Located(old(cachedADBPath), host).error))
      ensures Located(old(cachedADBPath), host).Success? ==> reply == Reply(Some(Details(host.adb, deviceId)), None)
    {
      var r := FetchDeviceDetails(host, deviceId);
      reply := ToReply(r);
    }

    /** `performListDevices`: the parsed records, each connected one replaced by its details.
        The path is cached before the details are read, so no detail fetch fails and the
        fallback to the plain record is never taken. */
    method PerformListDevices(host: Host) returns (r: Result<seq<Device>, Fault>)
      modifies this`cachedADBPath
      ensures cachedADBPath == CacheAfter(old(cachedADBPath), host)
      ensures r == ListedDevices(old(cachedADBPath), host)
    {
      var located := GetADBPath(host);
      if located.Failure? {
        return Failure(located.error);
      }
      var output := ReadDevices(host.adb);
      if output.Failure? {
        return Failure(output.error);
      }
      var basic := ParseADBOutput(output.value);
      var detailed := EnrichAll(host, basic);
      return Success(detailed);
    }

    /** The loop of `performListDevices` over the parsed records, once adb is located: each
        connected record is replaced by its details. */
    method EnrichAll(host: Host, basic: seq<Device>) returns (detailed: seq<Device>)
      requires cachedADBPath.Some?
      modifies this`cachedADBPath
      ensures cachedADBPath == old(cachedADBPath)
      ensures detailed == Enriched(host.adb, basic)
    {
      detailed := [];
      var i := 0;
      while i < |basic|
        invariant 0 <= i <= |basic|
        invariant cachedADBPath == old(cachedADBPath)
        invariant |detailed| == i
        invariant forall k :: 0 <= k < i ==> detailed[k] == EnrichOne(host.adb, basic[k])
      {
        var device := basic[i];
        var next := device;
        if device.state == Connected {
          var fetched := FetchDeviceDetails(host, device.id);
          if fetched.Success? {
            next := fetched.value;
          }
        }
        assert next == EnrichOne(host.adb, basic[i]);
        detailed := detailed + [next];
        i := i + 1;
      }
      assert |detailed| == |Enriched(host.adb, basic)|;
    }

    /** `pollDevices`, one turn of the monitoring loop: a successful listing replaces the cache,
        a failed one leaves it. */
    method PollDevices(host: Host)
      modifies this`cachedADBPath, this`cachedDevices
      ensures cachedADBPath == CacheAfter(old(cachedADBPath), host)
      ensures ListedDevices(old(cachedADBPath), host).Success? ==> cachedDevices == ListedDevices(old(cachedADBPath), host).value
      ensures ListedDevices(old(cachedADBPath), host).Failure? ==> cachedDevices == old(cachedDevices)
    {
      var r := PerformListDevices(host);
      if r.Success? {
        UpdateCache(r.value);
      }
    }

    /** `listFolderContentsOnDevice`: one folder dictionary per sub-folder, sorted by name. The
        dictionaries differ only in their names, so sorting them by name is building them from
        the sorted names. */
    method ListFolderContentsOnDevice(host: Host, deviceId: string, path: string) returns (r: Result<seq<Dictionary>, Fault>)
      modifies this`cachedADBPath
      ensures cachedADBPath == CacheAfter(old(cachedADBPath), host)
      ensures Located(old(cachedADBPath), host).Failure? ==> r == Failure(Located(old(cachedADBPath), host).error)
      ensures Located(old(cachedADBPath), host).Success? ==>
        var out := RunCommand(host.adb, FindFoldersArgs(deviceId, path));
        && (out.Failure? ==> r == Failure(out.error))
        && (out.Success? ==> r == Success(FolderEntries(Sort(FolderNames(out.value, path)))))
    {
      var located := GetADBPath(host);
      if located.Failure? {
        return Failure(located.error);
      }
      var output := RunCommand(host.adb, FindFoldersArgs(deviceId, path));
      if output.Failure? {
        return Failure(output.error);
      }
      var names := FolderNames(output.value, path);
      return Success(FolderEntries(Sort(names)));
    }

    /** `listFolderContents`: the listing or its error, as the completion handler gets it. */
    method ListFolderContents(host: Host, deviceId: string, path: string) returns (reply: Reply<seq<Dictionary>>)
      modifies this`cachedADBPath
      ensures cachedADBPath == CacheAfter(old(cachedADBPath), host)
      ensures reply.value.Some? <==> reply.error.None?
    {
      var r := ListFolderContentsOnDevice(host, deviceId, path);
      reply := ToReply(r);
    }

    /** `listPhotosOnDevice`: one `find` per extension, the names gathered, then deduplicated
        and sorted. */
    method ListPhotosOnDevice(adb: Adb, deviceId: string, sourcePath: string) returns (r: Result<seq<string>, Fault>)
      ensures r == PhotoListing(adb, deviceId, sourcePath)
    {
      ghost var query := QueryOf(adb, deviceId, sourcePath);
      var all: seq<string> := [];
      var i := 0;
      while i < |PhotoExtensions|
        invariant 0 <= i <= |PhotoExtensions|
        invariant Collected(query, PhotoExtensions[..i]) == Success(all)
      {
        var ext := PhotoExtensions[i];
        var output := RunCommand(adb, FindPhotosArgs(deviceId, sourcePath, ext));
        QueryOfRuns(adb, deviceId, sourcePath, ext);
        CollectedExtend(query, PhotoExtensions, i);
        if output.Failure? {
          CollectedFailureSticks(query, PhotoExtensions, i + 1);
          return Failure(output.error);
        }
        all := all + PhotoNames(output.value);
        i := i + 1;
      }
      assert PhotoExtensions[..i] == PhotoExtensions;
      return Success(SortedDistinct(all));
    }

    /** The loop of `performPhotoSync` with its catch block, from the progress reset to
        (0, total) on: it computes the run of SyncRun, leaves the pulled files in the folder,
        and ends with progress (total, total, last text) or, after a failure, with
        (files synced so far, total, ""). */
    method SyncFiles(adb: Adb, deviceId: string, sourcePath: string, destinationPath: string,
                     files: seq<string>, folder: DestinationFolder) returns (r: Result<int, Fault>)
      requires folder.isPresent
      modifies this`syncProgressCurrent, this`syncProgressTotal, this`syncProgressCurrentFile, folder
      ensures var run := Run(files, old(folder.names), PullOf(adb, deviceId, sourcePath, destinationPath));
        && folder.isPresent && folder.names == run.present
        && (run.failure.None? ==> r == Success(run.synced) && SyncProgress() == Progress(|files|, |files|, run.note))
        && (run.failure.Some? ==> r == Failure(run.failure.value) && SyncProgress() == Progress(run.synced, |files|, []))
    {
      ghost var pull := PullOf(adb, deviceId, sourcePath, destinationPath);
      ghost var expected := Run(files, folder.names, pull);
      var total := |files|;
      var processed, synced := 0, 0;
      ghost var attempted: seq<string> := [];
      UpdateSyncProgress(0, total, []);
      var i := 0;
      while i < |files|
        invariant 0 <= i <= |files| && processed == i
        invariant folder.isPresent
        invariant syncProgressCurrent == processed && syncProgressTotal == total
        invariant Finish(Tally(processed, synced, folder.names, attempted, None, syncProgressCurrentFile), files[i..], pull) == expected
      {
        var f := files[i];
        ghost var t := Tally(processed, synced, folder.names, attempted, None, syncProgressCurrentFile);
        assert files[i..][0] == f && files[i..][1..] == files[i + 1..];
        processed := processed + 1;
        if f in folder.names {
          UpdateSyncProgress(processed, total, SkippedPrefix + f);
        } else {
          UpdateSyncProgress(processed, total, SyncingPrefix + f);
          var failure := PullPhoto(adb, deviceId, sourcePath, f, destinationPath);
          attempted := attempted + [f];
          if failure.Some? {
            assert Step(t, f, pull) == expected;
            UpdateSyncProgress(synced, total, []);
            return Failure(failure.value);
          }
          synced := synced + 1;
          folder.Add(f);
          UpdateSyncProgress(processed, total, CompletedPrefix + f);
        }
        assert Tally(processed, synced, folder.names, attempted, None, syncProgressCurrentFile) == Step(t, f, pull);
        i := i + 1;
      }
      return Success(synced);
    }

    /** `performPhotoSync` from the listing on: no photos is an error, then the destination
        is created if need be and the files are synced. */
    method SyncListing(adb: Adb, deviceId: string, sourcePath: string, destinationPath: string,
                       files: seq<string>, folder: DestinationFolder) returns (r: Result<int, Fault>)
      modifies this`syncProgressCurrent, this`syncProgressTotal, this`syncProgressCurrentFile, folder
      ensures files == [] ==>
        r == Failure(Adb(CommandFailed(NoPhotosMessage))) && unchanged(folder) && SyncProgress() == old(SyncProgress())
      ensures files != [] && !old(folder.isPresent) && folder.createError.Some? ==>
        r == Failure(System(folder.createError.value)) && unchanged(folder) && SyncProgress() == old(SyncProgress())
      ensures files != [] && (old(folder.isPresent) || folder.createError.None?) ==>
        var run := Run(files, if old(folder.isPresent) then old(folder.names) else {}, PullOf(adb, deviceId, sourcePath, destinationPath));
        && folder.isPresent && folder.names == run.present
        && (run.failure.None? ==> r == Success(run.synced) && SyncProgress() == Progress(|files|, |files|, run.note))
        && (run.failure.Some? ==> r == Failure(run.failure.value) && SyncProgress() == Progress(run.synced, |files|, []))
    {
      if files == [] {
        return Failure(Adb(CommandFailed(NoPhotosMessage)));
      }
      var created := folder.Create();
      if created.Some? {
        return Failure(created.value);
      }
      r := SyncFiles(adb, deviceId, sourcePath, destinationPath, files, folder);
    }

    /** `performPhotoSync`: locate adb, reset the progress, list the photos, then sync them. */
    method PerformPhotoSync(host: Host, deviceId: string, sourcePath: string, destinationPath: string,
                            folder: DestinationFolder) returns (r: Result<int, Fault>)
      modifies this`cachedADBPath, this`syncProgressCurrent, this`syncProgressTotal, this`syncProgressCurrentFile, folder
      ensures cachedADBPath == CacheAfter(old(cachedADBPath), host)
      ensures Located(old(cachedADBPath), host).Failure? ==>
        r == Failure(Located(old(cachedADBPath), host).error) && unchanged(folder) && SyncProgress() == old(SyncProgress())
      ensures Located(old(cachedADBPath), host).Success? && PhotoListing(host.adb, deviceId, sourcePath).Failure? ==>
        r == Failure(PhotoListing(host.adb, deviceId, sourcePath).error) && unchanged(folder) && SyncProgress() == Progress(0, 0, [])
      ensures Located(old(cachedADBPath), host).Success? && PhotoListing(host.adb, deviceId, sourcePath) == Success([]) ==>
        r == Failure(Adb(CommandFailed(NoPhotosMessage))) && unchanged(folder) && SyncProgress() == Progress(0, 0, [])
      ensures Located(old(cachedADBPath), host).Success? && PhotoListing(host.adb, deviceId, sourcePath).Success? ==>
        var files := PhotoListing(host.adb, deviceId, sourcePath).value;
        && (files != [] && !old(folder.isPresent) && folder.createError.Some? ==>
              r == Failure(System(folder.createError.value)) && unchanged(folder) && SyncProgress() == Progress(0, 0, []))
        && (files != [] && (old(folder.isPresent) || folder.createError.None?) ==>
              var run := Run(files, if old(folder.isPresent) then old(folder.names) else {}, PullOf(host.adb, deviceId, sourcePath, destinationPath));
              && folder.isPresent && folder.names == run.present
              && (run.failure.None? ==> r == Success(run.synced) && SyncProgress() == Progress(|files|, |files|, run.note))
              && (run.failure.Some? ==> r == Failure(run.failure.value) && SyncProgress() == Progress(run.synced, |files|, [])))
    {
      var located := GetADBPath(host);
      if located.Failure? {
        return Failure(located.error);
      }
      UpdateSyncProgress(0, 0, []);
      var listing := ListPhotosOnDevice(host.adb, deviceId, sourcePath);
      if listing.Failure? {
        return Failure(listing.error);
      }
      r := SyncListing(host.adb, deviceId, sourcePath, destinationPath, listing.value, folder);
    }

    /** `startPhotoSync`: the count, or the error rewrapped with its description kept. */
    method StartPhotoSync(host: Host, deviceId: string, sourcePath: string, destinationPath: string,
                          folder: DestinationFolder) returns (reply: Reply<int>)
      modifies this`cachedADBPath, this`syncProgressCurrent, this`syncProgressTotal, this`syncProgressCurrentFile, folder
      ensures reply.value.Some? <==> reply.error.None?
      ensures reply.value.Some? ==> 0 <= reply.value.value
    {
      var r := PerformPhotoSync(host, deviceId, sourcePath, destinationPath, folder);
      if r.Success? {
        var listing := PhotoListing(host.adb, deviceId, sourcePath);
        RunGuarantees(listing.value, if old(folder.isPresent) then old(folder.names) else {}, PullOf(host.adb, deviceId, sourcePath, destinationPath));
      }
      reply := ToReply(r);
    }
  }
}
