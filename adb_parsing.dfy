/** The two parsers of adb output, `parseADBOutput` and `parseBatteryLevel`. All three revisions
    of the service carry the same code for them (XPCLibrary/Sources/XPCLibrary/ADBServiceImplementation.swift,
    its earlier copy under Implementation/, and ADBServiceXPC/ADBServiceXPC.swift), so they are
    defined once here. */
module AdbParsing {
  import opened Wrappers
  import opened Text
  import opened Devices

  // ---------------------------------------------------------------------------
  // `adb devices`

  const HeaderMarker: string := "List of devices"
  /** The first line `adb devices` prints. */
  const Header: string := HeaderMarker + " attached"

  /** `line.components(separatedBy: .whitespaces).filter { !$0.isEmpty }` */
  function Tokens(line: string): (tokens: seq<string>)
    ensures forall k, c :: 0 <= k < |tokens| && c in tokens[k] ==> !IsWhitespace(c)
    ensures forall k :: 0 <= k < |tokens| ==> tokens[k] != []
  {
    var parts := Split(line, IsWhitespace);
    var r := NonEmpty(parts);
    assert forall k :: 0 <= k < |r| ==> r[k] in parts;
    r
  }

  /** One line of `adb devices`: nothing for an empty line, the header, or a line with fewer
      than two tokens; otherwise a record of the first token as id and the second as state. */
  function ParseLine(line: string): (r: Option<Device>)
    ensures r.None? <==> line == [] || Contains(line, HeaderMarker) || |Tokens(line)| < 2
    ensures r.Some? ==> r.value == NewDevice(Tokens(line)[0], Tokens(line)[1])
  {
    if line == [] || Contains(line, HeaderMarker) then None
    else
      var tokens := Tokens(line);
      if |tokens| < 2 then None else Some(NewDevice(tokens[0], tokens[1]))
  }

  /** `compactMap` of ParseLine. */
  function ParseLines(lines: seq<string>): (devices: seq<Device>)
    ensures |devices| <= |lines|
    ensures forall d :: d in devices ==> exists k :: 0 <= k < |lines| && ParseLine(lines[k]) == Some(d)
    ensures forall k :: 0 <= k < |lines| && ParseLine(lines[k]).Some? ==> ParseLine(lines[k]).value in devices
  {
    if lines == [] then []
    else
      var tail := lines[1..];
      var rest := ParseLines(tail);
      var head := ParseLine(lines[0]);
      var devices := (if head.Some? then [head.value] else []) + rest;
      assert forall k :: 0 <= k < |tail| ==> tail[k] == lines[k + 1];
      assert forall d :: d in devices ==> exists k :: 0 <= k < |lines| && ParseLine(lines[k]) == Some(d) by {
        forall d | d in devices
          ensures exists k :: 0 <= k < |lines| && ParseLine(lines[k]) == Some(d)
        {
          if d !in rest {
            assert ParseLine(lines[0]) == Some(d);
          } else {
            var k :| 0 <= k < |tail| && ParseLine(tail[k]) == Some(d);
            assert ParseLine(lines[k + 1]) == Some(d);
          }
        }
      }
      assert forall k :: 0 <= k < |lines| && ParseLine(lines[k]).Some? ==> ParseLine(lines[k]).value in devices by {
        forall k | 0 <= k < |lines| && ParseLine(lines[k]).Some?
          ensures ParseLine(lines[k]).value in devices
        {
          if k > 0 {
            assert tail[k - 1] == lines[k];
          }
        }
      }
      devices
  }

  /** `parseADBOutput`: records in the order of their lines, at most one per line. */
  function ParseADBOutput(output: string): (devices: seq<Device>)
    ensures |devices| <= |Lines(output)|
    ensures forall d :: d in devices ==> exists k :: 0 <= k < |Lines(output)| && ParseLine(Lines(output)[k]) == Some(d)
    ensures forall k :: 0 <= k < |Lines(output)| && ParseLine(Lines(output)[k]).Some? ==> ParseLine(Lines(output)[k]).value in devices
  {
    ParseLines(Lines(output))
  }

  /** The records of consecutive runs of lines follow each other. */
  lemma {:induction false} ParseLinesAppend(a: seq<string>, b: seq<string>)
    ensures ParseLines(a + b) == ParseLines(a) + ParseLines(b)
  {
    if a == [] {
      assert a + b == b;
    } else {
      assert (a + b)[0] == a[0] && (a + b)[1..] == a[1..] + b;
      ParseLinesAppend(a[1..], b);
    }
  }

  /** The header line yields no record. */
  lemma HeaderYieldsNothing()
    ensures ParseLine(Header) == None
  {
    ContainsInfix([], HeaderMarker, " attached");
    assert [] + HeaderMarker + " attached" == Header;
  }

  lemma HeaderLineYieldsNothing()
    ensures ParseLines([Header]) == []
  {
    HeaderYieldsNothing();
    assert [Header][1..] == [];
  }

  predicate IsToken(s: string) {
    s != [] && forall i :: 0 <= i < |s| ==> !IsWhitespace(s[i]) && !IsNewline(s[i])
  }

  /** A device line: an id and a state separated by one space or tab. */
  function RecordLine(id: string, state: string): string {
    id + "\t" + state
  }

  lemma TokensOfRecordLine(id: string, state: string)
    requires IsToken(id) && IsToken(state)
    ensures Tokens(RecordLine(id, state)) == [id, state]
  {
    var line := RecordLine(id, state);
    SplitAtSeparator(id, '\t', state, IsWhitespace);
    assert line == id + ['\t'] + state;
    SplitWithoutSeparator(state, IsWhitespace);
    assert Split(line, IsWhitespace) == [id, state];
    assert NonEmpty([id, state]) == [id] + NonEmpty([state]);
  }

  lemma RecordLineIsNotHeader(id: string, state: string)
    requires IsToken(id) && IsToken(state)
    ensures !Contains(RecordLine(id, state), HeaderMarker)
  {
    var line := RecordLine(id, state);
    assert forall k :: 0 <= k < |line| && k != |id| ==> !IsWhitespace(line[k]) by {
      forall k | 0 <= k < |line| && k != |id|
        ensures !IsWhitespace(line[k])
      {
        if k < |id| {
          assert line[k] == id[k];
        } else {
          assert line[k] == state[k - |id| - 1];
        }
      }
    }
    var m := HeaderMarker;
    assert m[4] == ' ' && m[7] == ' ';
    forall i | 0 <= i <= |line| - |m|
      ensures !ContainsAt(line, m, i)
    {
      var j := if i + 4 != |id| then i + 4 else i + 7;
      assert !IsWhitespace(line[j]);
      assert line[i..i + |m|][j - i] == line[j];
    }
  }

  /** A device line yields the record of its id and its state. */
  lemma ParseRecordLine(id: string, state: string)
    requires IsToken(id) && IsToken(state)
    ensures ParseLine(RecordLine(id, state)) == Some(NewDevice(id, state))
  {
    TokensOfRecordLine(id, state);
    RecordLineIsNotHeader(id, state);
  }

  /** What `adb devices` prints for the given (id, state) pairs. */
  function Rows(entries: seq<(string, string)>): string {
    if entries == [] then []
    else RecordLine(entries[0].0, entries[0].1) + "\n" + Rows(entries[1..])
  }

  function Listing(entries: seq<(string, string)>): string {
    Header + "\n" + Rows(entries)
  }

  function Records(entries: seq<(string, string)>): (devices: seq<Device>)
    ensures |devices| == |entries|
  {
    if entries == [] then [] else [NewDevice(entries[0].0, entries[0].1)] + Records(entries[1..])
  }

  lemma {:induction false} ParseRows(entries: seq<(string, string)>)
    requires forall k :: 0 <= k < |entries| ==> IsToken(entries[k].0) && IsToken(entries[k].1)
    ensures ParseLines(Lines(Rows(entries))) == Records(entries)
  {
    if entries != [] {
      var line := RecordLine(entries[0].0, entries[0].1);
      var rest := Rows(entries[1..]);
      assert forall i :: 0 <= i < |line| ==> !IsNewline(line[i]) by {
        forall i | 0 <= i < |line|
          ensures !IsNewline(line[i])
        {
          if i < |entries[0].0| {
            assert line[i] == entries[0].0[i];
          } else if i > |entries[0].0| {
            assert line[i] == entries[0].1[i - |entries[0].0| - 1];
          }
        }
      }
      SplitAtSeparator(line, '\n', rest, IsNewline);
      assert Rows(entries) == line + ['\n'] + rest;
      ParseRecordLine(entries[0].0, entries[0].1);
      ParseRows(entries[1..]);
      assert ([line] + Lines(rest))[0] == line && ([line] + Lines(rest))[1..] == Lines(rest);
    }
  }

  /** Helper of the listing lemmas: the header is a single line. */
  lemma HeaderHasNoNewline()
    ensures forall i :: 0 <= i < |Header| ==> !IsNewline(Header[i])
  {
    var a, b := HeaderMarker, " attached";
    assert forall i :: 0 <= i < |a| ==> !IsNewline(a[i]);
    assert forall i :: 0 <= i < |b| ==> !IsNewline(b[i]);
    assert forall i :: 0 <= i < |Header| ==> Header[i] == if i < |a| then a[i] else b[i - |a|];
  }

  /** The lines of a listing: the header, then those of the rows. */
  lemma ListingLines(entries: seq<(string, string)>)
    ensures Lines(Listing(entries)) == [Header] + Lines(Rows(entries))
  {
    HeaderHasNoNewline();
    SplitAtSeparator(Header, '\n', Rows(entries), IsNewline);
    assert Listing(entries) == Header + ['\n'] + Rows(entries);
  }

  /** Parsing the output of `adb devices` gives one record per listed device, in order:
      the header and the empty line after the last newline give none. */
  lemma ParseListing(entries: seq<(string, string)>)
    requires forall k :: 0 <= k < |entries| ==> IsToken(entries[k].0) && IsToken(entries[k].1)
    ensures ParseADBOutput(Listing(entries)) == Records(entries)
  {
    var rows := Lines(Rows(entries));
    ListingLines(entries);
    ParseLinesAppend([Header], rows);
    HeaderLineYieldsNothing();
    ParseRows(entries);
  }

  // ---------------------------------------------------------------------------
  // `dumpsys battery`

  const LevelMarker: string := "level:"

  /** Line k is the first to mention "level:", it has a second ':'-field, and v is that field,
      trimmed, with a percent sign. */
  predicate LevelReport(lines: seq<string>, k: int, v: string) {
    && 0 <= k < |lines| && Contains(lines[k], LevelMarker)
    && (forall j :: 0 <= j < k ==> !Contains(lines[j], LevelMarker))
    && |Split(lines[k], IsColon)| > 1
    && v == Trim(Split(lines[k], IsColon)[1], IsWhitespace) + "%"
  }

  /** A report in the lines after a first line without the marker is a report one line on. */
  lemma LevelReportShifts(lines: seq<string>, k: int, v: string)
    requires |lines| > 0 && !Contains(lines[0], LevelMarker) && LevelReport(lines[1..], k, v)
    ensures LevelReport(lines, k + 1, v)
  {
    forall j | 0 <= j < k + 1
      ensures !Contains(lines[j], LevelMarker)
    {
      if j > 0 {
        assert lines[j] == lines[1..][j - 1];
      }
    }
    assert lines[k + 1] == lines[1..][k];
  }

  /** The first line that mentions "level:" gives its second ':'-field, trimmed, with a
      percent sign; a line naming the marker always has that field, since the marker ends in ':'. */
  function BatteryFromLines(lines: seq<string>): (r: Option<string>)
    ensures r.None? <==> forall k :: 0 <= k < |lines| ==> !Contains(lines[k], LevelMarker)
    ensures r.Some? ==> exists k :: LevelReport(lines, k, r.value)
  {
    if lines == [] then None
    else
      var rest := BatteryFromLines(lines[1..]);
      assert rest.None? <==> forall k :: 1 <= k < |lines| ==> !Contains(lines[k], LevelMarker) by {
        assert forall k :: 1 <= k < |lines| ==> lines[k] == lines[1..][k - 1];
      }
      if Contains(lines[0], LevelMarker) then
        var parts := Split(lines[0], IsColon);
        ContainsChar(lines[0], LevelMarker, 5);
        var c :| 0 <= c < |lines[0]| && lines[0][c] == ':';
        SplitHasSecondPart(lines[0], IsColon, c);
        if |parts| > 1 then
          assert LevelReport(lines, 0, Trim(parts[1], IsWhitespace) + "%");
          Some(Trim(parts[1], IsWhitespace) + "%")
        else rest
      else
        assert rest.Some? ==> exists k :: LevelReport(lines, k, rest.value) by {
          if rest.Some? {
            var k :| LevelReport(lines[1..], k, rest.value);
            LevelReportShifts(lines, k, rest.value);
          }
        }
        rest
  }

  /** `parseBatteryLevel`: nil exactly when no line mentions "level:"; otherwise a text
      ending in "%". */
  function ParseBatteryLevel(output: string): (r: Option<string>)
    ensures r.None? <==> forall k :: 0 <= k < |Lines(output)| ==> !Contains(Lines(output)[k], LevelMarker)
    ensures r.Some? ==> |r.value| > 0 && r.value[|r.value| - 1] == '%'
  {
    BatteryFromLines(Lines(output))
  }
}
