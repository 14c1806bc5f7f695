/** The app's side of the XPC connection (XPCLibrary/Sources/XPCLibrary/ADBServiceClient.swift):
    how each completion handler's two arguments become a result or a thrown error, and how
    the folder dictionaries become FolderItems. Whether a service proxy is available is an
    input. */
module Client {
  import opened Wrappers
  import opened Wire
  import opened FolderItems
  import opened ServiceErrors
  import opened AdbUtilities
  import SI = ServiceImplementation

  /** What the client throws: one of its own errors, or the service's error passed through
      as it came, of which it sees the description. */
  datatype ClientError = Service(error: ADBServiceError) | Remote(description: string)

  /** `localizedDescription` of a thrown error. */
  function Message(e: ClientError): string {
    match e
    case Service(s) => ServiceErrors.ErrorDescription(s).value
    case Remote(d) => d
  }

  const NoDataReturned: string := "No data " + "returned"
  const NoCountReturned: string := "No count " + "returned"

  /** `listDevices` and `getDeviceDetails`: no service is `serviceUnavailable`; an error wins
      over a value and is rewrapped as `xpcError` of its description; neither gives
      `xpcError("No data returned")`. */
  function WrappedReply<T>(connected: bool, reply: Reply<T>): (r: Result<T, ClientError>)
    ensures !connected ==> r == Failure(Service(ServiceUnavailable))
    ensures connected && reply.error.Some? ==> r == Failure(Service(XpcError(reply.error.value)))
    ensures connected && reply.error.None? ==> r == if reply.value.Some? then Success(reply.value.value) else Failure(Service(XpcError(NoDataReturned)))
  {
    if !connected then Failure(Service(ServiceUnavailable))
    else if reply.error.Some? then Failure(Service(XpcError(reply.error.value)))
    else if reply.value.Some? then Success(reply.value.value)
    else Failure(Service(XpcError(NoDataReturned)))
  }

  /** `startPhotoSync` and the error path of `listFolderContents`: the same, except that the
      service's error is thrown as it came. */
  function PassedReply<T>(connected: bool, reply: Reply<T>, missing: string): (r: Result<T, ClientError>)
    ensures !connected ==> r == Failure(Service(ServiceUnavailable))
    ensures connected && reply.error.Some? ==> r == Failure(Remote(reply.error.value))
    ensures connected && reply.error.None? ==> r == if reply.value.Some? then Success(reply.value.value) else Failure(Service(XpcError(missing)))
  {
    if !connected then Failure(Service(ServiceUnavailable))
    else if reply.error.Some? then Failure(Remote(reply.error.value))
    else if reply.value.Some? then Success(reply.value.value)
    else Failure(Service(XpcError(missing)))
  }

  /** Rewrapped or passed through, the service's message reaches the caller unchanged, and the
      two mappings agree on everything else. */
  lemma MessagePreserved<T>(reply: Reply<T>, missing: string)
    ensures reply.error.Some? ==>
      Message(WrappedReply(true, reply).error) == reply.error.value
      && Message(PassedReply(true, reply, missing).error) == reply.error.value
    ensures reply.error.None? && reply.value.Some? ==>
      WrappedReply(true, reply) == PassedReply(true, reply, missing) == Success(reply.value.value)
  {
  }

  /** `listDevices`: the service's devices when it sent them and no error. */
  function ListDevices<T>(connected: bool, reply: Reply<T>): (r: Result<T, ClientError>)
    ensures r.Success? <==> connected && reply.error.None? && reply.value.Some?
    ensures r.Success? ==> r.value == reply.value.value
    ensures connected && reply.error.Some? ==> r.Failure? && Message(r.error) == reply.error.value
  {
    WrappedReply(connected, reply)
  }

  /** `startPhotoSync`: the service's count when it sent one and no error; the service's
      error text reaches the app as it came. */
  function StartPhotoSync(connected: bool, reply: Reply<int>): (r: Result<int, ClientError>)
    ensures r.Success? <==> connected && reply.error.None? && reply.value.Some?
    ensures r.Success? ==> r.value == reply.value.value
    ensures connected && reply.error.Some? ==> r.Failure? && Message(r.error) == reply.error.value
  {
    PassedReply(connected, reply, NoCountReturned)
  }

  // ---------------------------------------------------------------------------
  // Folder dictionaries

  /** One folder dictionary: nothing unless "type" and "name" are strings; a "folder" type
      gives a folder with the integer "photoCount", 0 when there is none; any other type a
      photo. */
  function DecodeItem(dict: Dictionary): (r: Option<FolderItem>)
    ensures r.None? <==> "type" !in dict || !dict["type"].Str? || "name" !in dict || !dict["name"].Str?
    ensures r.Some? ==> Name(r.value) == dict["name"].s && (IsFolder(r.value) <==> dict["type"].s == "folder")
    ensures r.Some? && r.value.Folder? ==>
      r.value.photoCount == if "photoCount" in dict && dict["photoCount"].Int? then dict["photoCount"].i else 0
  {
    if "type" !in dict || !dict["type"].Str? || "name" !in dict || !dict["name"].Str? then None
    else
      var name := dict["name"].s;
      if dict["type"].s == "folder" then
        Some(Folder(name, if "photoCount" in dict && dict["photoCount"].Int? then dict["photoCount"].i else 0))
      else Some(Photo(name))
  }

  /** What one dictionary contributes to `compactMap`. */
  function Decoded(dict: Dictionary): seq<FolderItem> {
    if DecodeItem(dict).Some? then [DecodeItem(dict).value] else []
  }

  /** `compactMap` of DecodeItem. */
  function DecodeItems(dicts: seq<Dictionary>): (items: seq<FolderItem>)
    ensures |items| <= |dicts|
    ensures (forall k :: 0 <= k < |dicts| ==> DecodeItem(dicts[k]).Some?) ==> |items| == |dicts|
    ensures forall k :: 0 <= k < |dicts| && DecodeItem(dicts[k]).Some? ==> DecodeItem(dicts[k]).value in items
  {
    if dicts == [] then []
    else
      var rest := DecodeItems(dicts[1..]);
      assert forall k :: 1 <= k < |dicts| && DecodeItem(dicts[k]).Some? ==> DecodeItem(dicts[k]).value in rest by {
        forall k | 1 <= k < |dicts| && DecodeItem(dicts[k]).Some?
          ensures DecodeItem(dicts[k]).value in rest
        {
          assert dicts[1..][k - 1] == dicts[k];
        }
      }
      Decoded(dicts[0]) + rest
  }

  /** Decoding keeps the order: the items of consecutive runs of dictionaries follow each other. */
  lemma {:induction false} DecodeItemsAppend(a: seq<Dictionary>, b: seq<Dictionary>)
    ensures DecodeItems(a + b) == DecodeItems(a) + DecodeItems(b)
  {
    if a == [] {
      assert a + b == b;
    } else {
      assert (a + b)[0] == a[0] && (a + b)[1..] == a[1..] + b;
      DecodeItemsAppend(a[1..], b);
    }
  }

  /** Every decoded item comes from a dictionary that names it. */
  lemma {:induction false} DecodedItemsComeFromDictionaries(dicts: seq<Dictionary>)
    ensures forall x :: x in DecodeItems(dicts) ==> exists k :: 0 <= k < |dicts| && DecodeItem(dicts[k]) == Some(x)
  {
    if dicts != [] {
      DecodedItemsComeFromDictionaries(dicts[1..]);
      forall x | x in DecodeItems(dicts)
        ensures exists k :: 0 <= k < |dicts| && DecodeItem(dicts[k]) == Some(x)
      {
        if x !in DecodeItems(dicts[1..]) {
          assert DecodeItem(dicts[0]) == Some(x);
        } else {
          var k :| 0 <= k < |dicts[1..]| && DecodeItem(dicts[1..][k]) == Some(x);
          assert dicts[k + 1] == dicts[1..][k];
        }
      }
    }
  }

  function Folders(names: seq<string>): (items: seq<FolderItem>)
    ensures |items| == |names|
    ensures forall k :: 0 <= k < |names| ==> items[k] == Folder(names[k], 0)
  {
    if names == [] then [] else [Folder(names[0], 0)] + Folders(names[1..])
  }

  /** The dictionaries the live service sends for a folder listing decode to folders with a
      photo count of 0, one per name, in the same order. */
  lemma {:induction false} DecodeFolderEntries(names: seq<string>)
    ensures DecodeItems(SI.FolderEntries(names)) == Folders(names)
  {
    if names != [] {
      var e := SI.FolderEntries(names);
      assert e[1..] == SI.FolderEntries(names[1..]);
      assert DecodeItem(e[0]) == Some(Folder(names[0], 0));
      DecodeFolderEntries(names[1..]);
    }
  }

  /** `listFolderContents` */
  function ListFolderContents(connected: bool, reply: Reply<seq<Dictionary>>): (r: Result<seq<FolderItem>, ClientError>)
    ensures r.Success? <==> connected && reply.error.None? && reply.value.Some?
    ensures r.Success? ==> r.value == DecodeItems(reply.value.value)
    ensures r.Failure? ==> r.error == PassedReply(connected, reply, NoDataReturned).error
  {
    match PassedReply(connected, reply, NoDataReturned)
    case Success(items) => Success(DecodeItems(items))
    case Failure(e) => Failure(e)
  }

  /** `getPhotoSyncProgress`: the service's snapshot, or (0, 0, "") without a service. */
  function GetPhotoSyncProgress(service: Option<Progress>): (p: Progress)
    ensures service.None? ==> p == Progress(0, 0, [])
    ensures service.Some? ==> p == service.value
  {
    service.GetOr(Progress(0, 0, []))
  }

  // ---------------------------------------------------------------------------
  // End to end with the live service

  /** A sync's outcome reaches the app intact: its count, or an error whose message is the
      service error's description. */
  lemma SyncOutcomeReachesApp(r: Result<int, Fault>)
    ensures r.Success? ==> StartPhotoSync(true, SI.ToReply(r)) == Success(r.value)
    ensures r.Failure? ==>
      StartPhotoSync(true, SI.ToReply(r)).Failure? && Message(StartPhotoSync(true, SI.ToReply(r)).error) == Description(r.error)
  {
  }

  /** A successful folder listing of the service reaches the app as folders of those names,
      in the service's order, with a photo count of 0. */
  lemma FolderListingReachesApp(names: seq<string>)
    ensures ListFolderContents(true, SI.ToReply<seq<Dictionary>>(Success(SI.FolderEntries(names)))) == Success(Folders(names))
  {
    DecodeFolderEntries(names);
  }
}
