/** The photo-sync loop of `performPhotoSync`, the same in both revisions of the service, as
    a function of its inputs: the listed files in order, the names already at the destination,
    and what pulling each file would end in. The methods of the service classes are proved
    to compute it; the lemmas below say what it computes. */
module SyncRun {
  import opened Wrappers
  import opened AdbUtilities

  /** The loop's variables after some of the files: `processedCount`, `actuallySyncedCount`,
      the names at the destination, the files whose pull was started, the error that ended
      the loop if one did, and the current-file text of the last progress update. */
  datatype Tally = Tally(
    processed: nat,
    synced: nat,
    present: set<string>,
    attempted: seq<string>,
    failure: Option<Fault>,
    note: string)

  const SkippedPrefix: string := "Skipped: "
  const SyncingPrefix: string := "Syncing: "
  const CompletedPrefix: string := "Completed: "

  /** The loop's variables before the first file: nothing counted, pulled or failed yet. */
  function Start(existing: set<string>): (t: Tally)
    ensures t.processed == 0 && t.synced == 0 && t.present == existing
    ensures t.attempted == [] && t.failure.None?
  {
    Tally(0, 0, existing, [], None, [])
  }

  /** One pass of the loop body: count the file, skip it if it is at the destination,
      otherwise pull it; a pulled file is at the destination from then on. */
  function Step(t: Tally, f: string, pull: string -> Option<Fault>): (u: Tally)
    ensures u.processed == t.processed + 1
    ensures f in t.present ==> u.synced == t.synced && u.attempted == t.attempted && u.present == t.present
    ensures f !in t.present ==> u.attempted == t.attempted + [f]
  {
    if f in t.present then
      Tally(t.processed + 1, t.synced, t.present, t.attempted, t.failure, SkippedPrefix + f)
    else
      match pull(f)
      case Some(e) => Tally(t.processed + 1, t.synced, t.present, t.attempted + [f], Some(e), SyncingPrefix + f)
      case None => Tally(t.processed + 1, t.synced + 1, t.present + {f}, t.attempted + [f], None, CompletedPrefix + f)
  }

  /** The loop from tally t over the remaining files; it stops at the first failure. */
  function Finish(t: Tally, files: seq<string>, pull: string -> Option<Fault>): (u: Tally)
    ensures t.failure.Some? ==> u == t
    ensures t.processed <= u.processed <= t.processed + |files|
    ensures t.synced <= u.synced && u.synced - t.synced <= u.processed - t.processed
    ensures t.present <= u.present
    decreases |files|
  {
    if files == [] || t.failure.Some? then t
    else Finish(Step(t, files[0], pull), files[1..], pull)
  }

  /** The whole loop: at most one count per file, the names at the destination kept. */
  function Run(files: seq<string>, existing: set<string>, pull: string -> Option<Fault>): (t: Tally)
    ensures t.synced <= t.processed <= |files|
    ensures existing <= t.present
  {
    Finish(Start(existing), files, pull)
  }

  // ---------------------------------------------------------------------------
  // Reference definitions

  /** The files a run has to pull: those not at the destination, each once. */
  function ToPull(files: seq<string>, present: set<string>): (r: seq<string>)
    ensures |r| <= |files|
    ensures forall g :: g in r ==> g in files && g !in present
  {
    if files == [] then []
    else if files[0] in present then ToPull(files[1..], present)
    else [files[0]] + ToPull(files[1..], present + {files[0]})
  }

  /** The pulls started from the list: up to and including the first that fails. */
  function UpToFailure(pending: seq<string>, pull: string -> Option<Fault>): (r: seq<string>)
    ensures |r| <= |pending| && r == pending[..|r|]
    ensures forall k :: 0 <= k < |r| - 1 ==> pull(r[k]).None?
  {
    if pending == [] then []
    else if pull(pending[0]).Some? then [pending[0]]
    else [pending[0]] + UpToFailure(pending[1..], pull)
  }

  function FirstFailure(pending: seq<string>, pull: string -> Option<Fault>): (r: Option<Fault>)
    ensures r.None? <==> forall k :: 0 <= k < |pending| ==> pull(pending[k]).None?
  {
    if pending == [] then None
    else if pull(pending[0]).Some? then pull(pending[0])
    else
      assert forall k :: 1 <= k < |pending| ==> pending[k] == pending[1..][k - 1];
      FirstFailure(pending[1..], pull)
  }

  /** The pulls stop at the first failure, whose error is the failure. */
  lemma {:induction false} UpToFailureEnds(pending: seq<string>, pull: string -> Option<Fault>)
    ensures FirstFailure(pending, pull).None? ==> UpToFailure(pending, pull) == pending
    ensures FirstFailure(pending, pull).Some? ==>
      var r := UpToFailure(pending, pull);
      r != [] && pull(r[|r| - 1]) == FirstFailure(pending, pull)
  {
    if pending != [] && pull(pending[0]).None? {
      UpToFailureEnds(pending[1..], pull);
      assert [pending[0]] + pending[1..] == pending;
    }
  }

  // ---------------------------------------------------------------------------
  // What the loop computes

  /** From a tally without failure, the loop attempts exactly the files still to pull up to
      the first failing one, and ends with that failure if there is one. */
  lemma {:induction false} FinishPulls(t: Tally, files: seq<string>, pull: string -> Option<Fault>)
    requires t.failure.None?
    decreases |files|
    ensures var r := Finish(t, files, pull);
      && r.attempted == t.attempted + UpToFailure(ToPull(files, t.present), pull)
      && r.failure == FirstFailure(ToPull(files, t.present), pull)
  {
    if files != [] {
      var f := files[0];
      var u := Step(t, f, pull);
      if f in t.present {
        FinishPulls(u, files[1..], pull);
      } else {
        var rest := ToPull(files[1..], t.present + {f});
        assert ToPull(files, t.present) == [f] + rest;
        assert ([f] + rest)[0] == f && ([f] + rest)[1..] == rest;
        if pull(f).None? {
          FinishPulls(u, files[1..], pull);
        } else {
          assert Finish(u, files[1..], pull) == u;
        }
      }
    }
  }

  /** Each pass counts a file; a synced file is one whose pull was started and succeeded. */
  lemma {:induction false} FinishCounts(t: Tally, files: seq<string>, pull: string -> Option<Fault>)
    requires t.failure.None?
    decreases |files|
    ensures var r := Finish(t, files, pull);
      && |t.attempted| <= |r.attempted|
      && r.synced + (if r.failure.Some? then 1 else 0) == t.synced + |r.attempted| - |t.attempted|
      && t.processed <= r.processed <= t.processed + |files|
      && r.synced + t.processed <= t.synced + r.processed
      && (r.failure.None? ==> r.processed == t.processed + |files|)
  {
    if files != [] {
      var u := Step(t, files[0], pull);
      if u.failure.None? {
        FinishCounts(u, files[1..], pull);
      } else {
        assert Finish(u, files[1..], pull) == u;
      }
    }
  }

  /** Together: the attempted files, the failure and the counts against the reference. */
  lemma FinishAgainstReference(t: Tally, files: seq<string>, pull: string -> Option<Fault>)
    requires t.failure.None?
    ensures var r := Finish(t, files, pull);
      var pulled := UpToFailure(ToPull(files, t.present), pull);
      && r.attempted == t.attempted + pulled
      && r.failure == FirstFailure(ToPull(files, t.present), pull)
      && r.synced + (if r.failure.Some? then 1 else 0) == t.synced + |pulled|
      && t.processed <= r.processed <= t.processed + |files|
      && r.synced + t.processed <= t.synced + r.processed
      && (r.failure.None? ==> r.processed == t.processed + |files|)
  {
    FinishPulls(t, files, pull);
    FinishCounts(t, files, pull);
  }

  /** The run's guarantees (live service, lines 363-405; earlier revision, lines 302-345):
      at most one synced file per processed one; a run without failure processes every
      file and pulls exactly the missing ones; a failed run ends at its first failing pull,
      which is not counted; a file already at the destination is never pulled. */
  lemma RunGuarantees(files: seq<string>, existing: set<string>, pull: string -> Option<Fault>)
    ensures var r := Run(files, existing, pull);
      && r.synced <= r.processed <= |files|
      && (forall g :: g in r.attempted ==> g !in existing)
      && (r.failure.None? <==> forall g :: g in ToPull(files, existing) ==> pull(g).None?)
      && (r.failure.None? ==> r.processed == |files| && r.attempted == ToPull(files, existing)
                              && r.synced == |ToPull(files, existing)|)
      && (r.failure.Some? ==> r.attempted != [] && r.synced == |r.attempted| - 1
                              && pull(r.attempted[|r.attempted| - 1]) == r.failure
                              && forall k :: 0 <= k < |r.attempted| - 1 ==> pull(r.attempted[k]).None?)
  {
    RunBounds(files, existing, pull);
    RunWithoutFailure(files, existing, pull);
    RunWithFailure(files, existing, pull);
  }

  lemma RunBounds(files: seq<string>, existing: set<string>, pull: string -> Option<Fault>)
    ensures var r := Run(files, existing, pull);
      && r.synced <= r.processed <= |files|
      && (forall g :: g in r.attempted ==> g !in existing)
  {
    var pending := ToPull(files, existing);
    FinishAgainstReference(Start(existing), files, pull);
    var r := Run(files, existing, pull);
    assert r.attempted == UpToFailure(pending, pull);
    assert forall g :: g in r.attempted ==> g in pending;
  }

  lemma RunWithoutFailure(files: seq<string>, existing: set<string>, pull: string -> Option<Fault>)
    ensures var r := Run(files, existing, pull);
      && (r.failure.None? <==> forall g :: g in ToPull(files, existing) ==> pull(g).None?)
      && (r.failure.None? ==> r.processed == |files| && r.attempted == ToPull(files, existing)
                              && r.synced == |ToPull(files, existing)|)
  {
    var pending := ToPull(files, existing);
    FinishAgainstReference(Start(existing), files, pull);
    UpToFailureEnds(pending, pull);
    assert (forall g :: g in pending ==> pull(g).None?) <==> (forall k :: 0 <= k < |pending| ==> pull(pending[k]).None?);
  }

  lemma RunWithFailure(files: seq<string>, existing: set<string>, pull: string -> Option<Fault>)
    ensures var r := Run(files, existing, pull);
      r.failure.Some? ==> r.attempted != [] && r.synced == |r.attempted| - 1
                          && pull(r.attempted[|r.attempted| - 1]) == r.failure
                          && forall k :: 0 <= k < |r.attempted| - 1 ==> pull(r.attempted[k]).None?
  {
    var pending := ToPull(files, existing);
    FinishAgainstReference(Start(existing), files, pull);
    UpToFailureEnds(pending, pull);
  }

  /** When the names are distinct, as after deduplication, the files to pull are exactly the
      listed ones not already at the destination. */
  lemma {:induction false} ToPullOfDistinct(files: seq<string>, present: set<string>)
    requires forall i, j :: 0 <= i < j < |files| ==> files[i] != files[j]
    ensures forall g :: g in ToPull(files, present) <==> g in files && g !in present
  {
    if files != [] {
      var f := files[0];
      var present' := if f in present then present else present + {f};
      assert forall i, j :: 0 <= i < j < |files[1..]| ==> files[1..][i] != files[1..][j] by {
        forall i, j | 0 <= i < j < |files[1..]|
          ensures files[1..][i] != files[1..][j]
        {
          assert files[1..][i] == files[i + 1] && files[1..][j] == files[j + 1];
        }
      }
      ToPullOfDistinct(files[1..], present');
      assert f !in files[1..] by {
        forall k | 0 <= k < |files[1..]|
          ensures files[1..][k] != f
        {
          assert files[1..][k] == files[k + 1];
        }
      }
      assert files == [f] + files[1..];
    }
  }

  /** A run that ends without failure leaves a text naming the last file, skipped or completed. */
  lemma {:induction false} FinishNote(t: Tally, files: seq<string>, pull: string -> Option<Fault>)
    requires t.failure.None? && files != []
    decreases |files|
    ensures var r := Finish(t, files, pull);
      r.failure.None? ==>
        r.note == SkippedPrefix + files[|files| - 1] || r.note == CompletedPrefix + files[|files| - 1]
  {
    var u := Step(t, files[0], pull);
    if |files| > 1 && u.failure.None? {
      FinishNote(u, files[1..], pull);
      assert files[1..][|files[1..]| - 1] == files[|files| - 1];
    }
  }
}
