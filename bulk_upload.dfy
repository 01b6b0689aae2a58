/**
 * The bulk-upload page (src/pages/BulkUpload.tsx): a list of chosen files,
 * each with a processing status, and a run that uploads, records and
 * analyses every file that is not yet completed, one after the other.
 *
 * Storage, the database and the analysis function are not modelled; what
 * happened to file number `i` during a run is the parameter `outcomeOf(i)`.
 */
module BulkUpload {
  import Types
  import opened Seqs

  datatype FileState = Pending | Uploading | Analyzing | Completed | Failed

  /** One list entry (`FileStatus`); the browser `File` is reduced to its name. */
  datatype FileEntry = FileEntry(fileName: string, status: FileState, resumeId: Types.Option<string>, error: Types.Option<string>)

  /**
   * What the network steps of one file did: the storage upload failed, the
   * `resumes` insert failed, the analysis failed after the record `resumeId`
   * was created, or everything succeeded for record `resumeId`.
   */
  datatype Outcome =
    | UploadFailed(message: string)
    | InsertFailed(message: string)
    | AnalysisFailed(resumeId: string, message: string)
    | Analyzed(resumeId: string)

  /** The four in-place updates a run makes to an entry, each keeping the other fields (`{ ...item, ... }`). */
  datatype Change = ToUploading | ToAnalyzing(rid: string) | ToCompleted(rid: string) | ToFailed(message: string)

  function Apply(e: FileEntry, c: Change): FileEntry
  {
    match c
    case ToUploading => e.(status := Uploading)
    case ToAnalyzing(rid) => e.(status := Analyzing, resumeId := Types.Some(rid))
    case ToCompleted(rid) => e.(status := Completed, resumeId := Types.Some(rid))
    case ToFailed(m) => e.(status := Failed, error := Types.Some(m))
  }

  function IsPending(e: FileEntry): bool { e.status == Pending }
  function IsCompleted(e: FileEntry): bool { e.status == Completed }
  function NotFailed(e: FileEntry): bool { e.status != Failed }

  function PendingEntry(name: string): FileEntry
  {
    FileEntry(name, Pending, Types.None, Types.None)
  }

  function PendingEntries(names: seq<string>): seq<FileEntry>
  {
    seq(|names|, i requires 0 <= i < |names| => PendingEntry(names[i]))
  }

  /** `prev.filter((_, i) => i !== idx)`: drops the entry at position `idx`, if there is one. */
  function DropIndex(s: seq<FileEntry>, idx: int): (r: seq<FileEntry>)
    ensures 0 <= idx < |s| ==> r == s[..idx] + s[idx + 1..]
    ensures !(0 <= idx < |s|) ==> r == s
    decreases |s|
  {
    if s == [] then []
    else
      var rest := DropIndex(s[1..], idx - 1);
      if idx == 0 then rest
      else
        assert 0 < idx < |s| ==> s[1..][..idx - 1] == s[1..idx] && s[1..][idx..] == s[idx + 1..];
        assert s == [s[0]] + s[1..];
        [s[0]] + rest
  }

  /** The successive versions of an entry that a run writes for one file, by outcome. */
  function Trace(e: FileEntry, o: Outcome): (t: seq<FileEntry>)
    ensures |t| >= 2
  {
    var uploading := Apply(e, ToUploading);
    match o
    case UploadFailed(m) => [uploading, Apply(uploading, ToFailed(m))]
    case InsertFailed(m) => [uploading, Apply(uploading, ToFailed(m))]
    case AnalysisFailed(rid, m) =>
      var analyzing := Apply(uploading, ToAnalyzing(rid));
      [uploading, analyzing, Apply(analyzing, ToFailed(m))]
    case Analyzed(rid) =>
      var analyzing := Apply(uploading, ToAnalyzing(rid));
      [uploading, analyzing, Apply(analyzing, ToCompleted(rid))]
  }

  /** The entry a run leaves behind for a file that was not already completed: the last version written. */
  function Settle(e: FileEntry, o: Outcome): FileEntry
  {
    var t := Trace(e, o);
    t[|t| - 1]
  }

  /** The status steps a run may take: uploading, analyzing and completed in that order, failed from either working state. */
  predicate Advances(a: FileState, b: FileState)
  {
    (a == Uploading && b == Analyzing) || (a == Analyzing && b == Completed) ||
    ((a == Uploading || a == Analyzing) && b == Failed)
  }

  /**
   * An entry first becomes uploading and then only advances; every version
   * from analyzing on carries the new record's id; the file name never
   * changes; the run ends completed exactly when the analysis succeeded.
   */
  lemma TraceProgression(e: FileEntry, o: Outcome)
    ensures var t := Trace(e, o);
      && t[0].status == Uploading
      && (forall k :: 0 < k < |t| ==> Advances(t[k - 1].status, t[k].status))
      && (forall k :: 0 <= k < |t| && (t[k].status == Analyzing || t[k].status == Completed) ==>
            t[k].resumeId.Some? && (o.AnalysisFailed? || o.Analyzed?) && t[k].resumeId.value == o.resumeId)
      && (forall k :: 0 <= k < |t| ==> t[k].fileName == e.fileName)
      && (Settle(e, o).status == Completed <==> o.Analyzed?)
      && (Settle(e, o).status == Failed <==> !o.Analyzed?)
  {
  }

  /** Entry `i` after a run: completed entries are skipped, all others settled by their outcome. */
  function AfterRun(files: seq<FileEntry>, outcomeOf: nat -> Outcome): (r: seq<FileEntry>)
    ensures |r| == |files|
  {
    seq(|files|, i requires 0 <= i < |files| =>
      if files[i].status == Completed then files[i] else Settle(files[i], outcomeOf(i)))
  }

  /** `files.filter(f => f.status === "pending").length`. */
  function PendingCount(files: seq<FileEntry>): (n: nat)
    ensures n <= |files|
  {
    Count(files, IsPending)
  }

  /** `completedFiles`, the entries the "View results" notice counts. */
  function CompletedFiles(files: seq<FileEntry>): (done: seq<FileEntry>)
    ensures |done| <= |files|
    ensures forall i :: 0 <= i < |done| ==> done[i] in files && done[i].status == Completed
  {
    Filter(files, IsCompleted)
  }

  /** The Analyze button is disabled while a run is in progress or when nothing is pending. */
  predicate AnalyzeDisabled(processing: bool, files: seq<FileEntry>)
  {
    processing || PendingCount(files) == 0
  }

  /** Only a pending entry shows the remove button. */
  predicate CanRemove(e: FileEntry)
  {
    e.status == Pending
  }

  /** The "N resume(s) analyzed" notice shows once a run is over and something is completed. */
  predicate ShowsResultsNotice(processing: bool, files: seq<FileEntry>)
  {
    |CompletedFiles(files)| > 0 && !processing
  }

  /** The guard at the top of `processAll`: a signed-in user with a profile and a non-empty list. */
  predicate Startable(signedIn: bool, hasProfile: bool, files: seq<FileEntry>)
  {
    signedIn && hasProfile && |files| > 0
  }

  /** The count the page computes for its toast: the entries not failed in the list as it was when the run STARTED. */
  function ReportedCount(snapshot: seq<FileEntry>): (n: nat)
    ensures n <= |snapshot|
  {
    Count(snapshot, NotFailed)
  }

  /** The count the toast is meant to show: the entries not failed once the run is over. */
  function SucceededCount(after: seq<FileEntry>): nat
  {
    Count(after, NotFailed)
  }

  /** The toast is raised only for a positive count. */
  function CompletionToast(n: nat): (t: Types.Option<nat>)
    ensures t.Some? <==> n > 0
    ensures t.Some? ==> t.value == n
  {
    if n > 0 then Types.Some(n) else Types.None
  }

  class BulkUploadPage {
    var files: seq<FileEntry>
    var processing: bool

    constructor()
      ensures files == [] && !processing
    {
      files := [];
      processing := false;
    }

    /** `addFiles`: the new files join the end of the list as pending entries. */
    method AddFiles(names: seq<string>)
      modifies this
      ensures files == old(files) + PendingEntries(names)
      ensures processing == old(processing)
    {
      files := files + PendingEntries(names);
    }

    /** `removeFile`: drops exactly the entry at `idx`; any other index changes nothing. */
    method RemoveFile(idx: int)
      modifies this
      ensures files == DropIndex(old(files), idx)
      ensures processing == old(processing)
    {
      files := DropIndex(files, idx);
    }

    /** `prev.map((item, idx) => idx === i ? ... : item)`: one entry changes, the others stay. */
    method UpdateAt(i: int, c: Change)
      modifies this
      ensures 0 <= i < |old(files)| ==> files == old(files)[i := Apply(old(files)[i], c)]
      ensures !(0 <= i < |old(files)|) ==> files == old(files)
      ensures processing == old(processing)
    {
      if 0 <= i < |files| {
        files := files[i := Apply(files[i], c)];
      }
    }

    /** The body of the `try`/`catch` for file `i`: uploading, then analyzing once the record exists, then completed or failed. */
    method ProcessEntry(i: nat, o: Outcome) returns (ghost written: seq<FileEntry>)
      requires i < |files|
      modifies this
      ensures written == Trace(old(files)[i], o)
      ensures files == old(files)[i := Settle(old(files)[i], o)]
      ensures processing == old(processing)
    {
      UpdateAt(i, ToUploading);
      written := [files[i]];
      match o {
        case UploadFailed(m) =>
          UpdateAt(i, ToFailed(m));
        case InsertFailed(m) =>
          UpdateAt(i, ToFailed(m));
        case AnalysisFailed(rid, m) =>
          UpdateAt(i, ToAnalyzing(rid));
          written := written + [files[i]];
          UpdateAt(i, ToFailed(m));
        case Analyzed(rid) =>
          UpdateAt(i, ToAnalyzing(rid));
          written := written + [files[i]];
          UpdateAt(i, ToCompleted(rid));
      }
      written := written + [files[i]];
    }

    /**
     * `processAll`: without a user, a profile or any file nothing happens.
     * Otherwise every entry that was not completed when the run started is
     * settled by its outcome and `processing` is off again at the end. The
     * toast counts the entries that were not failed in the list as it was
     * when the run started (see `StaleCountMisreports`).
     */
    method ProcessAll(signedIn: bool, hasProfile: bool, outcomeOf: nat -> Outcome) returns (toast: Types.Option<nat>)
      modifies this
      ensures !Startable(signedIn, hasProfile, old(files)) ==>
        files == old(files) && processing == old(processing) && toast == Types.None
      ensures Startable(signedIn, hasProfile, old(files)) ==>
        files == AfterRun(old(files), outcomeOf) && !processing &&
        toast == CompletionToast(ReportedCount(old(files)))
    {
      if !signedIn || !hasProfile || |files| == 0 {
        return Types.None;
      }
      processing := true;
      var snapshot := files;
      var i := 0;
      while i < |snapshot|
        invariant 0 <= i <= |snapshot| == |files|
        invariant forall k :: 0 <= k < i ==> files[k] == AfterRun(snapshot, outcomeOf)[k]
        invariant forall k :: i <= k < |snapshot| ==> files[k] == snapshot[k]
      {
        if snapshot[i].status != Completed {
          ghost var written := ProcessEntry(i, outcomeOf(i));
        }
        i := i + 1;
      }
      assert files == AfterRun(snapshot, outcomeOf);
      processing := false;
      toast := CompletionToast(ReportedCount(snapshot));
    }
  }

  /** What a run does to one entry: completed entries stay as they are; the others end completed exactly when the analysis succeeded. */
  lemma SettleFacts(files: seq<FileEntry>, outcomeOf: nat -> Outcome, i: nat)
    requires i < |files|
    ensures var a := AfterRun(files, outcomeOf)[i];
      && a.fileName == files[i].fileName
      && (a.status == Completed || a.status == Failed)
      && (files[i].status == Completed ==> a == files[i])
      && (files[i].status != Completed ==>
            (a.status == Completed <==> outcomeOf(i).Analyzed?)
            && (outcomeOf(i).UploadFailed? || outcomeOf(i).InsertFailed? ==>
                  a.resumeId == files[i].resumeId && a.error == Types.Some(outcomeOf(i).message))
            && (outcomeOf(i).AnalysisFailed? ==>
                  a.resumeId == Types.Some(outcomeOf(i).resumeId) && a.error == Types.Some(outcomeOf(i).message))
            && (outcomeOf(i).Analyzed? ==>
                  a.resumeId == Types.Some(outcomeOf(i).resumeId) && a.error == files[i].error))
  {
    var a := AfterRun(files, outcomeOf)[i];
    assert a == if files[i].status == Completed then files[i] else Settle(files[i], outcomeOf(i));
  }

  /**
   * After a run nothing is pending any more, so the Analyze button stays
   * disabled: failed entries are retried only when new files are added
   * and the next run starts. Entries already completed are untouched.
   */
  lemma {:induction false} RunLeavesNothingPending(files: seq<FileEntry>, outcomeOf: nat -> Outcome)
    ensures PendingCount(AfterRun(files, outcomeOf)) == 0
    ensures AnalyzeDisabled(false, AfterRun(files, outcomeOf))
    ensures |CompletedFiles(AfterRun(files, outcomeOf))| >= |CompletedFiles(files)|
  {
    var after := AfterRun(files, outcomeOf);
    forall i | 0 <= i < |after| ensures !IsPending(after[i]) {
      SettleFacts(files, outcomeOf, i);
    }
    FilterNone(after, IsPending);
    CompletedStayCompleted(files, outcomeOf, 0);
  }

  /** Entries completed before a run are completed after it, counted from position `from` on. */
  lemma {:induction false} CompletedStayCompleted(files: seq<FileEntry>, outcomeOf: nat -> Outcome, from: nat)
    requires from <= |files|
    ensures Count(AfterRun(files, outcomeOf)[from..], IsCompleted) >= Count(files[from..], IsCompleted)
    decreases |files| - from
  {
    var after := AfterRun(files, outcomeOf);
    if from < |files| {
      CompletedStayCompleted(files, outcomeOf, from + 1);
      SettleFacts(files, outcomeOf, from);
      assert files[from..] == [files[from]] + files[from + 1..];
      assert after[from..] == [after[from]] + after[from + 1..];
      FilterConcat([files[from]], files[from + 1..], IsCompleted);
      FilterConcat([after[from]], after[from + 1..], IsCompleted);
    }
  }

  /**
   * Adding files to a list a run has settled enables the Analyze button
   * again, with exactly the new files pending.
   */
  lemma AddingFilesReenablesAnalyze(files: seq<FileEntry>, outcomeOf: nat -> Outcome, names: seq<string>)
    requires |names| > 0
    ensures PendingCount(AfterRun(files, outcomeOf) + PendingEntries(names)) == |names|
    ensures !AnalyzeDisabled(false, AfterRun(files, outcomeOf) + PendingEntries(names))
  {
    var after := AfterRun(files, outcomeOf);
    RunLeavesNothingPending(files, outcomeOf);
    FilterConcat(after, PendingEntries(names), IsPending);
    FilterAll(PendingEntries(names), IsPending);
  }

  /** An enabled Analyze button means a non-empty list, so a signed-in user with a profile always gets a run. */
  lemma EnabledButtonStarts(processing: bool, files: seq<FileEntry>)
    requires !AnalyzeDisabled(processing, files)
    ensures !processing && |files| > 0
    ensures Startable(true, true, files)
  {
  }

  /** Removing an entry lowers a count by one exactly when the entry was counted. */
  lemma DropIndexCounts(files: seq<FileEntry>, idx: int, p: FileEntry -> bool)
    requires 0 <= idx < |files|
    ensures Count(DropIndex(files, idx), p) + (if p(files[idx]) then 1 else 0) == Count(files, p)
  {
    CountWithout(files, idx, p);
  }

  /** Removing a pending entry (the only kind with a remove button) leaves one pending file fewer. */
  lemma RemovePendingEntry(files: seq<FileEntry>, idx: int)
    requires 0 <= idx < |files| && CanRemove(files[idx])
    ensures PendingCount(DropIndex(files, idx)) == PendingCount(files) - 1
    ensures |CompletedFiles(DropIndex(files, idx))| == |CompletedFiles(files)|
  {
    DropIndexCounts(files, idx, IsPending);
    DropIndexCounts(files, idx, IsCompleted);
  }

  /** After a run the intended toast count is the number of completed entries, the same number the results notice shows. */
  lemma {:induction false} SucceededCountIsCompleted(files: seq<FileEntry>, outcomeOf: nat -> Outcome)
    ensures SucceededCount(AfterRun(files, outcomeOf)) == |CompletedFiles(AfterRun(files, outcomeOf))|
    ensures SucceededCount(AfterRun(files, outcomeOf)) >= |CompletedFiles(files)|
  {
    var after := AfterRun(files, outcomeOf);
    forall i | 0 <= i < |after| ensures NotFailed(after[i]) == IsCompleted(after[i]) {
      SettleFacts(files, outcomeOf, i);
    }
    FilterAgree(after, NotFailed, IsCompleted);
    RunLeavesNothingPending(files, outcomeOf);
  }

  function AlwaysFails(i: nat): Outcome { UploadFailed("upload error") }
  function AlwaysSucceeds(i: nat): Outcome { Analyzed("r1") }

  /**
   * The toast `ProcessAll` returns is computed from the list captured when
   * the run started: one pending file whose upload fails is reported as
   * one success although nothing succeeded, and one previously failed file
   * that now succeeds raises no toast at all.
   */
  lemma StaleCountMisreports()
    ensures var before := [PendingEntry("cv.pdf")];
      && CompletionToast(ReportedCount(before)) == Types.Some(1)
      && SucceededCount(AfterRun(before, AlwaysFails)) == 0
      && |CompletedFiles(AfterRun(before, AlwaysFails))| == 0
    ensures var before := [FileEntry("cv.pdf", Failed, Types.None, Types.Some("upload error"))];
      && CompletionToast(ReportedCount(before)) == Types.None
      && SucceededCount(AfterRun(before, AlwaysSucceeds)) == 1
      && |CompletedFiles(AfterRun(before, AlwaysSucceeds))| == 1
  {
    var b1 := [PendingEntry("cv.pdf")];
    var a1 := AfterRun(b1, AlwaysFails);
    assert Filter(b1[1..], NotFailed) == [];
    assert a1[0] == Settle(b1[0], AlwaysFails(0));
    assert Filter(a1[1..], NotFailed) == [];
    var b2 := [FileEntry("cv.pdf", Failed, Types.None, Types.Some("upload error"))];
    var a2 := AfterRun(b2, AlwaysSucceeds);
    assert Filter(b2[1..], NotFailed) == [];
    assert a2[0] == Settle(b2[0], AlwaysSucceeds(0));
    assert Filter(a2[1..], NotFailed) == [];
  }
}
