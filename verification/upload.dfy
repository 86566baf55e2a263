/** The document-upload view: the list of chosen files, the simulated
    verification that marks one file verified with a credit count, removal,
    and the four-item progress checklist derived from the list. */
module Upload {
  import opened Wrappers
  import Browser
  import Seqs

  /** Files are identified by a number drawn from the clock and a random
      fraction; the model takes it as given. */
  type FileId = int

  datatype FileStatus = Uploaded | Verified

  datatype UploadedFile = UploadedFile(
    id: FileId, name: string, size: nat, mimeType: string,
    status: FileStatus, carbonCredits: Option<int>)

  /** The credit count drawn by `Math.floor(Math.random() * 1000) + 100`. */
  predicate CreditsInRange(credits: int) {
    100 <= credits <= 1099
  }

  /** A verified entry carries a credit count in range; an uploaded one none. */
  predicate WellFormed(f: UploadedFile) {
    match f.status
    case Uploaded => f.carbonCredits.None?
    case Verified => f.carbonCredits.Some? && CreditsInRange(f.carbonCredits.value)
  }

  predicate AllWellFormed(files: seq<UploadedFile>) {
    forall i :: 0 <= i < |files| ==> WellFormed(files[i])
  }

  function NewEntry(file: Browser.FileInfo, id: FileId): UploadedFile {
    UploadedFile(id, file.name, file.size, file.mimeType, Uploaded, None)
  }

  /** The entries that selecting `picked` (with the drawn `ids`) appends. */
  function NewEntries(picked: seq<Browser.FileInfo>, ids: seq<FileId>): (r: seq<UploadedFile>)
    requires |ids| == |picked|
    ensures |r| == |picked|
    ensures forall i :: 0 <= i < |r| ==>
      r[i].id == ids[i] && r[i].name == picked[i].name && r[i].size == picked[i].size &&
      r[i].mimeType == picked[i].mimeType && r[i].status == Uploaded && r[i].carbonCredits.None?
  {
    seq(|picked|, i requires 0 <= i < |picked| => NewEntry(picked[i], ids[i]))
  }

  /** The delayed update of one file: the entry with the id becomes verified
      with the drawn credit count; every other entry is unchanged. */
  function MarkVerified(files: seq<UploadedFile>, id: FileId, credits: int): (r: seq<UploadedFile>)
    ensures |r| == |files|
    ensures forall i :: 0 <= i < |files| && files[i].id == id ==>
      r[i] == files[i].(status := Verified, carbonCredits := Some(credits))
    ensures forall i :: 0 <= i < |files| && files[i].id != id ==> r[i] == files[i]
  {
    if files == [] then []
    else
      var head := if files[0].id == id then files[0].(status := Verified, carbonCredits := Some(credits)) else files[0];
      [head] + MarkVerified(files[1..], id, credits)
  }

  /** `removeFile`: keeps, in their order, exactly the entries with another id. */
  function RemoveById(files: seq<UploadedFile>, id: FileId): (r: seq<UploadedFile>)
    ensures Seqs.IsSubsequence(r, files)
    ensures forall f :: f in r <==> f in files && f.id != id
    ensures |r| + CountId(files, id) == |files|
  {
    if files == [] then []
    else if files[0].id == id then RemoveById(files[1..], id)
    else [files[0]] + RemoveById(files[1..], id)
  }

  function CountId(files: seq<UploadedFile>, id: FileId): nat {
    if files == [] then 0 else (if files[0].id == id then 1 else 0) + CountId(files[1..], id)
  }

  predicate HasId(files: seq<UploadedFile>, id: FileId) {
    exists i :: 0 <= i < |files| && files[i].id == id
  }

  /** Verifying an id that is no longer listed leaves the list as it is; so a
      file removed before its verification fires is never brought back. */
  lemma VerifyAfterRemoveIsNoOp(files: seq<UploadedFile>, id: FileId, credits: int)
    ensures MarkVerified(RemoveById(files, id), id, credits) == RemoveById(files, id)
  {
    var r := RemoveById(files, id);
    forall i | 0 <= i < |r| ensures r[i].id != id {
      assert r[i] in r;
    }
  }

  /** With distinct ids, verifying a listed file changes exactly that one entry. */
  lemma VerifyChangesOneEntry(files: seq<UploadedFile>, k: int, credits: int)
    requires 0 <= k < |files|
    requires forall i, j :: 0 <= i < j < |files| ==> files[i].id != files[j].id
    ensures var r := MarkVerified(files, files[k].id, credits);
      r[k].status == Verified && r[k].carbonCredits == Some(credits) &&
      forall i :: 0 <= i < |files| && i != k ==> r[i] == files[i]
  {
  }

  /** Verification only moves entries forward: an entry that was verified
      stays verified, and the well-formedness of the list is kept. */
  lemma VerifyMovesForward(files: seq<UploadedFile>, id: FileId, credits: int)
    requires AllWellFormed(files) && CreditsInRange(credits)
    ensures var r := MarkVerified(files, id, credits);
      AllWellFormed(r) && forall i :: 0 <= i < |files| && files[i].status == Verified ==> r[i].status == Verified
  {
  }

  function CountVerified(files: seq<UploadedFile>): nat {
    if files == [] then 0 else (if files[0].status == Verified then 1 else 0) + CountVerified(files[1..])
  }

  /** Verification never lowers the number of verified entries, and raises it
      by one when it reaches a single listed, not yet verified entry. */
  lemma {:induction false} VerifyCountsUp(files: seq<UploadedFile>, id: FileId, credits: int)
    ensures CountVerified(MarkVerified(files, id, credits)) >= CountVerified(files)
    ensures CountId(files, id) == 1 && !IdVerified(files, id) ==>
      CountVerified(MarkVerified(files, id, credits)) == CountVerified(files) + 1
    decreases |files|
  {
    if files != [] {
      var r := MarkVerified(files, id, credits);
      assert r[1..] == MarkVerified(files[1..], id, credits);
      VerifyCountsUp(files[1..], id, credits);
      if files[0].id == id && CountId(files, id) == 1 {
        NoIdNoChange(files[1..], id, credits);
      }
    }
  }

  predicate IdVerified(files: seq<UploadedFile>, id: FileId) {
    exists i :: 0 <= i < |files| && files[i].id == id && files[i].status == Verified
  }

  lemma {:induction false} NoIdNoChange(files: seq<UploadedFile>, id: FileId, credits: int)
    requires CountId(files, id) == 0
    ensures MarkVerified(files, id, credits) == files
    decreases |files|
  {
    if files != [] {
      NoIdNoChange(files[1..], id, credits);
      assert MarkVerified(files, id, credits) == [files[0]] + MarkVerified(files[1..], id, credits);
    }
  }

  predicate AnyVerified(files: seq<UploadedFile>) {
    exists i :: 0 <= i < |files| && files[i].status == Verified
  }

  /** `verificationSteps`: completion of Document Upload, OCR Processing,
      AI Validation and Token Generation. */
  function Checklist(files: seq<UploadedFile>, isVerifying: bool): seq<bool> {
    [|files| > 0, isVerifying || AnyVerified(files), AnyVerified(files), false]
  }

  /** Step 1 is done iff a file is listed, step 3 iff some file is verified;
      step 3 implies steps 1 and 2; step 4 is never done. */
  lemma ChecklistShape(files: seq<UploadedFile>, isVerifying: bool)
    ensures var c := Checklist(files, isVerifying);
      |c| == 4 &&
      (c[0] <==> files != []) &&
      (c[2] <==> AnyVerified(files)) &&
      (c[2] ==> c[0] && c[1]) &&
      !c[3]
  {
  }

  /** Verifying a listed file completes step 3 of the checklist. */
  lemma VerifyCompletesValidation(files: seq<UploadedFile>, id: FileId, credits: int, isVerifying: bool)
    requires HasId(files, id)
    ensures Checklist(MarkVerified(files, id, credits), isVerifying)[2]
  {
    var i :| 0 <= i < |files| && files[i].id == id;
    assert MarkVerified(files, id, credits)[i].status == Verified;
  }

  const ProcessingMessage: string := "Processing document with AI..."
  const VerifiedMessage: string := "Document verified successfully!"

  /** Every entry still waiting for verification has a completion
      scheduled for its id. */
  predicate AwaitsScheduled(files: seq<UploadedFile>, scheduled: seq<FileId>) {
    forall i :: 0 <= i < |files| && files[i].status == Uploaded ==> files[i].id in scheduled
  }

  /** Once no completion is left, every entry is verified with credits in
      range. */
  lemma NothingScheduledAllVerified(files: seq<UploadedFile>)
    requires AllWellFormed(files) && AwaitsScheduled(files, [])
    ensures forall i :: 0 <= i < |files| ==>
      files[i].status == Verified && files[i].carbonCredits.Some? && CreditsInRange(files[i].carbonCredits.value)
  {
  }

  class DocumentUpload {
    var uploadedFiles: seq<UploadedFile>
    var verificationStatus: string
    var isVerifying: bool
    /** The ids whose completion timers are still to fire, in firing order.
        Every file waits 1000 ms and then 3000 ms, so completions fire in
        the order the files were chosen. */
    var scheduled: seq<FileId>

    ghost predicate Valid()
      reads this
    {
      AllWellFormed(uploadedFiles) && AwaitsScheduled(uploadedFiles, scheduled)
    }

    constructor ()
      ensures Valid()
      ensures uploadedFiles == [] && verificationStatus == "" && !isVerifying && scheduled == []
    {
      uploadedFiles := [];
      verificationStatus := "";
      isVerifying := false;
      scheduled := [];
    }

    /** `handleFileUpload`: each chosen file, in order, is appended as an
        uploaded entry with the id drawn for it, and its verification is
        scheduled. */
    method HandleFileUpload(picked: seq<Browser.FileInfo>, ids: seq<FileId>)
      requires Valid()
      requires |ids| == |picked|
      modifies this`uploadedFiles, this`scheduled
      ensures Valid()
      ensures uploadedFiles == old(uploadedFiles) + NewEntries(picked, ids)
      ensures scheduled == old(scheduled) + ids
    {
      var i := 0;
      while i < |picked|
        invariant 0 <= i <= |picked|
        invariant uploadedFiles == old(uploadedFiles) + NewEntries(picked[..i], ids[..i])
        invariant scheduled == old(scheduled) + ids[..i]
        invariant Valid()
      {
        var entry := NewEntry(picked[i], ids[i]);
        assert ids[..i + 1] == ids[..i] + [ids[i]];
        uploadedFiles := uploadedFiles + [entry];
        scheduled := scheduled + [ids[i]];
        assert NewEntries(picked[..i + 1], ids[..i + 1]) == NewEntries(picked[..i], ids[..i]) + [entry];
        i := i + 1;
      }
      assert picked[..i] == picked && ids[..i] == ids;
    }

    /** The first delayed step of a file's verification. */
    method BeginVerification()
      modifies this`isVerifying, this`verificationStatus
      ensures isVerifying && verificationStatus == ProcessingMessage
    {
      isVerifying := true;
      verificationStatus := ProcessingMessage;
    }

    /** The second delayed step of the earliest scheduled file: the entry
        with its id becomes verified with the drawn credit count, and the
        status line reports success. */
    method CompleteVerification(credits: int)
      requires Valid() && CreditsInRange(credits)
      requires scheduled != []
      modifies this`uploadedFiles, this`isVerifying, this`verificationStatus, this`scheduled
      ensures Valid()
      ensures uploadedFiles == MarkVerified(old(uploadedFiles), old(scheduled)[0], credits)
      ensures scheduled == old(scheduled)[1..]
      ensures !isVerifying && verificationStatus == VerifiedMessage
    {
      var id := scheduled[0];
      VerifyMovesForward(uploadedFiles, id, credits);
      var before := uploadedFiles;
      uploadedFiles := MarkVerified(uploadedFiles, id, credits);
      forall i | 0 <= i < |uploadedFiles| && uploadedFiles[i].status == Uploaded
        ensures uploadedFiles[i].id in scheduled[1..]
      {
        assert before[i].id != id && before[i].id in scheduled;
        assert scheduled == [id] + scheduled[1..];
      }
      scheduled := scheduled[1..];
      isVerifying := false;
      verificationStatus := VerifiedMessage;
    }

    /** `removeFile`; the file's pending timers still fire later. */
    method RemoveFile(id: FileId)
      requires Valid()
      modifies this`uploadedFiles
      ensures Valid()
      ensures uploadedFiles == RemoveById(old(uploadedFiles), id)
    {
      var before := uploadedFiles;
      uploadedFiles := RemoveById(uploadedFiles, id);
      forall i | 0 <= i < |uploadedFiles|
        ensures WellFormed(uploadedFiles[i])
        ensures uploadedFiles[i].status == Uploaded ==> uploadedFiles[i].id in scheduled
      {
        assert uploadedFiles[i] in before;
      }
    }
  }

  /** Two entries for the same chosen file: same id, name, size and type. */
  predicate SameFile(f: UploadedFile, g: UploadedFile) {
    f.id == g.id && f.name == g.name && f.size == g.size && f.mimeType == g.mimeType
  }

  /** Lets every scheduled timer fire, in order, the `i`-th completion
      drawing `credits[i]`: afterwards nothing is scheduled, every entry is
      still the same file in the same place, and every entry is verified
      with credits in range. */
  method RunTimers(u: DocumentUpload, credits: seq<int>)
    requires u.Valid()
    requires |credits| == |u.scheduled|
    requires forall i :: 0 <= i < |credits| ==> CreditsInRange(credits[i])
    modifies u
    ensures u.Valid() && u.scheduled == []
    ensures |u.uploadedFiles| == old(|u.uploadedFiles|)
    ensures forall i :: 0 <= i < |u.uploadedFiles| ==> SameFile(u.uploadedFiles[i], old(u.uploadedFiles)[i])
    ensures forall i :: 0 <= i < |u.uploadedFiles| ==>
      u.uploadedFiles[i].status == Verified && CreditsInRange(u.uploadedFiles[i].carbonCredits.value)
  {
    var k := 0;
    while k < |credits|
      invariant 0 <= k <= |credits|
      invariant u.Valid()
      invariant |u.scheduled| == |credits| - k
      invariant |u.uploadedFiles| == old(|u.uploadedFiles|)
      invariant forall i :: 0 <= i < |u.uploadedFiles| ==> SameFile(u.uploadedFiles[i], old(u.uploadedFiles)[i])
    {
      u.BeginVerification();
      u.CompleteVerification(credits[k]);
      k := k + 1;
    }
    NothingScheduledAllVerified(u.uploadedFiles);
  }
}
