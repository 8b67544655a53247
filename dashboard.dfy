/**
 * The dashboard's CV upload card (file validation, a simulated upload whose
 * progress steps from 0 to 100, removal), the "Analyze" button's enablement
 * and the badge that classifies a past session's score.
 */
module Dashboard {
  import opened Common
  import opened Text

  /** The parts of a browser `File` the page reads. */
  datatype FileInfo = FileInfo(name: string, mimeType: string, size: nat)

  const AllowedTypes: seq<string> := [
    ".pdf", ".docx", ".doc",
    "application/pdf",
    "application/vnd.openxmlformats-officedocument.wordprocessingml.document",
    "application/msword"
  ]

  /** `5 * 1024 * 1024`: the largest accepted size, in bytes. */
  const MaxFileSize: nat := 5 * 1024 * 1024

  const TypeError: string := "Please upload a PDF or Word document (PDF, DOC, DOCX)"
  const SizeError: string := "File size must be less than 5MB"

  /** `name.split('.').pop()`: the text after the last '.', or the whole name when there is none. */
  function LastSegment(name: string): string
  {
    if name == [] then []
    else if name[|name| - 1] == '.' then []
    else LastSegment(name[..|name| - 1]) + [name[|name| - 1]]
  }

  /** The segment is a dot-free suffix of the name, preceded by a dot unless it is the whole name. */
  lemma {:induction false} LastSegmentIsLastDotFreeSuffix(name: string)
    ensures |LastSegment(name)| <= |name|
    ensures LastSegment(name) == name[|name| - |LastSegment(name)|..]
    ensures forall i :: 0 <= i < |LastSegment(name)| ==> LastSegment(name)[i] != '.'
    ensures |LastSegment(name)| < |name| ==> name[|name| - |LastSegment(name)| - 1] == '.'
  {
    if name != [] && name[|name| - 1] != '.' {
      var p, c := name[..|name| - 1], name[|name| - 1];
      LastSegmentIsLastDotFreeSuffix(p);
      var q := LastSegment(p);
      var r := q + [c];
      assert LastSegment(name) == r;
      var k := |p| - |q|;
      assert name == p + [c];
      assert name[k..] == p[k..] + [c];
      assert r == name[|name| - |r|..];
      assert forall i :: 0 <= i < |r| ==> r[i] == (if i < |q| then q[i] else c);
      if |q| < |p| {
        assert name[k - 1] == p[k - 1];
      }
    }
  }

  /** The segment is the longest dot-free suffix: a name without a dot is its own last segment. */
  lemma {:induction false} LastSegmentNoDot(name: string)
    requires forall i :: 0 <= i < |name| ==> name[i] != '.'
    ensures LastSegment(name) == name
  {
    LastSegmentIsLastDotFreeSuffix(name);
  }

  /** Only the text after the last dot counts: whatever precedes the dot is ignored. */
  lemma {:induction false} LastSegmentAfterDot(prefix: string, s: string)
    requires forall i :: 0 <= i < |s| ==> s[i] != '.'
    ensures LastSegment(prefix + "." + s) == s
    decreases |s|
  {
    var name := prefix + "." + s;
    if s != [] {
      assert name[..|name| - 1] == prefix + "." + s[..|s| - 1];
      LastSegmentAfterDot(prefix, s[..|s| - 1]);
      assert s == s[..|s| - 1] + [s[|s| - 1]];
    }
  }

  /** `'.' + name.split('.').pop()?.toLowerCase()`. */
  function Extension(name: string): (ext: string)
    ensures |ext| >= 1 && ext[0] == '.'
    ensures forall i :: 1 <= i < |ext| ==> ext[i] != '.'
  {
    LastSegmentIsLastDotFreeSuffix(name);
    LowerIsPointwise(LastSegment(name));
    "." + Lower(LastSegment(name))
  }

  /** A name without any dot yields '.' plus the lower-cased name itself: a file named `pdf` has extension `.pdf`. */
  lemma ExtensionOfDotlessName(name: string)
    requires forall i :: 0 <= i < |name| ==> name[i] != '.'
    ensures Extension(name) == "." + Lower(name)
  {
    LastSegmentNoDot(name);
  }

  /** Examples: only the text after the last dot counts, and a trailing dot leaves just ".". */
  lemma ExtensionExamples()
    ensures Extension("pdf") == ".pdf"
    ensures Extension("cv.docx.exe") == ".exe"
    ensures Extension("report.") == "."
  {
    ExtensionOfDotlessName("pdf");
    assert Lower("pdf") == "pdf" by {
      LowerIsPointwise("pdf");
    }
    LastSegmentAfterDot("cv.docx", "exe");
    assert "cv.docx.exe" == "cv.docx" + "." + "exe";
    assert Lower("exe") == "exe" by {
      LowerIsPointwise("exe");
    }
    LastSegmentAfterDot("report", "");
    assert "report." == "report" + "." + "";
  }

  /** The extension is compared in lower case: `CV.PDF` passes as `.pdf`. */
  lemma ExtensionIgnoresCase()
    ensures Extension("CV.PDF") == ".pdf"
  {
    LastSegmentAfterDot("CV", "PDF");
    assert "CV.PDF" == "CV" + "." + "PDF";
    assert Lower("PDF") == "pdf" by {
      LowerIsPointwise("PDF");
      assert LowerChar('P') == 'p' && LowerChar('D') == 'd' && LowerChar('F') == 'f';
    }
  }

  /** `allowedTypes.includes(t)`. */
  predicate IsAllowedType(t: string)
  {
    t in AllowedTypes
  }

  /** The type check: the extension or the MIME type is on the allow-list. */
  predicate TypeAllowed(f: FileInfo)
  {
    IsAllowedType(Extension(f.name)) || IsAllowedType(f.mimeType)
  }

  /** The outcome of `handleFileSelect`'s checks for one file: no error, or the message shown. */
  function FileError(f: FileInfo): (err: Option<string>)
    ensures err.None? <==> TypeAllowed(f) && f.size <= MaxFileSize
    ensures !TypeAllowed(f) ==> err == Some(TypeError)
    ensures TypeAllowed(f) && f.size > MaxFileSize ==> err == Some(SizeError)
  {
    if !IsAllowedType(Extension(f.name)) && !IsAllowedType(f.mimeType) then Some(TypeError)
    else if f.size > MaxFileSize then Some(SizeError)
    else None
  }

  /** The size bound is inclusive: exactly 5 MiB is accepted, one byte more is refused. */
  lemma SizeBoundary(name: string, mimeType: string)
    requires TypeAllowed(FileInfo(name, mimeType, 0))
    ensures FileError(FileInfo(name, mimeType, 5242880)).None?
    ensures FileError(FileInfo(name, mimeType, 5242881)) == Some(SizeError)
  {
  }

  /** A PDF MIME type is accepted whatever the name says. */
  lemma MimeTypeSuffices(name: string, size: nat)
    requires size <= MaxFileSize
    ensures FileError(FileInfo(name, "application/pdf", size)).None?
  {
    assert AllowedTypes[3] == "application/pdf";
    assert IsAllowedType("application/pdf");
  }

  /** The type check comes first: an oversize PNG reports the type error, not the size error. */
  lemma TypeCheckedBeforeSize()
    ensures FileError(FileInfo("photo.png", "image/png", 10 * MaxFileSize)) == Some(TypeError)
  {
    LastSegmentAfterDot("photo", "png");
    assert "photo.png" == "photo" + "." + "png";
    assert Lower("png") == "png" by {
      LowerIsPointwise("png");
    }
    assert Extension("photo.png") == ".png";
    assert !IsAllowedType(".png") by {
      assert ".png"[2] != AllowedTypes[0][2];
      assert ".png"[1] != AllowedTypes[2][1];
      assert forall i :: 0 <= i < |AllowedTypes| && i != 0 && i != 2 ==> |AllowedTypes[i]| != 4;
    }
    assert !IsAllowedType("image/png") by {
      assert forall i :: 0 <= i < |AllowedTypes| ==> |AllowedTypes[i]| != 9;
    }
  }

  /** `for (let progress = p; progress <= 100; progress += 10)`: the values the loop shows, from `p` on. */
  function ProgressFrom(p: int): seq<int>
    decreases 110 - p
  {
    if p > 100 then [] else [p] + ProgressFrom(p + 10)
  }

  /** From `p` the loop shows `p`, `p + 10`, ... up to the last value not above 100. */
  lemma {:induction false} ProgressFromValues(p: int)
    ensures |ProgressFrom(p)| == if p > 100 then 0 else (100 - p) / 10 + 1
    ensures forall i :: 0 <= i < |ProgressFrom(p)| ==> ProgressFrom(p)[i] == p + 10 * i
    decreases 110 - p
  {
    if p <= 100 {
      ProgressFromValues(p + 10);
    }
  }

  /** One turn of the loop moves one value from the values still to come to the values shown. */
  lemma ProgressStep(shown: seq<int>, p: int)
    requires p <= 100
    ensures shown + ProgressFrom(p) == (shown + [p]) + ProgressFrom(p + 10)
  {
    assert ProgressFrom(p) == [p] + ProgressFrom(p + 10);
  }

  /** The upload shows 0, 10, ..., 100: eleven values, strictly increasing, all within 0..100. */
  lemma UploadProgressValues()
    ensures |ProgressFrom(0)| == 11
    ensures ProgressFrom(0)[0] == 0 && ProgressFrom(0)[10] == 100
    ensures forall i, j :: 0 <= i < j < 11 ==> ProgressFrom(0)[i] < ProgressFrom(0)[j]
    ensures forall i :: 0 <= i < 11 ==> 0 <= ProgressFrom(0)[i] <= 100
  {
    ProgressFromValues(0);
  }

  /** The badge of a past session: 'default' from 80, 'secondary' from 70, 'outline' below. */
  function SessionBadge(score: int): (v: BadgeVariant)
    ensures v == Default <==> score >= 80
    ensures v == Secondary <==> 70 <= score < 80
    ensures v == Outline <==> score < 70
  {
    if score >= 80 then Default else if score >= 70 then Secondary else Outline
  }

  /** A higher score never gets a weaker badge. */
  lemma SessionBadgeMonotone(a: int, b: int)
    requires a <= b
    ensures VariantRank(SessionBadge(a)) <= VariantRank(SessionBadge(b))
  {
  }

  /** "Analyze" is enabled while the job description is not blank (`disabled={!jobDescription.trim()}`). */
  function AnalyzeEnabled(jobDescription: string): bool
  {
    Trim(jobDescription) != []
  }

  /** Enabled exactly when some character of the description is not whitespace. */
  lemma AnalyzeEnabledIff(jobDescription: string)
    ensures AnalyzeEnabled(jobDescription) <==>
      exists i :: 0 <= i < |jobDescription| && !IsWhitespace(jobDescription[i])
  {
    TrimEmptyIff(jobDescription);
  }

  class DashboardPage {
    var jobDescription: string
    var cvFile: Option<FileInfo>
    var isUploading: bool
    var uploadProgress: int
    var uploadError: Option<string>
    var uploadSuccess: bool
    /** Three-second timeouts that will clear `uploadSuccess`, not yet fired. */
    var pendingSuccessResets: nat
    /** Every value `uploadProgress` has been set to, in order. */
    ghost var progressHistory: seq<int>

    /** Outside an upload the progress reads 0 and the bar is hidden; a held file always passed the checks. */
    ghost predicate Valid()
      reads this
    {
      !isUploading && uploadProgress == 0 &&
      (cvFile.Some? ==> FileError(cvFile.value).None?)
    }

    constructor ()
      ensures Valid()
      ensures jobDescription == [] && cvFile == None && uploadError == None && !uploadSuccess
      ensures pendingSuccessResets == 0 && progressHistory == []
    {
      jobDescription := [];
      cvFile := None;
      isUploading := false;
      uploadProgress := 0;
      uploadError := None;
      uploadSuccess := false;
      pendingSuccessResets := 0;
      progressHistory := [];
    }

    /** Typing in the job-description box. */
    method EditJobDescription(text: string)
      requires Valid()
      modifies this`jobDescription
      ensures Valid() && jobDescription == text
    {
      jobDescription := text;
    }

    /** The file picker is on screen: no upload running, no success message, no held file. */
    predicate PickerShown()
      reads this
    {
      !isUploading && !uploadSuccess && cvFile.None?
    }

    /** The "Upload CV" and remove buttons are on screen: a held file, no upload running, no success message. */
    predicate FileActionsShown()
      reads this
    {
      !isUploading && !uploadSuccess && cvFile.Some?
    }

    /**
     * `handleFileSelect` with the first chosen file, if any, reachable only
     * through the file picker. No picker or no file: nothing changes. A file
     * failing a check: only the error is set. A file passing both: the error is
     * cleared and it becomes the held file.
     */
    method HandleFileSelect(selected: Option<FileInfo>)
      requires Valid()
      modifies this`cvFile, this`uploadError, this`uploadSuccess
      ensures Valid()
      ensures !old(PickerShown()) || selected.None? ==>
        cvFile == old(cvFile) && uploadError == old(uploadError) && uploadSuccess == old(uploadSuccess)
      ensures old(PickerShown()) && selected.Some? && FileError(selected.value).Some? ==>
        cvFile == None && uploadError == FileError(selected.value) && !uploadSuccess
      ensures old(PickerShown()) && selected.Some? && FileError(selected.value).None? ==>
        cvFile == selected && uploadError == None && !uploadSuccess
    {
      if PickerShown() && selected.Some? {
        var file := selected.value;
        if !IsAllowedType(Extension(file.name)) && !IsAllowedType(file.mimeType) {
          uploadError := Some(TypeError);
          return;
        }
        if file.size > MaxFileSize {
          uploadError := Some(SizeError);
          return;
        }
        assert FileError(file).None?;
        uploadError := None;
        cvFile := Some(file);
        uploadSuccess := false;
      }
    }

    /**
     * `handleFileUpload` ("Upload CV"): only while its button is on screen.
     * The progress is set to 0, then stepped through 0, 10, ..., 100, and
     * finally reset to 0 with the upload marked successful and a reset of that
     * success message scheduled. Otherwise nothing happens.
     */
    method HandleFileUpload()
      requires Valid()
      modifies this`isUploading, this`uploadProgress, this`progressHistory
      modifies this`uploadError, this`uploadSuccess, this`pendingSuccessResets
      ensures Valid()
      ensures !old(FileActionsShown()) ==>
        && uploadError == old(uploadError) && uploadSuccess == old(uploadSuccess)
        && pendingSuccessResets == old(pendingSuccessResets) && progressHistory == old(progressHistory)
      ensures old(FileActionsShown()) ==>
        && uploadError == None && uploadSuccess
        && pendingSuccessResets == old(pendingSuccessResets) + 1
        && progressHistory == old(progressHistory) + [0] + ProgressFrom(0) + [0]
    {
      if FileActionsShown() {
        isUploading := true;
        uploadProgress := 0;
        progressHistory := progressHistory + [0];
        uploadError := None;
        StepProgress();
        uploadSuccess := true;
        pendingSuccessResets := pendingSuccessResets + 1;
        isUploading := false;
        uploadProgress := 0;
        progressHistory := progressHistory + [0];
        assert cvFile == old(cvFile);
      }
    }

    /** The upload's loop: the progress is set to 0, 10, ..., 100 in turn. */
    method StepProgress()
      modifies this`uploadProgress, this`progressHistory
      ensures progressHistory == old(progressHistory) + ProgressFrom(0)
      ensures uploadProgress == 100
    {
      var progress := 0;
      while progress <= 100
        invariant 0 <= progress <= 110 && progress % 10 == 0
        invariant progress > 0 ==> uploadProgress == progress - 10
        invariant progressHistory + ProgressFrom(progress) == old(progressHistory) + ProgressFrom(0)
      {
        ProgressStep(progressHistory, progress);
        uploadProgress := progress;
        progressHistory := progressHistory + [progress];
        progress := progress + 10;
      }
      assert ProgressFrom(progress) == [];
    }

    /** A three-second timeout scheduled by an upload fires: the success message goes away. */
    method SuccessTimeoutFires()
      requires Valid() && pendingSuccessResets > 0
      modifies this`uploadSuccess, this`pendingSuccessResets
      ensures Valid() && !uploadSuccess
      ensures pendingSuccessResets == old(pendingSuccessResets) - 1
    {
      uploadSuccess := false;
      pendingSuccessResets := pendingSuccessResets - 1;
    }

    /** `removeFile`, only while its button is on screen: the held file, the error and the success flag are all cleared. */
    method RemoveFile()
      requires Valid()
      modifies this`cvFile, this`uploadError, this`uploadSuccess
      ensures Valid()
      ensures old(FileActionsShown()) ==> cvFile == None && uploadError == None && !uploadSuccess
      ensures !old(FileActionsShown()) ==>
        cvFile == old(cvFile) && uploadError == old(uploadError) && uploadSuccess == old(uploadSuccess)
    {
      if FileActionsShown() {
        cvFile := None;
        uploadError := None;
        uploadSuccess := false;
      }
    }

    /** Whether the "Analyze" button is enabled now: exactly when the description holds a non-whitespace character. */
    function AnalyzeButtonEnabled(): (enabled: bool)
      reads this
      ensures enabled <==> exists i :: 0 <= i < |jobDescription| && !IsWhitespace(jobDescription[i])
    {
      AnalyzeEnabledIff(jobDescription);
      AnalyzeEnabled(jobDescription)
    }
  }

  /**
   * While the success message shows, the remove button is not on screen and the
   * held file stays; once the message times out, the file can be removed.
   */
  method RemoveDuringSuccessScenario(f: FileInfo) returns (heldDuring: Option<FileInfo>, heldAfter: Option<FileInfo>)
    requires FileError(f).None?
    ensures heldDuring == Some(f) && heldAfter == None
  {
    var page := new DashboardPage();
    page.HandleFileSelect(Some(f));
    page.HandleFileUpload();
    page.RemoveFile();
    heldDuring := page.cvFile;
    page.SuccessTimeoutFires();
    page.RemoveFile();
    heldAfter := page.cvFile;
  }
}
