/**
 * The upload page: a CV drop zone that accepts one PDF or DOCX file of at most
 * 5 MiB and "uploads" it on a 1.5-second timer, a job description with a
 * trimmed-length validity rule, four optional fields, and the submit that
 * navigates to the interview set-up page.
 *
 * Each pending upload timer is counted in pendingUploads and fires as the
 * UploadTimerFires event.
 */
module Upload {
  import opened Wrappers
  import opened JsString

  datatype CvStatus = Idle | Uploading | Success | Error

  /** The parts of a browser File the page reads: its name, MIME type and size in bytes. */
  datatype CvFile = CvFile(name: string, mimeType: string, size: nat)

  const PdfType: string := "application/pdf"
  const DocxType: string := "application/vnd.openxmlformats-officedocument.wordprocessingml.document"
  const ValidTypes: seq<string> := [PdfType, DocxType]

  /** 5 * 1024 * 1024 bytes. */
  const MaxSize: nat := 5242880

  /** The minimum the trimmed job description must exceed. */
  const MinDescription: nat := 50

  const StartRoute: string := "/interview/start"

  /** handleFile's two checks: a listed MIME type, and a size not above the limit. */
  predicate IsAcceptedFile(file: CvFile) {
    file.mimeType in ValidTypes && file.size <= MaxSize
  }

  /** The limit is inclusive: exactly 5 MiB passes, one byte more does not. */
  lemma SizeLimitInclusive(name: string, mimeType: string)
    requires mimeType in ValidTypes
    ensures IsAcceptedFile(CvFile(name, mimeType, 5 * 1024 * 1024))
    ensures !IsAcceptedFile(CvFile(name, mimeType, 5 * 1024 * 1024 + 1))
  {
  }

  /** Only the two listed MIME types pass, whatever the size. */
  lemma TypeChecked(file: CvFile)
    ensures IsAcceptedFile(file) ==> file.mimeType == PdfType || file.mimeType == DocxType
    ensures file.mimeType != PdfType && file.mimeType != DocxType ==> !IsAcceptedFile(file)
  {
  }

  /** `isValid`, which enables the submit button. */
  predicate FormValid(status: CvStatus, jobDescription: string) {
    status == CvStatus.Success && |Trim(jobDescription)| > MinDescription
  }

  /** handleSubmit's own guard: a successful upload and any non-blank description. */
  predicate SubmitGuard(status: CvStatus, jobDescription: string) {
    status == CvStatus.Success && Trim(jobDescription) != ""
  }

  /**
   * The button's rule is the stricter one: whenever it is enabled the handler's
   * guard holds, but the guard alone admits descriptions the button refuses.
   */
  lemma ButtonStricterThanHandler(jobDescription: string)
    ensures FormValid(CvStatus.Success, jobDescription) ==> SubmitGuard(CvStatus.Success, jobDescription)
    ensures SubmitGuard(CvStatus.Success, "x") && !FormValid(CvStatus.Success, "x")
  {
    TrimUntouched("x");
  }

  /** Whitespace around the description never changes either rule. */
  lemma RulesIgnoreSurroundingWhitespace(status: CvStatus, jobDescription: string)
    ensures FormValid(status, Trim(jobDescription)) == FormValid(status, jobDescription)
    ensures SubmitGuard(status, Trim(jobDescription)) == SubmitGuard(status, jobDescription)
  {
    TrimIdempotent(jobDescription);
  }

  /**
   * The hint under the text area counts untrimmed characters against a
   * "minimum 50", but the rule wants more than 50 after trimming: a
   * description of exactly 50 characters meets the hint and never the rule,
   * and neither does 50 characters followed by spaces.
   */
  lemma HintBelowRule(jobDescription: string, padding: nat)
    requires |jobDescription| == MinDescription
    ensures !FormValid(CvStatus.Success, jobDescription)
    ensures !FormValid(CvStatus.Success, jobDescription + Repeat(' ', padding))
  {
    var padded := jobDescription + Repeat(' ', padding);
    assert BlankFrom(padded, MinDescription) by {
      forall p | MinDescription <= p < |padded| ensures IsJsWhitespace(padded[p]) {
        assert padded[p] == Repeat(' ', padding)[p - MinDescription];
      }
    }
    TrimBoundedByBlankTail(padded, MinDescription);
    TrimBoundedByBlankTail(jobDescription, MinDescription);
  }

  /** The editable optional and required text fields. */
  datatype Field = JobDescription | JobTitle | Company | Industry | ExperienceLevel

  class UploadForm {
    var cvFile: Option<CvFile>
    var cvStatus: CvStatus
    var jobDescription: string
    var jobTitle: string
    var company: string
    var industry: string
    var experienceLevel: string
    var dragActive: bool
    /** Upload timers started and not yet fired. */
    var pendingUploads: nat
    var navigatedTo: Option<string>

    /**
     * Only accepted files are ever kept, and an upload in progress has its
     * file and a timer still to fire.
     */
    ghost predicate Valid()
      reads this
    {
      && (cvFile.Some? ==> IsAcceptedFile(cvFile.value))
      && (cvStatus == Uploading ==> cvFile.Some? && pendingUploads > 0)
    }

    constructor ()
      ensures Valid()
      ensures cvFile == None && cvStatus == Idle && !dragActive && pendingUploads == 0 && navigatedTo == None
      ensures jobDescription == "" && jobTitle == "" && company == "" && industry == "" && experienceLevel == ""
    {
      cvFile := None;
      cvStatus := Idle;
      jobDescription := "";
      jobTitle := "";
      company := "";
      industry := "";
      experienceLevel := "";
      dragActive := false;
      pendingUploads := 0;
      navigatedTo := None;
    }

    predicate IsValid()
      reads this
    {
      FormValid(cvStatus, jobDescription)
    }

    /** The character count the hint shows. */
    function HintCount(): nat
      reads this
    {
      |jobDescription|
    }

    /** dragenter and dragover light the zone up, dragleave turns it off, other events leave it. */
    method HandleDrag(eventType: string)
      requires Valid()
      modifies this
      ensures Valid()
      ensures eventType == "dragenter" || eventType == "dragover" ==> dragActive
      ensures eventType == "dragleave" ==> !dragActive
      ensures eventType !in {"dragenter", "dragover", "dragleave"} ==> dragActive == old(dragActive)
      ensures cvFile == old(cvFile) && cvStatus == old(cvStatus) && pendingUploads == old(pendingUploads)
      ensures jobDescription == old(jobDescription) && navigatedTo == old(navigatedTo)
      ensures jobTitle == old(jobTitle) && company == old(company)
      ensures industry == old(industry) && experienceLevel == old(experienceLevel)
    {
      if eventType == "dragenter" || eventType == "dragover" {
        dragActive := true;
      } else if eventType == "dragleave" {
        dragActive := false;
      }
    }

    /**
     * handleFile: a rejected file sets the error status and keeps whatever file
     * was there; an accepted one replaces it, starts uploading and starts a timer.
     */
    method HandleFile(file: CvFile)
      requires Valid()
      modifies this
      ensures Valid()
      ensures !IsAcceptedFile(file) ==>
        cvStatus == Error && cvFile == old(cvFile) && pendingUploads == old(pendingUploads)
      ensures IsAcceptedFile(file) ==>
        cvStatus == Uploading && cvFile == Some(file) && pendingUploads == old(pendingUploads) + 1
      ensures dragActive == old(dragActive) && jobDescription == old(jobDescription) && navigatedTo == old(navigatedTo)
      ensures jobTitle == old(jobTitle) && company == old(company)
      ensures industry == old(industry) && experienceLevel == old(experienceLevel)
    {
      if file.mimeType !in ValidTypes {
        cvStatus := Error;
        return;
      }
      if file.size > MaxSize {
        cvStatus := Error;
        return;
      }
      cvFile := Some(file);
      cvStatus := Uploading;
      pendingUploads := pendingUploads + 1;
    }

    /** A drop turns the highlight off and hands the first dropped file, if any, to HandleFile. */
    method HandleDrop(files: seq<CvFile>)
      requires Valid()
      modifies this
      ensures Valid()
      ensures !dragActive
      ensures files == [] ==> cvFile == old(cvFile) && cvStatus == old(cvStatus) && pendingUploads == old(pendingUploads)
      ensures files != [] && !IsAcceptedFile(files[0]) ==>
        cvStatus == Error && cvFile == old(cvFile) && pendingUploads == old(pendingUploads)
      ensures files != [] && IsAcceptedFile(files[0]) ==>
        cvStatus == Uploading && cvFile == Some(files[0]) && pendingUploads == old(pendingUploads) + 1
      ensures jobDescription == old(jobDescription) && navigatedTo == old(navigatedTo)
      ensures jobTitle == old(jobTitle) && company == old(company)
      ensures industry == old(industry) && experienceLevel == old(experienceLevel)
    {
      dragActive := false;
      if files != [] {
        HandleFile(files[0]);
      }
    }

    /** The file input: the first chosen file, if any, goes to HandleFile. */
    method HandleFileInput(files: seq<CvFile>)
      requires Valid()
      modifies this
      ensures Valid()
      ensures files == [] ==> cvFile == old(cvFile) && cvStatus == old(cvStatus) && pendingUploads == old(pendingUploads)
      ensures files != [] && !IsAcceptedFile(files[0]) ==>
        cvStatus == Error && cvFile == old(cvFile) && pendingUploads == old(pendingUploads)
      ensures files != [] && IsAcceptedFile(files[0]) ==>
        cvStatus == Uploading && cvFile == Some(files[0]) && pendingUploads == old(pendingUploads) + 1
      ensures dragActive == old(dragActive) && jobDescription == old(jobDescription) && navigatedTo == old(navigatedTo)
      ensures jobTitle == old(jobTitle) && company == old(company)
      ensures industry == old(industry) && experienceLevel == old(experienceLevel)
    {
      if files != [] {
        HandleFile(files[0]);
      }
    }

    /**
     * A pending upload timer fires: the status becomes success whatever it
     * has become since, even after an error, a removal or a retry.
     */
    method UploadTimerFires()
      requires Valid()
      requires pendingUploads > 0
      modifies this
      ensures Valid()
      ensures cvStatus == CvStatus.Success && pendingUploads == old(pendingUploads) - 1
      ensures cvFile == old(cvFile) && dragActive == old(dragActive)
      ensures jobDescription == old(jobDescription) && navigatedTo == old(navigatedTo)
      ensures jobTitle == old(jobTitle) && company == old(company)
      ensures industry == old(industry) && experienceLevel == old(experienceLevel)
    {
      cvStatus := CvStatus.Success;
      pendingUploads := pendingUploads - 1;
    }

    /** The Remove button, shown after a successful upload: drop the file, back to idle. */
    method Remove()
      requires Valid()
      modifies this
      ensures Valid()
      ensures cvFile == None && cvStatus == Idle
      ensures pendingUploads == old(pendingUploads) && dragActive == old(dragActive)
      ensures jobDescription == old(jobDescription) && navigatedTo == old(navigatedTo)
      ensures jobTitle == old(jobTitle) && company == old(company)
      ensures industry == old(industry) && experienceLevel == old(experienceLevel)
    {
      cvFile := None;
      cvStatus := Idle;
    }

    /** The Try again button, shown after an error: back to idle, the file is kept. */
    method TryAgain()
      requires Valid()
      modifies this
      ensures Valid()
      ensures cvStatus == Idle && cvFile == old(cvFile)
      ensures pendingUploads == old(pendingUploads) && dragActive == old(dragActive)
      ensures jobDescription == old(jobDescription) && navigatedTo == old(navigatedTo)
      ensures jobTitle == old(jobTitle) && company == old(company)
      ensures industry == old(industry) && experienceLevel == old(experienceLevel)
    {
      cvStatus := Idle;
    }

    /** Typing into one of the text fields or choosing an experience level. */
    method Edit(field: Field, value: string)
      requires Valid()
      modifies this
      ensures Valid()
      ensures jobDescription == if field == JobDescription then value else old(jobDescription)
      ensures jobTitle == if field == JobTitle then value else old(jobTitle)
      ensures company == if field == Company then value else old(company)
      ensures industry == if field == Industry then value else old(industry)
      ensures experienceLevel == if field == ExperienceLevel then value else old(experienceLevel)
      ensures cvFile == old(cvFile) && cvStatus == old(cvStatus) && pendingUploads == old(pendingUploads)
      ensures dragActive == old(dragActive) && navigatedTo == old(navigatedTo)
    {
      match field
      case JobDescription => jobDescription := value;
      case JobTitle => jobTitle := value;
      case Company => company := value;
      case Industry => industry := value;
      case ExperienceLevel => experienceLevel := value;
    }

    /** handleSubmit: navigates on its own guard, otherwise does nothing. */
    method HandleSubmit()
      requires Valid()
      modifies this
      ensures Valid()
      ensures navigatedTo == if SubmitGuard(old(cvStatus), old(jobDescription)) then Some(StartRoute) else old(navigatedTo)
      ensures cvFile == old(cvFile) && cvStatus == old(cvStatus) && pendingUploads == old(pendingUploads)
      ensures dragActive == old(dragActive) && jobDescription == old(jobDescription)
      ensures jobTitle == old(jobTitle) && company == old(company)
      ensures industry == old(industry) && experienceLevel == old(experienceLevel)
    {
      if SubmitGuard(cvStatus, jobDescription) {
        navigatedTo := Some(StartRoute);
      }
    }
  }

  /** A description of 51 letters; it trims to itself. */
  function LongDescription(): (d: string)
    ensures |Trim(d)| == MinDescription + 1
  {
    var d := Repeat('a', MinDescription + 1);
    TrimUntouched(d);
    d
  }

  /** Drop a valid PDF, let its timer fire, type a long description, press submit. */
  method UploadAndContinue(name: string, size: nat) returns (kept: Option<CvFile>, route: Option<string>)
    requires size <= MaxSize
    ensures kept == Some(CvFile(name, PdfType, size)) && route == Some(StartRoute)
  {
    var form := new UploadForm();
    var file := CvFile(name, PdfType, size);
    form.HandleDrop([file]);
    form.UploadTimerFires();
    form.Edit(JobDescription, LongDescription());
    assert form.IsValid();
    form.HandleSubmit();
    kept, route := form.cvFile, form.navigatedTo;
  }

  /**
   * Upload a file and type exactly fifty characters: the hint shows 50
   * against its "minimum 50", yet the submit button stays disabled.
   */
  method HintMetButDisabled(file: CvFile, description: string) returns (hint: nat, enabled: bool)
    requires IsAcceptedFile(file) && |description| == MinDescription
    ensures hint == MinDescription && !enabled
  {
    var form := new UploadForm();
    form.HandleFileInput([file]);
    form.UploadTimerFires();
    form.Edit(JobDescription, description);
    hint := form.HintCount();
    enabled := form.IsValid();
    HintBelowRule(description, 0);
  }

  /**
   * Timers are never cancelled, so two quick uploads and a Remove between
   * their timers leave a successful status with no file, and the submit goes
   * through without a CV.
   */
  method SubmitWithoutCv(first: CvFile, second: CvFile) returns (kept: Option<CvFile>, enabled: bool, route: Option<string>)
    requires IsAcceptedFile(first) && IsAcceptedFile(second)
    ensures kept == None && enabled && route == Some(StartRoute)
  {
    var form := new UploadForm();
    form.HandleFileInput([first]);
    form.HandleFileInput([second]);
    assert form.pendingUploads == 2;
    form.UploadTimerFires();
    form.Remove();
    assert form.pendingUploads == 1 && form.cvFile == None;
    form.UploadTimerFires();
    assert form.cvStatus == CvStatus.Success && form.cvFile == None;
    var description := LongDescription();
    form.Edit(JobDescription, description);
    assert form.jobDescription == description;
    enabled := form.IsValid();
    form.HandleSubmit();
    kept, route := form.cvFile, form.navigatedTo;
  }
}
