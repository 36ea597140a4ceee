/** The services page: the four AI services, the request checks and the
    dispatch to a service call, file reading, the score badge of a
    breakdown entry, and the HTML rendering of feedback text. */
module ServicesPage {
  import opened Wrappers
  import opened Text
  import opened FileExtraction
  import GeminiService

  datatype Service = Service(id: string, title: string, description: string)

  const ResumeAnalyzer := Service("resumeAnalyzer", "Resume Analyzer",
    "Upload your resume (PDF/TXT) and get AI-powered feedback on structure, keywords, and common errors.")
  const PercentageMatch := Service("percentageMatch", "Percentage Match",
    "Upload your resume (PDF/TXT) and paste a job description to see a compatibility score.")
  const AtsScoreCalculator := Service("atsScoreCalculator", "ATS Score Calculator",
    "Upload your resume to get a general ATS compatibility score (0-100), a breakdown by key parameters, and actionable improvement suggestions based on overall resume quality and ATS best practices.")
  const AiMockInterviewQuestions := Service("aiMockInterviewQuestions", "AI Mock Interview Questions",
    "Generate interview questions tailored to specific job roles or industries for practice.")

  const ServicesData: seq<Service> := [ResumeAnalyzer, PercentageMatch, AtsScoreCalculator, AiMockInterviewQuestions]

  /** `SERVICES_DATA.find(s => s.id === id)`. */
  function FindService(services: seq<Service>, id: string): (r: Option<Service>)
    ensures r.Some? ==> r.value in services && r.value.id == id
    ensures r.None? <==> forall i :: 0 <= i < |services| ==> services[i].id != id
  {
    if services == [] then None
    else if services[0].id == id then Some(services[0])
    else FindService(services[1..], id)
  }

  /** The services whose request needs resume text. */
  predicate NeedsResume(id: string) {
    id == "resumeAnalyzer" || id == "percentageMatch" || id == "atsScoreCalculator"
  }

  const NoServiceMessage := "Please select a service."
  const UnrecognizedMessage := "Selected service is not recognized."

  function MissingResumeMessage(title: string): string {
    "Please upload or paste your resume for " + title + "."
  }

  function MissingRoleMessage(title: string): string {
    "Please provide the job role/industry for " + title + "."
  }

  function MissingDescriptionMessage(title: string): string {
    "Please provide the job description for " + title + "."
  }

  /** Every input the service with this id reads is non-empty. */
  predicate InputsPresent(id: string, resumeText: string, jobDescriptionText: string, jobRoleText: string) {
    (NeedsResume(id) ==> resumeText != "")
    && (id == "aiMockInterviewQuestions" ==> jobRoleText != "")
    && (id == "percentageMatch" ==> jobDescriptionText != "")
  }

  /** The checks of `handleSubmitRegularService`, first failing one wins. */
  function SubmissionError(selected: Option<Service>, resumeText: string, jobDescriptionText: string, jobRoleText: string): (r: Option<string>)
    ensures selected.None? ==> r == Some(NoServiceMessage)
    ensures selected.Some? && NeedsResume(selected.value.id) && resumeText == "" ==>
      r == Some(MissingResumeMessage(selected.value.title))
    ensures selected.Some? && selected.value.id == "aiMockInterviewQuestions" && jobRoleText == "" ==>
      r == Some(MissingRoleMessage(selected.value.title))
    ensures selected.Some? && selected.value.id == "percentageMatch" && resumeText != "" && jobDescriptionText == "" ==>
      r == Some(MissingDescriptionMessage(selected.value.title))
    ensures r.None? <==> selected.Some? && InputsPresent(selected.value.id, resumeText, jobDescriptionText, jobRoleText)
  {
    if selected.None? then Some(NoServiceMessage)
    else
      var s := selected.value;
      if NeedsResume(s.id) && resumeText == "" then Some(MissingResumeMessage(s.title))
      else if s.id == "aiMockInterviewQuestions" && jobRoleText == "" then Some(MissingRoleMessage(s.title))
      else if s.id == "percentageMatch" && jobDescriptionText == "" then Some(MissingDescriptionMessage(s.title))
      else None
  }

  /** With both texts empty the match service asks for the resume first. */
  lemma ResumeCheckedBeforeDescription(title: string)
    ensures SubmissionError(Some(Service("percentageMatch", title, "")), "", "", "") ==
      Some(MissingResumeMessage(title))
  {
  }

  /** The call a recognised service makes, with the inputs it reads. The
      breakdown call names `calculateAtsScoreWithGemini`, which the service
      module does not define; it is kept as a call value only. */
  datatype ServiceCall =
    | AnalyzeResume(resume: string)
    | MatchPercentage(resume: string, jobDescription: string)
    | CalculateAtsScore(resume: string)
    | MockInterviewQuestions(jobRole: string)

  /** The `switch` of the request: one call per known id, none otherwise. */
  function Dispatch(id: string, resumeText: string, jobDescriptionText: string, jobRoleText: string): (r: Option<ServiceCall>)
    ensures r.None? <==> id !in {"resumeAnalyzer", "percentageMatch", "atsScoreCalculator", "aiMockInterviewQuestions"}
    ensures r.Some? && NeedsResume(id) ==> !r.value.MockInterviewQuestions? && r.value.resume == resumeText
    ensures r.Some? && r.value.MatchPercentage? ==> r.value.jobDescription == jobDescriptionText
    ensures r.Some? && id == "aiMockInterviewQuestions" ==> r.value == MockInterviewQuestions(jobRoleText)
  {
    if id == "resumeAnalyzer" then Some(AnalyzeResume(resumeText))
    else if id == "percentageMatch" then Some(MatchPercentage(resumeText, jobDescriptionText))
    else if id == "atsScoreCalculator" then Some(CalculateAtsScore(resumeText))
    else if id == "aiMockInterviewQuestions" then Some(MockInterviewQuestions(jobRoleText))
    else None
  }

  /** Every service of the page is dispatched: none falls to the
      "not recognized" branch. */
  lemma KnownServicesDispatch(s: Service, resumeText: string, jobDescriptionText: string, jobRoleText: string)
    requires s in ServicesData
    ensures Dispatch(s.id, resumeText, jobDescriptionText, jobRoleText).Some?
  {
  }

  function FailedRequestMessage(title: string): string {
    "Failed to process your request for " + title + ". Please try again."
  }

  const DefaultFileError := "Failed to process file."

  // ---------------------------------------------------------------- badge

  datatype BadgeColor = Green | Yellow | Red

  function BadgeClass(c: BadgeColor): string {
    match c
    case Green => "bg-green-500 text-green-50"
    case Yellow => "bg-yellow-500 text-yellow-50"
    case Red => "bg-red-500 text-red-50"
  }

  /** A status reads as a pass (green) or a partial result (yellow). */
  predicate StatusStrong(status: string) {
    var s := Lower(status);
    Contains(s, "strong") || Contains(s, "good") || Contains(s, "excellent") || Contains(s, "pass")
  }

  predicate StatusPartial(status: string) {
    var s := Lower(status);
    Contains(s, "partial") || Contains(s, "fair")
  }

  /** The badge of one breakdown entry: a score decides by its thresholds;
      without a score a non-empty status decides by its words. */
  function Badge(score: Option<int>, status: Option<string>): (r: BadgeColor)
    ensures score.Some? ==> (r == Green <==> score.value >= 80)
    ensures score.Some? ==> (r == Yellow <==> 60 <= score.value < 80)
    ensures score.Some? ==> (r == Red <==> score.value < 60)
    ensures score.None? && (status.None? || status.value == "") ==> r == Red
    ensures score.None? && status.Some? && status.value != "" ==>
      (r == Green <==> StatusStrong(status.value))
      && (r == Yellow <==> !StatusStrong(status.value) && StatusPartial(status.value))
  {
    if score.Some? && score.value >= 80 then Green
    else if score.Some? && score.value >= 60 then Yellow
    else if score.Some? then Red
    else if status.Some? && status.value != "" && StatusStrong(status.value) then Green
    else if status.Some? && status.value != "" && StatusPartial(status.value) then Yellow
    else Red
  }

  function Rank(c: BadgeColor): nat {
    match c
    case Red => 0
    case Yellow => 1
    case Green => 2
  }

  /** A higher score never gets a worse badge, and with a score the status
      plays no part. */
  lemma BadgeMonotone(a: int, b: int, s1: Option<string>, s2: Option<string>)
    requires a <= b
    ensures Rank(Badge(Some(a), s1)) <= Rank(Badge(Some(b), s2))
    ensures Badge(Some(a), s1) == Badge(Some(a), s2)
  {
  }

  /** The badge text: `<score>/100`, or the status when there is no score. */
  function BadgeLabel(score: Option<int>, status: Option<string>): (r: Option<string>)
    ensures score.Some? ==> r == Some(IntToString(score.value) + "/100")
    ensures score.Some? ==> EndsWith(r.value, "/100")
    ensures score.None? ==> r == status
  {
    if score.Some? then
      var text := IntToString(score.value) + "/100";
      assert text[|text| - 4..] == "/100";
      Some(text)
    else status
  }

  // ---------------------------------------------------------------- feedback HTML

  /** Feedback as HTML: blank lines become two breaks, other newlines one. */
  function RenderFeedback(feedback: string): (r: string)
    ensures '\n' !in r
  {
    NoNewlineAfterReplace(ReplaceAll(feedback, "\n\n", "<br/><br/>"), "<br />");
    ReplaceAll(ReplaceAll(feedback, "\n\n", "<br/><br/>"), "\n", "<br />")
  }

  lemma {:induction false} NoNewlineAfterReplace(s: string, rep: string)
    requires '\n' !in rep
    ensures '\n' !in ReplaceAll(s, "\n", rep)
    decreases |s|
  {
    if s != [] {
      if StartsWith(s, "\n") {
        NoNewlineAfterReplace(s[1..], rep);
      } else {
        assert s[0] != '\n';
        NoNewlineAfterReplace(s[1..], rep);
      }
    }
  }

  /** A blank line between two newline-free lines becomes two breaks. */
  lemma RenderBlankLine(a: string, b: string)
    requires '\n' !in a && '\n' !in b
    ensures RenderFeedback(a + "\n\n" + b) == a + "<br/><br/>" + b
  {
    var bb := "<br/><br/>";
    var tail := "\n\n" + b;
    assert a + "\n\n" + b == a + tail;
    ReplaceAllSkips(a, tail, "\n\n", bb);
    assert tail[2..] == b && StartsWith(tail, "\n\n");
    RenderWithoutNewlines(b);
    assert ReplaceAll(tail, "\n\n", bb) == bb + b;
    var once := a + bb + b;
    assert a + (bb + b) == once;
    assert '\n' !in once by {
      forall i | 0 <= i < |once| ensures once[i] != '\n' {
        if i < |a| {
          assert once[i] == a[i];
        } else if i < |a| + |bb| {
          assert once[i] == bb[i - |a|];
        } else {
          assert once[i] == b[i - |a| - |bb|];
        }
      }
    }
    RenderWithoutNewlines(once);
  }

  /** A single newline between two newline-free lines becomes one break. */
  lemma RenderNewline(a: string, b: string)
    requires '\n' !in a && '\n' !in b
    ensures RenderFeedback(a + "\n" + b) == a + "<br />" + b
  {
    var bb, br := "<br/><br/>", "<br />";
    var tail := "\n" + b;
    assert a + "\n" + b == a + tail;
    assert tail[1..] == b;
    ReplaceAllSkips(a, tail, "\n\n", bb);
    assert !StartsWith(tail, "\n\n") by {
      if b != [] {
        assert tail[1] == b[0];
      }
    }
    RenderWithoutNewlines(b);
    assert ReplaceAll(tail, "\n\n", bb) == [tail[0]] + ReplaceAll(tail[1..], "\n\n", bb);
    assert ReplaceAll(tail, "\n\n", bb) == tail;
    ReplaceAllSkips(a, tail, "\n", br);
    assert StartsWith(tail, "\n");
    assert ReplaceAll(tail, "\n", br) == br + b;
  }

  /** Text without newlines is rendered unchanged. */
  lemma {:induction false} RenderWithoutNewlines(s: string)
    requires '\n' !in s
    ensures ReplaceAll(s, "\n\n", "<br/><br/>") == s
    ensures ReplaceAll(s, "\n", "<br />") == s
    ensures RenderFeedback(s) == s
    decreases |s|
  {
    if s != [] {
      assert s[0] != '\n';
      assert !StartsWith(s, "\n\n");
      assert !StartsWith(s, "\n");
      assert '\n' !in s[1..] by {
        forall i | 0 <= i < |s[1..]| ensures s[1..][i] != '\n' {
          assert s[1..][i] == s[i + 1];
        }
      }
      RenderWithoutNewlines(s[1..]);
      assert [s[0]] + s[1..] == s;
    }
  }

  // ---------------------------------------------------------------- the page

  class ServicesPageState {
    var selectedService: Option<Service>
    var resumeText: string
    var jobDescriptionText: string
    var jobRoleText: string
    var isLoading: bool
    var result: Option<GeminiService.AnalysisResult>
    var error: Option<string>
    var fileName: Option<string>

    constructor ()
      ensures selectedService == None && resumeText == "" && jobDescriptionText == "" && jobRoleText == ""
      ensures !isLoading && result == None && error == None && fileName == None
    {
      selectedService := None;
      resumeText := "";
      jobDescriptionText := "";
      jobRoleText := "";
      isLoading := false;
      result := None;
      error := None;
      fileName := None;
    }

    /** Everything a service choice clears. */
    method ResetServiceState()
      modifies this
      ensures result == None && error == None && fileName == None
      ensures resumeText == "" && jobDescriptionText == "" && jobRoleText == ""
      ensures selectedService == old(selectedService) && isLoading == old(isLoading)
    {
      result := None;
      error := None;
      resumeText := "";
      jobDescriptionText := "";
      jobRoleText := "";
      fileName := None;
    }

    /** Choosing a service: an unknown id selects nothing; the inputs and the
        last outcome are cleared either way. */
    method HandleServiceSelect(serviceId: string)
      modifies this
      ensures selectedService == FindService(ServicesData, serviceId)
      ensures result == None && error == None && fileName == None
      ensures resumeText == "" && jobDescriptionText == "" && jobRoleText == ""
      ensures isLoading == old(isLoading)
    {
      selectedService := FindService(ServicesData, serviceId);
      ResetServiceState();
    }

    method SetInputs(resume: string, jobDescription: string, jobRole: string)
      modifies this
      ensures resumeText == resume && jobDescriptionText == jobDescription && jobRoleText == jobRole
      ensures selectedService == old(selectedService) && result == old(result) && error == old(error)
      ensures fileName == old(fileName) && isLoading == old(isLoading)
    {
      resumeText := resume;
      jobDescriptionText := jobDescription;
      jobRoleText := jobRole;
    }

    /** A chosen file: its text becomes the resume text; a failed read
        clears the resume text and the file name and sets the error. */
    method HandleFileChange(file: Option<string>, extraction: Extraction)
      modifies this
      ensures file.None? ==>
        resumeText == old(resumeText) && fileName == old(fileName) && error == old(error) && isLoading == old(isLoading)
      ensures file.Some? && extraction.Extracted? ==>
        resumeText == extraction.text && fileName == file && error == None && !isLoading
      ensures file.Some? && !extraction.Extracted? ==>
        resumeText == "" && fileName == None && error == Some(FailureText(extraction, DefaultFileError)) && !isLoading
      ensures selectedService == old(selectedService) && result == old(result)
      ensures jobDescriptionText == old(jobDescriptionText) && jobRoleText == old(jobRoleText)
    {
      if file.None? {
        return;
      }
      isLoading := true;
      error := None;
      fileName := file;
      if extraction.Extracted? {
        resumeText := extraction.text;
      } else {
        error := Some(FailureText(extraction, DefaultFileError));
        resumeText := "";
        fileName := None;
      }
      isLoading := false;
    }

    /** Submitting: a failed check sets its message and calls nothing; a
        recognised service's call is made once with the inputs it reads,
        and its result is shown. The three calls the service module defines
        catch their own errors, so they always show the analysis; only the
        breakdown call, whose outcome is the parameter `breakdown`, can
        fail and show the failure message. */
    method HandleSubmitRegularService(apiKey: Option<string>, remote: GeminiService.Request -> GeminiService.Reply,
                                      parse: string -> Option<GeminiService.Value>,
                                      breakdown: string -> Result<GeminiService.AnalysisResult, string>)
      returns (call: Option<ServiceCall>)
      modifies this
      ensures SubmissionError(selectedService, resumeText, jobDescriptionText, jobRoleText).Some? ==>
        call.None? && error == SubmissionError(selectedService, resumeText, jobDescriptionText, jobRoleText)
        && result == old(result) && isLoading == old(isLoading)
      ensures SubmissionError(selectedService, resumeText, jobDescriptionText, jobRoleText).None? ==>
        call == Dispatch(selectedService.value.id, resumeText, jobDescriptionText, jobRoleText) && !isLoading
      ensures SubmissionError(selectedService, resumeText, jobDescriptionText, jobRoleText).None? && call.None? ==>
        error == Some(UnrecognizedMessage) && result == None
      ensures call.Some? && call.value.AnalyzeResume? ==>
        error == None && result == Some(GeminiService.Analyze(GeminiService.ResumeCritique, apiKey, resumeText, "", remote, parse))
      ensures call.Some? && call.value.MatchPercentage? ==>
        error == None && result == Some(GeminiService.Analyze(GeminiService.PercentageMatch, apiKey, resumeText, jobDescriptionText, remote, parse))
      ensures call.Some? && call.value.MockInterviewQuestions? ==>
        error == None && result == Some(GeminiService.Analyze(GeminiService.MockInterview, apiKey, jobRoleText, "", remote, parse))
      ensures call.Some? && call.value.CalculateAtsScore? && breakdown(resumeText).Success? ==>
        result == Some(breakdown(resumeText).value) && error == None
      ensures call.Some? && call.value.CalculateAtsScore? && breakdown(resumeText).Failure? ==>
        error == Some(FailedRequestMessage(selectedService.value.title))
        && result == Some(GeminiService.AnalysisResult(GeminiService.Str("Error: " + breakdown(resumeText).error), None))
      ensures selectedService == old(selectedService) && resumeText == old(resumeText)
      ensures jobDescriptionText == old(jobDescriptionText) && jobRoleText == old(jobRoleText)
      ensures fileName == old(fileName)
    {
      var check := SubmissionError(selectedService, resumeText, jobDescriptionText, jobRoleText);
      if check.Some? {
        error := check;
        return None;
      }
      var service := selectedService.value;
      isLoading := true;
      result := None;
      error := None;
      call := Dispatch(service.id, resumeText, jobDescriptionText, jobRoleText);
      if call.None? {
        error := Some(UnrecognizedMessage);
        isLoading := false;
        return;
      }
      match call.value {
        case AnalyzeResume(resume) =>
          result := Some(GeminiService.Analyze(GeminiService.ResumeCritique, apiKey, resume, "", remote, parse));
        case MatchPercentage(resume, jobDescription) =>
          result := Some(GeminiService.Analyze(GeminiService.PercentageMatch, apiKey, resume, jobDescription, remote, parse));
        case MockInterviewQuestions(jobRole) =>
          result := Some(GeminiService.Analyze(GeminiService.MockInterview, apiKey, jobRole, "", remote, parse));
        case CalculateAtsScore(resume) =>
          var outcome := breakdown(resume);
          if outcome.Success? {
            result := Some(outcome.value);
          } else {
            error := Some(FailedRequestMessage(service.title));
            result := Some(GeminiService.AnalysisResult(GeminiService.Str("Error: " + outcome.error), None));
          }
      }
      isLoading := false;
    }
  }
}
