/** The profile dashboard: the resume list with its single-primary
    discipline, the text offered for analysis, coding profiles, and the
    request for AI suggestions. */
module ProfilePage {
  import opened Wrappers
  import opened Text
  import opened FileExtraction
  import GeminiService

  datatype ResumeFile = ResumeFile(id: string, name: string, uploadDate: string, isPrimary: bool, content: Option<string>)

  datatype Platform = LeetCode | CodeChef | HackerRank | GitHub

  function PlatformName(p: Platform): string {
    match p
    case LeetCode => "LeetCode"
    case CodeChef => "CodeChef"
    case HackerRank => "HackerRank"
    case GitHub => "GitHub"
  }

  datatype CodingProfile = CodingProfile(platform: Platform, username: string, url: string, summary: Option<string>)

  // ---------------------------------------------------------------- counting

  function CountPrimary(rs: seq<ResumeFile>): (n: nat)
    ensures n <= |rs|
    ensures n == 0 <==> forall i :: 0 <= i < |rs| ==> !rs[i].isPrimary
  {
    if rs == [] then 0 else (if rs[0].isPrimary then 1 else 0) + CountPrimary(rs[1..])
  }

  function CountId(rs: seq<ResumeFile>, id: string): (n: nat)
    ensures n <= |rs|
    ensures n == 0 <==> forall i :: 0 <= i < |rs| ==> rs[i].id != id
  {
    if rs == [] then 0 else (if rs[0].id == id then 1 else 0) + CountId(rs[1..], id)
  }

  predicate UniqueIds(rs: seq<ResumeFile>) {
    forall i, j :: 0 <= i < j < |rs| ==> rs[i].id != rs[j].id
  }

  /** The discipline the page keeps: a non-empty list has exactly one primary. */
  predicate SinglePrimary(rs: seq<ResumeFile>) {
    rs != [] ==> CountPrimary(rs) == 1
  }

  lemma {:induction false} CountPrimaryConcat(a: seq<ResumeFile>, b: seq<ResumeFile>)
    ensures CountPrimary(a + b) == CountPrimary(a) + CountPrimary(b)
  {
    if a == [] {
      assert a + b == b;
    } else {
      assert (a + b)[1..] == a[1..] + b;
      CountPrimaryConcat(a[1..], b);
    }
  }

  lemma UniqueTail(rs: seq<ResumeFile>)
    requires rs != [] && UniqueIds(rs)
    ensures UniqueIds(rs[1..]) && CountId(rs[1..], rs[0].id) == 0
  {
  }

  /** With unique ids an id occurs at most once. */
  lemma {:induction false} CountIdUnique(rs: seq<ResumeFile>, id: string)
    requires UniqueIds(rs)
    ensures CountId(rs, id) <= 1
  {
    if rs != [] {
      UniqueTail(rs);
      CountIdUnique(rs[1..], id);
    }
  }

  // ---------------------------------------------------------------- upload

  /** The updater of `handleResumeUpload`: append, and when the new resume
      is primary, every other entry loses its flag (an entry sharing the
      new id is replaced by the new resume). */
  function AppendUploaded(prev: seq<ResumeFile>, added: ResumeFile): (r: seq<ResumeFile>)
    ensures |r| == |prev| + 1 && r[|prev|] == added
    ensures !added.isPrimary ==> r == prev + [added]
    ensures added.isPrimary ==> forall i :: 0 <= i < |prev| && prev[i].id != added.id ==>
      r[i] == prev[i].(isPrimary := false)
  {
    var updated := prev + [added];
    if added.isPrimary then
      seq(|updated|, i requires 0 <= i < |updated| =>
        if updated[i].id == added.id then added else updated[i].(isPrimary := false))
    else updated
  }

  /** The new resume is primary exactly when the list was empty. */
  function NewResume(prev: seq<ResumeFile>, id: string, name: string, uploadDate: string, content: string): (r: ResumeFile)
    ensures r.isPrimary <==> prev == []
    ensures r.content == Some(content) && r.id == id && r.name == name
  {
    ResumeFile(id, name, uploadDate, |prev| == 0, Some(content))
  }

  /** Uploading keeps a single primary, and keeps ids unique when the new id is fresh. */
  lemma UploadKeepsSinglePrimary(prev: seq<ResumeFile>, id: string, name: string, uploadDate: string, content: string)
    requires SinglePrimary(prev)
    ensures SinglePrimary(AppendUploaded(prev, NewResume(prev, id, name, uploadDate, content)))
    ensures UniqueIds(prev) && CountId(prev, id) == 0 ==>
      UniqueIds(AppendUploaded(prev, NewResume(prev, id, name, uploadDate, content)))
  {
    var added := NewResume(prev, id, name, uploadDate, content);
    var r := AppendUploaded(prev, added);
    if prev == [] {
      assert r == [added];
    } else {
      assert r == prev + [added];
      CountPrimaryConcat(prev, [added]);
    }
  }

  // ---------------------------------------------------------------- set primary

  /** `setPrimaryResume`: only the flags change, to "has this id". */
  function SetPrimary(rs: seq<ResumeFile>, id: string): (r: seq<ResumeFile>)
    ensures |r| == |rs|
    ensures forall i :: 0 <= i < |rs| ==> r[i] == rs[i].(isPrimary := rs[i].id == id)
  {
    seq(|rs|, i requires 0 <= i < |rs| => rs[i].(isPrimary := rs[i].id == id))
  }

  lemma {:induction false} SetPrimaryCount(rs: seq<ResumeFile>, id: string)
    ensures CountPrimary(SetPrimary(rs, id)) == CountId(rs, id)
  {
    if rs != [] {
      SetPrimaryCount(rs[1..], id);
      assert SetPrimary(rs, id)[1..] == SetPrimary(rs[1..], id);
    }
  }

  /** An existing id (ids unique) leaves exactly one primary; an unknown id
      leaves none. */
  lemma SetPrimaryOutcome(rs: seq<ResumeFile>, id: string)
    ensures UniqueIds(rs) && CountId(rs, id) > 0 ==> CountPrimary(SetPrimary(rs, id)) == 1
    ensures CountId(rs, id) == 0 ==> CountPrimary(SetPrimary(rs, id)) == 0
  {
    SetPrimaryCount(rs, id);
    if UniqueIds(rs) {
      CountIdUnique(rs, id);
    }
  }

  // ---------------------------------------------------------------- delete

  /** The first entry with the given id, as `find` gives it. */
  function FindById(rs: seq<ResumeFile>, id: string): (r: Option<ResumeFile>)
    ensures r.Some? <==> CountId(rs, id) > 0
    ensures r.Some? ==> r.value in rs && r.value.id == id
  {
    if rs == [] then None else if rs[0].id == id then Some(rs[0]) else FindById(rs[1..], id)
  }

  /** `find` returns the entry at the first index that holds the id. */
  lemma {:induction false} FindByIdFirst(rs: seq<ResumeFile>, id: string, i: int)
    requires 0 <= i < |rs| && rs[i].id == id
    requires forall j :: 0 <= j < i ==> rs[j].id != id
    ensures FindById(rs, id) == Some(rs[i])
  {
    if i > 0 {
      assert rs[0].id != id;
      assert rs[1..][i - 1] == rs[i];
      FindByIdFirst(rs[1..], id, i - 1);
    }
  }

  /** `filter(r => r.id !== id)`. */
  function RemoveId(rs: seq<ResumeFile>, id: string): (r: seq<ResumeFile>)
    ensures |r| <= |rs|
  {
    if rs == [] then [] else (if rs[0].id != id then [rs[0]] else []) + RemoveId(rs[1..], id)
  }

  /** `deleteResume`'s updater: remove the entries with the id; when the
      first of them was primary and something is left, the first remaining
      entry becomes primary. */
  function DeleteResume(rs: seq<ResumeFile>, id: string): (r: seq<ResumeFile>)
    ensures var kept := RemoveId(rs, id);
      |r| == |kept| && (forall i :: 0 < i < |r| ==> r[i] == kept[i])
      && (r != [] ==> r[0] == kept[0].(isPrimary := kept[0].isPrimary || (FindById(rs, id).Some? && FindById(rs, id).value.isPrimary)))
  {
    var deletingPrimary := FindById(rs, id).Some? && FindById(rs, id).value.isPrimary;
    var kept := RemoveId(rs, id);
    if deletingPrimary && |kept| > 0 then kept[0 := kept[0].(isPrimary := true)] else kept
  }

  lemma {:induction false} RemoveIdCount(rs: seq<ResumeFile>, id: string)
    requires UniqueIds(rs)
    ensures CountPrimary(RemoveId(rs, id)) ==
      CountPrimary(rs) - (if FindById(rs, id).Some? && FindById(rs, id).value.isPrimary then 1 else 0)
  {
    if rs != [] {
      var tail := rs[1..];
      UniqueTail(rs);
      if rs[0].id == id {
        RemoveAbsent(tail, id);
        assert RemoveId(rs, id) == tail;
        assert FindById(rs, id) == Some(rs[0]);
      } else {
        RemoveIdCount(tail, id);
        var kept := RemoveId(tail, id);
        assert RemoveId(rs, id) == [rs[0]] + kept;
        assert ([rs[0]] + kept)[1..] == kept;
        assert FindById(rs, id) == FindById(tail, id);
      }
    }
  }

  /** Exactly the entries with another id survive. */
  lemma {:induction false} RemoveIdMembers(rs: seq<ResumeFile>, id: string, x: ResumeFile)
    ensures x in RemoveId(rs, id) <==> x in rs && x.id != id
  {
    if rs != [] {
      RemoveIdMembers(rs[1..], id, x);
      assert rs == [rs[0]] + rs[1..];
    }
  }

  lemma {:induction false} RemoveAbsent(rs: seq<ResumeFile>, id: string)
    requires CountId(rs, id) == 0
    ensures RemoveId(rs, id) == rs
  {
    if rs != [] {
      RemoveAbsent(rs[1..], id);
      assert [rs[0]] + rs[1..] == rs;
    }
  }

  /** Removal keeps the remaining entries in their order: it distributes
      over concatenation. */
  lemma {:induction false} RemoveIdConcat(a: seq<ResumeFile>, b: seq<ResumeFile>, id: string)
    ensures RemoveId(a + b, id) == RemoveId(a, id) + RemoveId(b, id)
  {
    if a == [] {
      assert a + b == b;
    } else {
      var ab := a + b;
      assert ab[0] == a[0] && ab[1..] == a[1..] + b;
      RemoveIdConcat(a[1..], b, id);
      var x, y := RemoveId(a[1..], id), RemoveId(b, id);
      if a[0].id != id {
        assert RemoveId(ab, id) == [a[0]] + (x + y);
        assert RemoveId(a, id) == [a[0]] + x;
        assert [a[0]] + (x + y) == ([a[0]] + x) + y;
      } else {
        assert RemoveId(ab, id) == [] + (x + y);
        assert RemoveId(a, id) == [] + x;
      }
    }
  }

  lemma {:induction false} UniqueRemove(rs: seq<ResumeFile>, id: string)
    requires UniqueIds(rs)
    ensures UniqueIds(RemoveId(rs, id))
  {
    if rs != [] {
      var tail := rs[1..];
      UniqueTail(rs);
      UniqueRemove(tail, id);
      var kept := RemoveId(tail, id);
      if rs[0].id != id {
        assert RemoveId(rs, id) == [rs[0]] + kept;
        forall x | x in kept ensures x.id != rs[0].id {
          RemoveIdMembers(tail, id, x);
        }
      }
    }
  }

  /** With unique ids, deleting keeps a single primary and unique ids;
      deleting an entry that is not primary changes no flag. */
  lemma DeleteKeepsSinglePrimary(rs: seq<ResumeFile>, id: string)
    requires UniqueIds(rs) && SinglePrimary(rs)
    ensures SinglePrimary(DeleteResume(rs, id))
    ensures UniqueIds(DeleteResume(rs, id))
    ensures !(FindById(rs, id).Some? && FindById(rs, id).value.isPrimary) ==> DeleteResume(rs, id) == RemoveId(rs, id)
  {
    var kept := RemoveId(rs, id);
    var r := DeleteResume(rs, id);
    RemoveIdCount(rs, id);
    UniqueRemove(rs, id);
    if FindById(rs, id).Some? && FindById(rs, id).value.isPrimary && |kept| > 0 {
      assert r == kept[0 := kept[0].(isPrimary := true)];
      PromoteFirst(kept);
    }
  }

  /** Making the first entry of a list without a primary the primary gives
      exactly one primary, and changes no id. */
  lemma PromoteFirst(kept: seq<ResumeFile>)
    requires kept != [] && CountPrimary(kept) == 0 && UniqueIds(kept)
    ensures CountPrimary(kept[0 := kept[0].(isPrimary := true)]) == 1
    ensures UniqueIds(kept[0 := kept[0].(isPrimary := true)])
  {
    var r := kept[0 := kept[0].(isPrimary := true)];
    assert r == [kept[0].(isPrimary := true)] + kept[1..];
    assert kept == [kept[0]] + kept[1..];
    CountPrimaryConcat([kept[0]], kept[1..]);
    CountPrimaryConcat([kept[0].(isPrimary := true)], kept[1..]);
    assert forall i :: 0 <= i < |r| ==> r[i].id == kept[i].id;
  }

  // ---------------------------------------------------------------- analysis text

  /** The primary-content effect: the content of the first primary resume,
      or the empty string when there is none or it has no content. */
  function AnalysisText(rs: seq<ResumeFile>): (r: string)
    ensures r != "" ==> exists i :: 0 <= i < |rs| && rs[i].isPrimary && rs[i].content == Some(r)
    ensures CountPrimary(rs) == 0 ==> r == ""
  {
    if rs == [] then ""
    else if rs[0].isPrimary then (if rs[0].content.Some? then rs[0].content.value else "")
    else AnalysisText(rs[1..])
  }

  /** The analysis text is the content of the first primary resume, as
      `find` picks it, or empty when that resume has no content. */
  lemma {:induction false} AnalysisTextFirstPrimary(rs: seq<ResumeFile>, i: int)
    requires 0 <= i < |rs| && rs[i].isPrimary
    requires forall j :: 0 <= j < i ==> !rs[j].isPrimary
    ensures AnalysisText(rs) == (if rs[i].content.Some? then rs[i].content.value else "")
  {
    if i > 0 {
      assert !rs[0].isPrimary;
      assert rs[1..][i - 1] == rs[i];
      AnalysisTextFirstPrimary(rs[1..], i - 1);
    }
  }

  /** Under the single-primary discipline the analysis text is the content
      of the one primary resume. */
  lemma {:induction false} AnalysisTextOfPrimary(rs: seq<ResumeFile>, i: int)
    requires 0 <= i < |rs| && rs[i].isPrimary && CountPrimary(rs) == 1
    ensures AnalysisText(rs) == (if rs[i].content.Some? then rs[i].content.value else "")
  {
    if i > 0 {
      assert rs[1..][i - 1].isPrimary;
      assert !rs[0].isPrimary;
      AnalysisTextOfPrimary(rs[1..], i - 1);
    }
  }

  // ---------------------------------------------------------------- coding profiles

  const PendingSummary := "New Profile - Summary Pending"

  /** The platform's segment of a profile URL. */
  function PlatformPath(p: Platform): string {
    match p
    case LeetCode => "leetcode"
    case CodeChef => "codechef"
    case HackerRank => "hackerrank"
    case GitHub => "github"
  }

  /** The segment is the platform's display name in lower case. */
  lemma PlatformPathIsLower(p: Platform)
    ensures PlatformPath(p) == Lower(PlatformName(p))
  {
    var l := Lower(PlatformName(p));
    match p
    case LeetCode => assert forall i :: 0 <= i < 8 ==> l[i] == "leetcode"[i];
    case CodeChef => assert forall i :: 0 <= i < 8 ==> l[i] == "codechef"[i];
    case HackerRank => assert forall i :: 0 <= i < 10 ==> l[i] == "hackerrank"[i];
    case GitHub => assert forall i :: 0 <= i < 6 ==> l[i] == "github"[i];
  }

  /** The example URL of a new profile: platform segment, then the
      username as typed. */
  function ProfileUrl(p: Platform, username: string): string {
    "https://example.com/" + PlatformPath(p) + "/" + username
  }

  /** A profile as the form adds it: its example URL and a pending summary. */
  function NewProfile(p: Platform, username: string): CodingProfile {
    CodingProfile(p, username, ProfileUrl(p, username), Some(PendingSummary))
  }

  /** The URL is the fixed host, the platform's name in lower case and the
      username exactly as typed, which it ends with. */
  lemma ProfileUrlEndsWithUsername(p: Platform, username: string)
    ensures ProfileUrl(p, username) == "https://example.com/" + Lower(PlatformName(p)) + "/" + username
    ensures EndsWith(ProfileUrl(p, username), username)
    ensures Contains(ProfileUrl(p, username), username)
  {
    var head := "https://example.com/" + PlatformPath(p) + "/";
    var url := ProfileUrl(p, username);
    assert url == head + username;
    assert url[|url| - |username|..] == username;
    ContainsMiddle(head, username, "");
    assert head + username + "" == url;
    PlatformPathIsLower(p);
  }

  // ---------------------------------------------------------------- the page

  const NoContentMessage := "Please select a resume with content or paste resume text into the text area to get suggestions."
  const DefaultFileError := "Failed to process file."

  class ProfilePageState {
    var resumes: seq<ResumeFile>
    var resumeContentForAnalysis: string
    var fileProcessingError: Option<string>
    var codingProfiles: seq<CodingProfile>
    var newProfilePlatform: Platform
    var newProfileUsername: string
    var aiSuggestions: Option<GeminiService.AnalysisResult>
    var isLoadingSuggestions: bool
    var suggestionsError: Option<string>

    constructor ()
      ensures resumes == [] && resumeContentForAnalysis == "" && fileProcessingError == None
      ensures codingProfiles == [] && newProfilePlatform == GitHub && newProfileUsername == ""
      ensures aiSuggestions == None && !isLoadingSuggestions && suggestionsError == None
    {
      resumes := [];
      resumeContentForAnalysis := "";
      fileProcessingError := None;
      codingProfiles := [];
      newProfilePlatform := GitHub;
      newProfileUsername := "";
      aiSuggestions := None;
      isLoadingSuggestions := false;
      suggestionsError := None;
    }

    /** The primary-content effect, run after every change of the list. */
    method RefreshAnalysisText()
      modifies this
      ensures resumeContentForAnalysis == AnalysisText(resumes)
      ensures resumes == old(resumes) && codingProfiles == old(codingProfiles)
      ensures fileProcessingError == old(fileProcessingError) && aiSuggestions == old(aiSuggestions)
      ensures suggestionsError == old(suggestionsError) && isLoadingSuggestions == old(isLoadingSuggestions)
      ensures newProfilePlatform == old(newProfilePlatform) && newProfileUsername == old(newProfileUsername)
    {
      var rs := resumes;
      var i := 0;
      var found := false;
      var text := "";
      while i < |rs| && !found
        invariant 0 <= i <= |rs|
        invariant !found ==> text == "" && AnalysisText(rs) == AnalysisText(rs[i..])
        invariant found ==> text == AnalysisText(rs)
      {
        if rs[i].isPrimary {
          found := true;
          text := if rs[i].content.Some? then rs[i].content.value else "";
        } else {
          assert rs[i..][1..] == rs[i + 1..];
        }
        i := i + 1;
      }
      resumeContentForAnalysis := text;
    }

    /** A chosen file: on extracted text the resume is appended (primary iff
        the list was empty); on failure only the error is set. No file, no
        change. */
    method HandleResumeUpload(file: Option<string>, extraction: Extraction, id: string, uploadDate: string)
      modifies this
      ensures file.None? ==>
        resumes == old(resumes) && fileProcessingError == old(fileProcessingError)
        && resumeContentForAnalysis == old(resumeContentForAnalysis) && isLoadingSuggestions == old(isLoadingSuggestions)
      ensures file.Some? && extraction.Extracted? ==>
        resumes == AppendUploaded(old(resumes), NewResume(old(resumes), id, file.value, uploadDate, extraction.text))
        && fileProcessingError == None
        && resumeContentForAnalysis == AnalysisText(resumes)
      ensures file.Some? && !extraction.Extracted? ==>
        resumes == old(resumes) && fileProcessingError == Some(FailureText(extraction, DefaultFileError))
        && resumeContentForAnalysis == old(resumeContentForAnalysis)
      ensures file.Some? ==> !isLoadingSuggestions
      ensures codingProfiles == old(codingProfiles) && aiSuggestions == old(aiSuggestions)
      ensures suggestionsError == old(suggestionsError)
      ensures newProfilePlatform == old(newProfilePlatform) && newProfileUsername == old(newProfileUsername)
    {
      if file.None? {
        return;
      }
      fileProcessingError := None;
      isLoadingSuggestions := true;
      if extraction.Extracted? {
        var added := NewResume(resumes, id, file.value, uploadDate, extraction.text);
        resumes := AppendUploaded(resumes, added);
        RefreshAnalysisText();
      } else {
        fileProcessingError := Some(FailureText(extraction, DefaultFileError));
      }
      isLoadingSuggestions := false;
    }

    method SetPrimaryResume(id: string)
      modifies this
      ensures resumes == SetPrimary(old(resumes), id)
      ensures resumeContentForAnalysis == AnalysisText(resumes)
      ensures codingProfiles == old(codingProfiles) && aiSuggestions == old(aiSuggestions)
      ensures fileProcessingError == old(fileProcessingError) && suggestionsError == old(suggestionsError)
      ensures isLoadingSuggestions == old(isLoadingSuggestions)
      ensures newProfilePlatform == old(newProfilePlatform) && newProfileUsername == old(newProfileUsername)
    {
      resumes := SetPrimary(resumes, id);
      RefreshAnalysisText();
    }

    method DeleteResumeById(id: string)
      modifies this
      ensures resumes == DeleteResume(old(resumes), id)
      ensures resumeContentForAnalysis == AnalysisText(resumes)
      ensures codingProfiles == old(codingProfiles) && aiSuggestions == old(aiSuggestions)
      ensures fileProcessingError == old(fileProcessingError) && suggestionsError == old(suggestionsError)
      ensures isLoadingSuggestions == old(isLoadingSuggestions)
      ensures newProfilePlatform == old(newProfilePlatform) && newProfileUsername == old(newProfileUsername)
    {
      resumes := DeleteResume(resumes, id);
      RefreshAnalysisText();
    }

    /** Typing into the analysis text area. */
    method EditAnalysisText(text: string)
      modifies this
      ensures resumeContentForAnalysis == text && resumes == old(resumes)
      ensures codingProfiles == old(codingProfiles) && aiSuggestions == old(aiSuggestions)
      ensures fileProcessingError == old(fileProcessingError) && suggestionsError == old(suggestionsError)
      ensures isLoadingSuggestions == old(isLoadingSuggestions)
      ensures newProfilePlatform == old(newProfilePlatform) && newProfileUsername == old(newProfileUsername)
    {
      resumeContentForAnalysis := text;
    }

    method SetNewProfile(p: Platform, username: string)
      modifies this
      ensures newProfilePlatform == p && newProfileUsername == username
      ensures codingProfiles == old(codingProfiles) && resumes == old(resumes)
      ensures resumeContentForAnalysis == old(resumeContentForAnalysis) && aiSuggestions == old(aiSuggestions)
      ensures fileProcessingError == old(fileProcessingError) && suggestionsError == old(suggestionsError)
      ensures isLoadingSuggestions == old(isLoadingSuggestions)
    {
      newProfilePlatform := p;
      newProfileUsername := username;
    }

    /** A blank username, one that is all white space and so trims to the
        empty string (`Text.TrimEmptyIffAllSpace`), is ignored; otherwise the profile
        is appended with its example URL and pending summary, and the input
        is cleared. */
    method AddCodingProfile()
      modifies this
      ensures AllSpace(old(newProfileUsername)) ==>
        codingProfiles == old(codingProfiles) && newProfileUsername == old(newProfileUsername)
      ensures !AllSpace(old(newProfileUsername)) ==>
        codingProfiles == old(codingProfiles) + [NewProfile(newProfilePlatform, old(newProfileUsername))]
        && newProfileUsername == ""
      ensures resumes == old(resumes) && newProfilePlatform == old(newProfilePlatform)
      ensures resumeContentForAnalysis == old(resumeContentForAnalysis) && aiSuggestions == old(aiSuggestions)
      ensures fileProcessingError == old(fileProcessingError) && suggestionsError == old(suggestionsError)
      ensures isLoadingSuggestions == old(isLoadingSuggestions)
    {
      var platform, username := newProfilePlatform, newProfileUsername;
      if AllSpace(username) {
        return;
      }
      var added := NewProfile(platform, username);
      codingProfiles := codingProfiles + [added];
      newProfileUsername := "";
    }

    /** Without analysis text only the guard message is set and nothing is
        requested; otherwise the suggestions are those of the service for
        that text. */
    method FetchAiSuggestions(apiKey: Option<string>, remote: GeminiService.Request -> GeminiService.Reply,
                              parse: string -> Option<GeminiService.Value>)
      modifies this
      ensures old(resumeContentForAnalysis) == "" ==>
        suggestionsError == Some(NoContentMessage) && aiSuggestions == old(aiSuggestions)
        && isLoadingSuggestions == old(isLoadingSuggestions)
      ensures old(resumeContentForAnalysis) != "" ==>
        suggestionsError == None && !isLoadingSuggestions
        && aiSuggestions == Some(GeminiService.Analyze(GeminiService.ResumeSuggestions, apiKey,
                                   resumeContentForAnalysis, "", remote, parse))
      ensures resumes == old(resumes) && resumeContentForAnalysis == old(resumeContentForAnalysis)
      ensures fileProcessingError == old(fileProcessingError) && codingProfiles == old(codingProfiles)
      ensures newProfilePlatform == old(newProfilePlatform) && newProfileUsername == old(newProfileUsername)
    {
      if resumeContentForAnalysis == "" {
        suggestionsError := Some(NoContentMessage);
        return;
      }
      isLoadingSuggestions := true;
      suggestionsError := None;
      aiSuggestions := None;
      var result := GeminiService.Analyze(GeminiService.ResumeSuggestions, apiKey, resumeContentForAnalysis, "", remote, parse);
      aiSuggestions := Some(result);
      isLoadingSuggestions := false;
    }
  }
}
