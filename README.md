# Talent X front-end logic, modelled in Dafny

Talent X is a career-services web front-end. It offers a job and internship
browser over a fixed mock listing, a mock sign-in backed by the browser's
key-value storage, a profile dashboard with resumes and coding profiles, and
AI resume tools that send a prompt to a generative-AI endpoint and turn its
JSON reply into a `{feedback, suggestions}` record.

The project models the logic of the front-end, file by file:

| module | file | what it models |
|---|---|---|
| `Wrappers` | wrappers.dfy | `Option` and `Result` |
| `Text` | text.dfy | The JavaScript string built-ins the code relies on: ASCII `toLowerCase`, `includes`, `trim` (with the ECMAScript white-space set), the regular-expression classes `\s` and `\w`, `join`, global `replace` and `String(n)` for integers |
| `JobService` | job_service.dfy | The listing store: the mock listings, the internship partition, per-company counts, the three-part filter, the queries and the featured slices |
| `JobCard` | job_card.dfy | The job-type badge and the "first five skills, then +N more" rule |
| `Navbar` | navbar.dfy | Link visibility by sign-in state, the Logout entry, and the mobile-menu flag (a class) |
| `AuthContext` | auth_context.dfy | The session provider: a class holding the session state and the storage map, with restore-on-mount, `login`, `logout` and `signup` |
| `AuthPage` | auth_page.dfy | The sign-in / sign-up form: its validation chain, the social logins and the view toggle (a class over the provider) |
| `ContactPage` | contact_page.dfy | The contact form: field edits, validation and the mock submission (a class) |
| `GeminiService` | gemini_service.dfy | The five AI tasks around the network call: the not-configured short-circuit, prompts, code-fence stripping, the parse-failure marker, the per-task field mapping with its `||` defaults, and the catch-all error results |
| `FileExtraction` | file_extraction.dfy | The outcome of reading an uploaded file, as the pages receive it |
| `ProfilePage` | profile_page.dfy | The resume list and its single-primary discipline, the text offered for analysis, coding profiles and the suggestions request (a class) |
| `ServicesPage` | services_page.dfy | The services page: request checks and dispatch, service selection, file reading, the score badge and the feedback-to-HTML rewrite (a class) |

Decisions that shape the model:

- JavaScript values read from a parsed reply are a `Value` datatype: `undefined`, `null`, booleans, integers, strings, arrays and objects.
  - Truthiness, `a || b`, property reads and `String(v)` are written out over it.
  - A result's `feedback` is a `Value`, because `parsed.feedback || "…"` passes any truthy JSON value through unchanged.
- `JSON.parse` is a parameter `parse: string -> Option<Value>`, where `None` stands for a thrown `SyntaxError`.
- The endpoint is a parameter `remote: Request -> Reply`. Its reply is text, a response without text, or a thrown error. Here is what the code does in each case:
  - A parsed `null` (or a reply with no text) makes the code throw a `TypeError` inside its own `try`. The model turns that into the task's error feedback, as the code does.
  - "Nothing is sent without a key" is stated as: the result does not depend on `remote`.
- The fence regular expression `/^```(\w*)?\s*\n?(.*?)\n?\s*```$/s` is characterised by hand:
  - It matches exactly when the trimmed reply is at least six characters long and starts and ends with three backticks.
  - Its body group is the text between the fences, with the maximal run of word characters and the surrounding white space removed.
  - An empty body group is falsy, so the code then parses the whole trimmed reply.
- The ATS service card promises "a breakdown by key parameters" (`pages/ServicesPage.tsx:44`), and the result type has a `detailedBreakdown` field for it (`types.ts:101`). The code never produces one:
  - `ServicesPage.tsx` imports `calculateAtsScoreWithGemini`, which `services/geminiService.ts` does not define.
  - The service module only has the ATS *estimate* task, which never sets a breakdown.
  - The model follows the code. The breakdown call is kept as the `CalculateAtsScore` dispatch value, and its outcome is a parameter of the page.
- The services page offers four services (`pages/ServicesPage.tsx:41-47`), while the service module exports five calls. The fifth, resume suggestions, is used by the profile page. All five are modelled.
- A listing's posting date comes from the clock, so it is kept as a number of days.

## Model

| member | source | states |
|---|---|---|
| JobService.JobTypeValueInjective | types.ts:16-22 | The five job types carry five distinct string values, so comparing values is comparing types |
| JobService.FilterListings | services/jobService.ts:89-102 | The result is no longer than the input; a listing is in it exactly when it is in the input and passes the keyword, location and job-type tests together |
| Text.ContainsIff | services/jobService.ts:92-97 | `includes` as computed (left to right) holds exactly when some offset holds the searched text |
| JobService.FilterIsSubsequence | services/jobService.ts:90 | The filter result is a subsequence of its input: nothing is added, duplicated or reordered |
| JobService.FilterWithoutFilters | services/jobService.ts:91-98 | With every filter field absent or the empty string (falsy), the result is the input itself |
| JobService.FilterConcat | services/jobService.ts:90 | Filtering distributes over concatenation, so kept listings keep their relative order |
| JobService.FilterIdempotent | services/jobService.ts:89-102 | Filtering an already filtered list changes nothing |
| JobService.NarrowedMatch | services/jobService.ts:91-100 | A listing that passes a narrower filter passes the wider one (keyword and location containment, same job type) |
| JobService.FilterNarrowing | services/jobService.ts:100 | Adding or narrowing a filter never enlarges the result: the narrower result is a subsequence of the wider one |
| JobService.FilterCaseInsensitive | services/jobService.ts:91-97 | Keyword and location filters that agree after ASCII lowering give the same result |
| JobService.SelectMembers | services/jobService.ts:76-77 | A listing is on the internship side exactly when it is in the list and is an internship, and on the other side exactly when it is in the list and is not |
| JobService.InternshipPartition | services/jobService.ts:76-77 | The two sides together hold every listing exactly as often as the input (multiset equality) |
| JobService.MockInternshipsValue | services/jobService.ts:76 | The internship list is listings 4 and 6, in that order |
| JobService.MockNonInternshipsValue | services/jobService.ts:77 | The non-internship list is listings 1, 2, 3 and 5, in that order |
| JobService.CountByCompanyIsMultiplicity | services/jobService.ts:81-85 | The per-company count is the multiplicity of that exact name among the listings' company names |
| JobService.MockCompanyCounts | services/jobService.ts:80-86 | Each mock company's `activeListings` is the number of mock listings naming it exactly |
| JobService.GetJobs | services/jobService.ts:105-108 | Every job returned is a mock listing that is not an internship and passes the filters |
| JobService.GetInternships | services/jobService.ts:110-113 | Every internship returned is a mock listing of type Internship that passes the filters |
| JobService.SelectAfterFilter | services/jobService.ts:105-118 | Filtering and taking one side of the internship partition commute |
| JobService.QueriesPartitionAllListings | services/jobService.ts:105-118 | Jobs and internships for a filter together are exactly all matching listings (multiset equality) |
| JobService.SliceFront | services/jobService.ts:120-133 | `slice(0, limit)` is a prefix of length min(limit, length) for a non-negative limit; a negative limit counts from the back |
| JobService.FeaturedDefaults | services/jobService.ts:120-133 | With the default limits the featured lists are jobs 1-3, internships 4 and 6, and the first four companies |
| JobCard.JobTypeClass | components/JobCard.tsx:32-40 | Full-time is green, Part-time yellow, Contract blue and Internship purple, each if and only if; Temporary falls to gray |
| JobCard.ShownSkills | components/JobCard.tsx:81 | At most five skills are shown, and they are the front of the list in order; five or fewer are all shown, and more than five show exactly five |
| JobCard.HiddenSkillCount | components/JobCard.tsx:84 | "+N more" appears exactly when there are more than five skills, and N is the number of skills minus five |
| JobCard.SkillsAccountedFor | components/JobCard.tsx:77-85 | Shown skills plus N is the number of skills; the section is rendered exactly when something is shown |
| Navbar.FilterNavLinksMembers | components/Navbar.tsx:28-32 | A link is shown exactly when it is in the list and visible; an `authRequired` link only when signed in, a `hideWhenAuth` link only when signed out |
| Navbar.FilterKeepsPlainLinks | components/Navbar.tsx:28-32 | Links with neither flag are always kept, unchanged and in order |
| Navbar.FilterConcat | components/Navbar.tsx:28-32 | The link filter distributes over concatenation: order is preserved |
| Navbar.FilterSignedOut | components/Navbar.tsx:28-32 | Over the application's links, signed out shows the six public links and then "Login/Sign Up" |
| Navbar.FilterSignedIn | components/Navbar.tsx:28-32 | Over the application's links, signed in shows the six public links and then "Profile" |
| Navbar.NavLinksPerState | constants.ts:6-15 | The names shown: the six public names plus "Login/Sign Up" when signed out, plus "Profile" when signed in |
| Navbar.Entries | components/Navbar.tsx:60-67 | The Logout entry is present exactly when signed in; the bar has 8 entries signed in and 7 signed out |
| Navbar.NavbarState.constructor | components/Navbar.tsx:26 | The mobile menu starts closed |
| Navbar.NavbarState.ToggleMenu | components/Navbar.tsx:73 | The menu button flips the menu flag |
| Navbar.NavbarState.ChooseMobileLink | components/Navbar.tsx:91 | Choosing a link in the mobile menu closes it |
| Navbar.NavbarState.DesktopLogout | components/Navbar.tsx:60-67 | The desktop Logout signs out and clears both storage keys; the menu flag is untouched |
| Navbar.NavbarState.MobileLogout | components/Navbar.tsx:101-104 | The mobile Logout signs out, clears both storage keys and closes the menu |
| AuthContext.Restore | context/AuthContext.tsx:14-25 | Both keys present and non-empty restore a signed-in state with the mock id, stored email and stored token; otherwise the state is unchanged; coherence is preserved |
| AuthContext.StorageAfterLogin | context/AuthContext.tsx:29-30 | Login writes the token and the email under their keys and leaves every other key as it was |
| AuthContext.StorageAfterLogout | context/AuthContext.tsx:35-36 | Logout removes both keys and leaves every other key as it was |
| AuthContext.LoginSurvivesReload | context/AuthContext.tsx:14-32 | After a login, a reload restores the same signed-in state exactly when email and token are non-empty, and is signed out otherwise |
| AuthContext.LogoutSurvivesReload | context/AuthContext.tsx:14-38 | After a logout, a reload stays signed out, whatever was stored before |
| AuthContext.LogoutIdempotent | context/AuthContext.tsx:34-38 | Logging out twice leaves storage as logging out once |
| AuthContext.AuthProvider.constructor | context/AuthContext.tsx:7-25 | Mounting starts signed out, then restores from storage; the state is coherent |
| AuthContext.AuthProvider.RestoreSession | context/AuthContext.tsx:14-25 | The mount effect sets the state to the restore of the current state over storage, keeps storage, and keeps coherence |
| AuthContext.AuthProvider.Login | context/AuthContext.tsx:27-32 | Storage gets both keys written; the state becomes signed in with the mock id, the email and the token |
| AuthContext.AuthProvider.Logout | context/AuthContext.tsx:34-38 | Storage loses both keys; the state becomes signed out with no user or token, from any state |
| AuthContext.AuthProvider.Signup | context/AuthContext.tsx:40-43 | Sign-up has exactly the effect of login |
| AuthContext.AuthProvider.Reload | context/AuthContext.tsx:14-25 | A freshly mounted provider over the same storage is signed in exactly when both keys are non-empty, and its state is coherent |
| AuthPage.Validate | pages/AuthPage.tsx:23-40 | Each message is returned exactly under its condition, in order: missing field, no '@', mismatch (sign-up only), password shorter than 6; no message exactly when all hold |
| AuthPage.LoginViewIgnoresConfirmation | pages/AuthPage.tsx:32-35 | In the login view the confirmation field plays no part |
| AuthPage.SignupStricterThanLogin | pages/AuthPage.tsx:32-40 | A form that passes in the sign-up view passes in the login view |
| AuthPage.SocialLoginEmail | pages/AuthPage.tsx:63 | The social address is the lowered provider name followed by "user@example.com", and contains '@' |
| AuthPage.GoogleLoginEmail | pages/AuthPage.tsx:63 | Google signs in as "googleuser@example.com" |
| AuthPage.LinkedInLoginEmail | pages/AuthPage.tsx:63 | LinkedIn signs in as "linkedinuser@example.com" |
| AuthPage.AuthPageState.constructor | pages/AuthPage.tsx:9-13 | The page starts in the login view with empty fields and no error |
| AuthPage.AuthPageState.SetEmail | pages/AuthPage.tsx:88 | Typing sets the email only |
| AuthPage.AuthPageState.SetPassword | pages/AuthPage.tsx:102 | Typing sets the password only |
| AuthPage.AuthPageState.SetConfirmPassword | pages/AuthPage.tsx:117 | Typing sets the confirmation only |
| AuthPage.AuthPageState.HandleSubmit | pages/AuthPage.tsx:19-54 | The error becomes the validation result; a failing form leaves the session untouched; a passing one signs in with "mock_auth_token", and a reload restores that session |
| AuthPage.AuthPageState.HandleSocialLogin | pages/AuthPage.tsx:56-65 | The error is cleared and the session becomes the provider's address with "mock_social_token", which a reload restores |
| AuthPage.AuthPageState.ToggleView | pages/AuthPage.tsx:167 | The view flips, the error is cleared, and the fields are kept |
| ContactPage.WithFieldLaws | pages/ContactPage.tsx:11-13 | An edited field reads back the new value, the other three read as before, and writing back a field's own value leaves the form unchanged |
| ContactPage.Validate | pages/ContactPage.tsx:18-25 | "Please fill in all fields." exactly when some field is empty; the email message exactly when all are filled and the email has no '@'; no message otherwise |
| ContactPage.EmptyFormRejected | pages/ContactPage.tsx:18-21 | The cleared form is refused with the missing-field message |
| ContactPage.ContactPageState.constructor | pages/ContactPage.tsx:6-8 | The form starts empty, not submitted, with no error |
| ContactPage.ContactPageState.HandleChange | pages/ContactPage.tsx:11-13 | Only the named field changes |
| ContactPage.ContactPageState.HandleSubmit | pages/ContactPage.tsx:15-32 | A failing form keeps its fields and shows the message; a passing one clears the error, is marked submitted, has all four fields reset, and hides the form (line 45) |
| ContactPage.ContactPageState.ResetSubmitted | pages/ContactPage.tsx:31 | The acknowledgement ends, the form is shown again (line 45), and the form contents and error are kept |
| ContactPage.ContactPageState.DismissError | pages/ContactPage.tsx:43 | Closing the alert clears the error only |
| GeminiService.JoinStrings | services/geminiService.ts:115-116 | `join` over an array of strings is the plain string join |
| GeminiService.FenceBody | services/geminiService.ts:19-21 | The fence pattern matches exactly when the text is at least six characters long and starts and ends with three backticks; the body group it yields is its own trim |
| GeminiService.FenceBodyFraming | services/geminiService.ts:19-21 | A matched text is fence, tag (the whole leading run of word characters), white space, the body group, white space and fence, and the body has no white space at either end |
| GeminiService.JsonCandidate | services/geminiService.ts:18-23 | The parser input is the non-empty fenced body when there is one and the trimmed reply otherwise; either way it is its own trim |
| GeminiService.FencedReplyYieldsBody | services/geminiService.ts:18-23 | A reply fenced with any tag and any white space around fences and body gives exactly its body |
| GeminiService.UnfencedReplyTrimmed | services/geminiService.ts:18-23 | A reply that does not start with a fence is parsed as the trimmed reply |
| GeminiService.EmptyFenceKept | services/geminiService.ts:21 | A fence around a tag and white space alone is not stripped, because the empty body group is falsy |
| GeminiService.ParseJsonFromText | services/geminiService.ts:17-32 | The parser's value when it accepts the candidate; otherwise a value whose `error` is truthy and whose `originalText` is the untrimmed reply |
| GeminiService.Prompt | services/geminiService.ts:95 | Every task's prompt contains its input verbatim (the match prompt here and those at lines 140, 184 and 227); the match prompt contains the job description too |
| GeminiService.ElementsLine | services/geminiService.ts:114-117 | A falsy list adds no line; an array adds the one line caption + its elements joined with ", "; a truthy non-array throws (no `join`) |
| GeminiService.MapFields | services/geminiService.ts:112-118 | Every task but the match always yields suggestions; the match yields 0 to 2 suggestion lines and fails exactly when a present element list cannot be joined |
| GeminiService.Respond | services/geminiService.ts:72-75 | A thrown call or a reply without text becomes the task's error prefix plus the message; a result without suggestions always has string feedback |
| GeminiService.Analyze | services/geminiService.ts:34-76 | Without a truthy key the result is the fixed not-configured feedback and no suggestions; with one it is the response to the task's prompt |
| GeminiService.NotConfiguredMakesNoCall | services/geminiService.ts:35 | Without a key the result does not depend on the endpoint: no call is made |
| GeminiService.UnparsableReplyReported | services/geminiService.ts:24-31 | A reply the parser rejects gives "Error processing response: Failed to parse JSON. Raw: " followed by the raw reply, with no suggestions |
| GeminiService.FencedReplyParsed | services/geminiService.ts:17-25 | A fenced reply is read as the parser's value of its body |
| GeminiService.NullReplyReported | services/geminiService.ts:61-75 | A JSON `null` reply throws on the `error` read and ends as the task's error prefix plus the TypeError message |
| GeminiService.ZeroMatchScoreShownAsNotAvailable | services/geminiService.ts:113 | A match score of 0 is falsy and is shown as "N/A" |
| GeminiService.ErrorFieldTakesPrecedence | services/geminiService.ts:107-110 | A reply whose own JSON has a truthy `error` is reported as a processing error, with "undefined" as the raw text |
| GeminiService.FalsyFieldsDefault | services/geminiService.ts:67-70 | Absent or falsy fields give each task's default feedback and suggestions (those at lines 67-70, 112-118, 157-160, 201-204 and 242-245) |
| GeminiService.TruthyFieldsPassThrough | services/geminiService.ts:242-245 | The critique and the suggestions task pass a truthy `feedback` and a truthy `suggestions` through unchanged (also lines 67-70) |
| GeminiService.InterviewFieldsPassThrough | services/geminiService.ts:201-204 | The interview task passes a truthy `feedback` and truthy `questions` through unchanged |
| GeminiService.AtsFieldsMapped | services/geminiService.ts:157-160 | The ATS estimate's feedback is "ATS Score Estimate: " + the score + a blank line + the feedback text, and truthy suggestions pass through |
| GeminiService.MatchFieldsMapped | services/geminiService.ts:112-118 | The match feedback is "Match Score: " + score + "%", a blank line and the feedback; the suggestions are "Matching: " + the joined matching elements, then "Missing: " + the joined missing ones, in that order |
| FileExtraction.FailureText | pages/ServicesPage.tsx:96 | A thrown `Error` shows its message; anything else thrown shows the fallback text |
| ProfilePage.AppendUploaded | pages/ProfilePage.tsx:122-128 | The new resume is appended at the end; a non-primary one leaves the rest unchanged; a primary one clears every other entry's flag |
| ProfilePage.NewResume | pages/ProfilePage.tsx:114-120 | The new resume is primary exactly when the list was empty, and carries the extracted text |
| ProfilePage.UploadKeepsSinglePrimary | pages/ProfilePage.tsx:118-128 | An upload keeps "a non-empty list has exactly one primary", and keeps ids unique when the new id is fresh |
| ProfilePage.SetPrimary | pages/ProfilePage.tsx:142-145 | Length, order and every field are kept except the flag, which becomes "has this id" |
| ProfilePage.SetPrimaryCount | pages/ProfilePage.tsx:143 | After setting the primary, the number of primaries is the number of entries with that id |
| ProfilePage.SetPrimaryOutcome | pages/ProfilePage.tsx:142-145 | An existing id (ids unique) leaves exactly one primary; an unknown id leaves none |
| ProfilePage.FindByIdFirst | pages/ProfilePage.tsx:149 | `find` returns the entry at the first index holding the id |
| ProfilePage.RemoveIdMembers | pages/ProfilePage.tsx:150 | Exactly the entries with another id survive the removal |
| ProfilePage.RemoveIdConcat | pages/ProfilePage.tsx:150 | Removal distributes over concatenation: the survivors keep their order |
| ProfilePage.RemoveIdCount | pages/ProfilePage.tsx:149-150 | With unique ids, removal loses one primary exactly when the deleted entry was primary |
| ProfilePage.UniqueRemove | pages/ProfilePage.tsx:150 | Removal keeps ids unique |
| ProfilePage.DeleteResume | pages/ProfilePage.tsx:147-156 | The result is the removal, except that the first survivor becomes primary when the deleted entry was primary |
| ProfilePage.DeleteKeepsSinglePrimary | pages/ProfilePage.tsx:147-156 | With unique ids, deletion keeps a single primary and unique ids; deleting a non-primary entry changes no flag |
| ProfilePage.AnalysisTextFirstPrimary | pages/ProfilePage.tsx:93-94 | The analysis text is the content of the first primary resume, or empty when it has none |
| ProfilePage.AnalysisTextOfPrimary | pages/ProfilePage.tsx:92-99 | With exactly one primary, the analysis text is that resume's content, or empty when it has none |
| ProfilePage.ProfileUrlEndsWithUsername | pages/ProfilePage.tsx:163 | A new profile's URL is `https://example.com/`, the platform name in lower case, `/` and the username; it ends with the username exactly as typed |
| ProfilePage.ProfilePageState.constructor | pages/ProfilePage.tsx:61-72 | The page starts with no resumes, no profiles, GitHub selected, an empty username and nothing loading |
| ProfilePage.ProfilePageState.RefreshAnalysisText | pages/ProfilePage.tsx:92-99 | The effect's loop leaves the analysis text equal to the first primary's content and changes nothing else |
| ProfilePage.ProfilePageState.HandleResumeUpload | pages/ProfilePage.tsx:107-140 | No file changes nothing; extracted text appends the new resume and refreshes the analysis text; a failed read only sets the error; loading ends false; the profile inputs, profiles and suggestions are kept |
| ProfilePage.ProfilePageState.SetPrimaryResume | pages/ProfilePage.tsx:142-145 | The list becomes its set-primary update and the analysis text follows; every other field is kept |
| ProfilePage.ProfilePageState.DeleteResumeById | pages/ProfilePage.tsx:147-156 | The list becomes its delete update and the analysis text follows; every other field is kept |
| ProfilePage.ProfilePageState.EditAnalysisText | pages/ProfilePage.tsx:249 | Typing in the text area sets the analysis text; every other field is kept |
| ProfilePage.ProfilePageState.SetNewProfile | pages/ProfilePage.tsx:304-310 | The platform and username inputs take the new values; every other field is kept |
| Text.TrimEmptyIffAllSpace | pages/ProfilePage.tsx:159 | A string trims to the empty string exactly when it is all white space |
| ProfilePage.ProfilePageState.AddCodingProfile | pages/ProfilePage.tsx:158-168 | A username that is all white space (so trims to the empty string) is ignored; otherwise the profile is appended with its example URL and pending summary, and the input is cleared; the resumes, the analysis text and the suggestion fields are kept |
| ProfilePage.ProfilePageState.FetchAiSuggestions | pages/ProfilePage.tsx:170-188 | Empty analysis text only sets the guard message and requests nothing; otherwise the suggestions are the service's result for that text, the error is cleared and loading ends; resumes, profiles, profile inputs and the file error are kept |
| ServicesPage.FindService | pages/ServicesPage.tsx:79 | The lookup finds an entry with the id exactly when one exists |
| ServicesPage.SubmissionError | pages/ServicesPage.tsx:105-123 | Each message under its condition, in order: no service, missing resume, missing job role, missing job description; no message exactly when the service's inputs are all present |
| ServicesPage.ResumeCheckedBeforeDescription | pages/ServicesPage.tsx:111-123 | For the match service with both texts empty, the resume message wins |
| ServicesPage.Dispatch | pages/ServicesPage.tsx:132-149 | Each of the four known ids makes exactly one call with the inputs it reads; any other id makes none |
| ServicesPage.KnownServicesDispatch | pages/ServicesPage.tsx:41-47 | Every service on the page is dispatched; none falls to "not recognized" |
| ServicesPage.Badge | pages/ServicesPage.tsx:287-293 | With a score: green at 80 or more, yellow from 60, red below; without one: green for a strong/good/excellent/pass status, yellow for partial/fair, red otherwise |
| ServicesPage.BadgeMonotone | pages/ServicesPage.tsx:288-290 | A higher score never gets a worse badge, and with a score the status plays no part |
| ServicesPage.BadgeLabel | pages/ServicesPage.tsx:294 | With a score the label is the score's decimal text followed by "/100"; without one it is the status |
| ServicesPage.RenderBlankLine | pages/ServicesPage.tsx:276 | A blank line between two newline-free lines becomes `<br/><br/>` |
| ServicesPage.RenderNewline | pages/ServicesPage.tsx:276 | A single newline between two newline-free lines becomes `<br />` |
| ServicesPage.RenderWithoutNewlines | pages/ServicesPage.tsx:276 | Text without newlines is rendered unchanged |
| ServicesPage.ServicesPageState.constructor | pages/ServicesPage.tsx:52-60 | The page starts with no service, empty inputs, no result, no error and no file |
| ServicesPage.ServicesPageState.ResetServiceState | pages/ServicesPage.tsx:65-76 | Result, error, the three texts and the file name are cleared |
| ServicesPage.ServicesPageState.HandleServiceSelect | pages/ServicesPage.tsx:78-82 | The selection becomes the lookup's result (nothing for an unknown id) and everything else is cleared |
| ServicesPage.ServicesPageState.SetInputs | pages/ServicesPage.tsx:210-245 | The text areas set the resume, job description and job role |
| ServicesPage.ServicesPageState.HandleFileChange | pages/ServicesPage.tsx:85-103 | Extracted text becomes the resume text; a failed read clears the resume text and file name and sets the error; loading ends false |
| ServicesPage.ServicesPageState.HandleSubmitRegularService | pages/ServicesPage.tsx:105-158 | A failing check sets its message and calls nothing; otherwise the dispatched call is made once; the critique, match and interview calls show the service's analysis of the inputs they read and no error; the breakdown call shows its outcome or the failure message; an unknown id gives "not recognized" |

## Left out

- The network call itself is a parameter, and so is its configuration: system instructions, model name and the floating-point temperatures. The long instruction texts are not modelled.
- The `console` logging is left out.
- `utils/fileUtils.ts` is not part of this model: `FileReader`, PDF page extraction and the MIME-type dispatch are asynchronous I/O over a library. The pages receive the reader's outcome as an `Extraction` input.
- ServicesPage.ServicesPageState.HandleSubmitRegularService: the breakdown service's function does not exist in the service module, so that one call's outcome is a parameter (`breakdown`). The other three calls are `GeminiService.Analyze`.
- The ATS breakdown rendering around the badge (`overallScore`, `detailedBreakdown`, per-entry feedback) is left out; the badge rule and the label are modelled on their own.
- Timers and asynchronous ordering are left out:
  - The listing delays, and the social login's one-second delay, which the model runs at once.
  - The contact page's five-second reset, which is the `ResetSubmitted` method.
  - Responses that arrive late and overwrite newer state.
  - An upload computes "primary" from the list its handler closed over while its updater reads the latest list. The model has a single list, so the two are the same.
- ProfilePage.DeleteResume: the code writes `newResumes[0].isPrimary = true` into an object it shares with the previous list. The model builds a new value, so that aliasing is not captured.
- Non-deterministic values are inputs: `Date.now()`-based ids, ISO dates and posting dates. The posting date is a number of days.
- Rendering, routing and presentational components are left out, as are the profile page's mock-data effect and its application history. The page guards are left out too: the redirect away from the sign-in page when signed in, and away from the profile page when signed out.
- Text.Lower lowers ASCII letters only; full Unicode case mapping is not modelled.
- Text.IsSpace follows the JavaScript white-space set; string lengths count characters, not UTF-16 code units.
- GeminiService.Value: JSON numbers are integers; fractional numbers and their rendering are not modelled.
- GeminiService.ToText: objects render as `[object Object]`; an object's own `toString` is not modelled.
- GeminiService.Field: a property read on a non-object yields `undefined`, including `length` on strings and arrays. None of the names the code reads is inherited.
- Storage exceptions (`localStorage` full or disabled) and the sign-in page's `catch` around `login` are left out: the model's login does not throw.
- ProfilePage.ProfilePageState.FetchAiSuggestions: the `catch` branch (lines 181-184) is left out, because the service never rejects.
- The services page's result rendering applies `.replace` to `feedback`. A truthy non-string feedback taken from the reply would throw there. `ServicesPage.RenderFeedback` is stated for string feedback only.
- The profile page's name and email editing (`handleInfoSave`) only logs, and is left out.
