/** The AI analysis service: five tasks that each send one prompt to the
    language-model endpoint, recover a JSON value from the reply text, and
    map its fields to a feedback/suggestions pair. The endpoint and the JSON
    parser are parameters; every failure becomes feedback text, never an
    exception to the caller. */
module GeminiService {
  import opened Wrappers
  import opened Text

  // ---------------------------------------------------------------- JavaScript values

  /** A parsed JSON value, plus `undefined` for a missing property. Numbers
      are integers in this model. */
  datatype Value =
    | Undefined
    | Null
    | Bool(b: bool)
    | Number(n: int)
    | Str(s: string)
    | Array(elems: seq<Value>)
    | Object(fields: map<string, Value>)

  predicate Truthy(v: Value) {
    match v
    case Undefined => false
    case Null => false
    case Bool(b) => b
    case Number(n) => n != 0
    case Str(s) => s != ""
    case _ => true
  }

  /** `a || b`. */
  function Or(a: Value, b: Value): (r: Value)
    ensures Truthy(a) ==> r == a
    ensures !Truthy(a) ==> r == b
  {
    if Truthy(a) then a else b
  }

  /** Property read on a value that is neither null nor undefined: an own
      field of an object, otherwise `undefined` (none of the names read
      here is inherited by arrays, strings, numbers or booleans). */
  function Field(v: Value, name: string): (r: Value)
    ensures v.Object? && name in v.fields ==> r == v.fields[name]
    ensures !(v.Object? && name in v.fields) ==> r == Undefined
  {
    if v.Object? && name in v.fields then v.fields[name] else Undefined
  }

  /** `String(v)`, as a template literal renders it; an array joins its
      elements with `sep` (`,` for `String`), rendering null and undefined
      elements as empty. */
  function ToText(v: Value): string {
    match v
    case Undefined => "undefined"
    case Null => "null"
    case Bool(b) => if b then "true" else "false"
    case Number(n) => IntToString(n)
    case Str(s) => s
    case Array(elems) => JoinValues(elems, ",")
    case Object(_) => "[object Object]"
  }

  /** `Array.prototype.join(sep)`. */
  function JoinValues(elems: seq<Value>, sep: string): (r: string)
    decreases elems, 0
  {
    Join(seq(|elems|, i requires 0 <= i < |elems| =>
      if elems[i].Null? || elems[i].Undefined? then "" else ToText(elems[i])), sep)
  }

  /** A JSON array of strings. */
  function Strings(xs: seq<string>): Value {
    Array(seq(|xs|, i requires 0 <= i < |xs| => Str(xs[i])))
  }

  /** `join` over an array of strings is the plain string join. */
  lemma JoinStrings(xs: seq<string>, sep: string)
    ensures JoinValues(Strings(xs).elems, sep) == Join(xs, sep)
  {
    var vs := Strings(xs).elems;
    assert seq(|vs|, i requires 0 <= i < |vs| =>
      if vs[i].Null? || vs[i].Undefined? then "" else ToText(vs[i])) == xs;
  }

  // ---------------------------------------------------------------- reply text to JSON

  /** `t` reads as an opening fence, a language tag, white space, `body`,
      white space and a closing fence, where the tag is the whole leading
      run of word characters and the body has no white space at either end.
      These are the parts the fence pattern's groups split a match into. */
  predicate FenceFraming(t: string, tag: string, ws1: string, body: string, ws2: string) {
    AllWord(tag) && AllSpace(ws1) && AllSpace(ws2)
    && t == Fence + tag + ws1 + body + ws2 + Fence
    && (ws1 + body == [] || !IsWordChar((ws1 + body)[0]))
    && (body == [] || (!IsSpace(body[0]) && !IsSpace(body[|body| - 1])))
  }

  /** The parts of a fenced text, given how they were cut off one another. */
  lemma FramingOfParts(t: string, m: string, tag: string, x: string, ws1: string, u: string, body: string, ws2: string)
    requires t == Fence + m + Fence
    requires m == tag + x && x == ws1 + u && u == body + ws2
    requires AllWord(tag) && AllSpace(ws1) && AllSpace(ws2)
    requires x == [] || !IsWordChar(x[0])
    requires body == [] || (!IsSpace(body[0]) && !IsSpace(body[|body| - 1]))
    ensures FenceFraming(t, tag, ws1, body, ws2)
  {
    assert x == ws1 + body + ws2;
    assert t == Fence + tag + ws1 + body + ws2 + Fence;
    if ws1 + body != [] {
      assert (ws1 + body)[0] == x[0];
    }
  }

  /** Whatever the fences enclose splits into tag, white space, body and
      white space, with the body found by dropping the tag and trimming. */
  lemma FenceFramingExists(t: string, m: string)
    requires t == Fence + m + Fence
    ensures exists tag, ws1, ws2 :: FenceFraming(t, tag, ws1, Trim(DropWord(m)), ws2)
  {
    var x := DropWord(m);
    var tag := LeadingWord(m);
    var u := TrimStart(x);
    var ws1 := LeadingSpace(x);
    var body := TrimEnd(u);
    var ws2 := TrailingSpace(u);
    assert body == Trim(DropWord(m));
    FramingOfParts(t, m, tag, x, ws1, u, body, ws2);
    assert FenceFraming(t, tag, ws1, Trim(DropWord(m)), ws2);
  }

  /** The second group of the fence pattern: the body between the fences
      of a reply wrapped in a Markdown code fence, without the language tag
      and the white space around it; None when the (trimmed) text is not
      fenced. The tag takes every leading word character, and the lazy body
      leaves all trailing white space to the closing part. */
  function FenceBody(t: string): (r: Option<string>)
    ensures r.Some? <==> |t| >= 6 && StartsWith(t, Fence) && EndsWith(t, Fence)
    ensures r.Some? ==> Trim(r.value) == r.value
  {
    if |t| >= 6 && StartsWith(t, Fence) && EndsWith(t, Fence) then
      TrimIdempotent(DropWord(t[3..|t| - 3]));
      Some(Trim(DropWord(t[3..|t| - 3])))
    else None
  }

  /** A fenced text splits into fence, tag, white space, the body group,
      white space and fence, each part as the pattern delimits it. */
  lemma FenceBodyFraming(t: string)
    ensures FenceBody(t).Some? ==> exists tag, ws1, ws2 :: FenceFraming(t, tag, ws1, FenceBody(t).value, ws2)
  {
    if FenceBody(t).Some? {
      var m := t[3..|t| - 3];
      FencedJoin(t);
      FenceBodyOf(m);
      FenceFramingExists(t, m);
    }
  }

  /** The string handed to the JSON parser: the trimmed reply, or the fenced
      body when there is one and it is not empty. */
  function JsonCandidate(text: string): (r: string)
    ensures Trim(r) == r
    ensures FenceBody(Trim(text)).Some? && FenceBody(Trim(text)).value != [] ==> r == FenceBody(Trim(text)).value
    ensures !(FenceBody(Trim(text)).Some? && FenceBody(Trim(text)).value != []) ==> r == Trim(text)
  {
    var t := Trim(text);
    var body := FenceBody(t);
    if body.Some? && body.value != [] then
      body.value
    else
      TrimIdempotent(text);
      t
  }

  /** The body group of a fenced string, in terms of what the fences enclose. */
  lemma FenceBodyOf(m: string)
    ensures FenceBody(Fence + m + Fence) == Some(Trim(DropWord(m)))
  {
    FencedSplit(Fence + m + Fence, m);
  }

  /** A text that starts and ends with a fence is fence, what the fences
      enclose, and fence. */
  lemma FencedJoin(t: string)
    requires |t| >= 6 && StartsWith(t, Fence) && EndsWith(t, Fence)
    ensures t == Fence + t[3..|t| - 3] + Fence
  {
    CutTwice(t, 3, |t| - 3);
  }

  /** What the fences enclose is what sits between the first and the last
      three characters. */
  lemma FencedSplit(t: string, m: string)
    requires t == Fence + m + Fence
    ensures |t| >= 6 && StartsWith(t, Fence) && EndsWith(t, Fence) && t[3..|t| - 3] == m
    ensures t[0] == '`' && t[|t| - 1] == '`'
  {
    assert t[..3] == Fence;
    assert t[|t| - 3..] == Fence;
  }

  /** A fenced reply gives back exactly its body, whatever the language
      tag and the white space around the fences and the body. */
  lemma FencedReplyYieldsBody(pre: string, tag: string, ws1: string, body: string, ws2: string, post: string)
    requires AllSpace(pre) && AllSpace(post) && AllSpace(ws1) && AllSpace(ws2) && AllWord(tag)
    requires body != [] && !IsSpace(body[0]) && !IsSpace(body[|body| - 1])
    requires ws1 != [] || !IsWordChar(body[0])
    ensures JsonCandidate(pre + Fence + tag + ws1 + body + ws2 + Fence + post) == body
  {
    var y := ws1 + body + ws2;
    var m := tag + y;
    var fenced := Fence + m + Fence;
    assert pre + Fence + tag + ws1 + body + ws2 + Fence + post == pre + fenced + post;
    assert fenced[0] == '`' && fenced[|fenced| - 1] == '`';
    TrimFramed(pre, fenced, post);
    FenceBodyOf(m);
    if ws1 != [] {
      assert y[0] == ws1[0] && IsSpace(ws1[0]);
      SpaceIsNotWord(ws1[0]);
    } else {
      assert y[0] == body[0];
    }
    assert !IsWordChar(y[0]);
    DropWordPrefix(tag, y);
    TrimFramed(ws1, body, ws2);
  }

  /** A reply that does not start with a fence is parsed as it is, trimmed. */
  lemma UnfencedReplyTrimmed(text: string)
    requires !StartsWith(Trim(text), "```")
    ensures JsonCandidate(text) == Trim(text)
  {
  }

  /** A fence around nothing but a tag and white space is not stripped:
      the body group is empty, hence falsy. */
  lemma EmptyFenceKept(tag: string, ws: string)
    requires AllWord(tag) && AllSpace(ws)
    ensures JsonCandidate(Fence + tag + ws + Fence) == Fence + tag + ws + Fence
  {
    var t := Fence + tag + ws + Fence;
    assert t == Fence + (tag + ws) + Fence;
    FencedSplit(t, tag + ws);
    TrimOfTrimmed(t);
    FenceBodyOf(tag + ws);
    TagOnlyBodyEmpty(tag, ws);
  }

  /** A tag followed by white space leaves an empty body group. */
  lemma TagOnlyBodyEmpty(tag: string, ws: string)
    requires AllWord(tag) && AllSpace(ws)
    ensures Trim(DropWord(tag + ws)) == []
  {
    if ws != [] {
      SpaceIsNotWord(ws[0]);
    }
    DropWordPrefix(tag, ws);
    TrimFramed(ws, [], []);
    assert ws + [] + [] == ws;
  }

  const ParseFailedText := "Failed to parse JSON"

  /** The object returned in place of a value when the parser rejects the text. */
  function FailureMarker(text: string): Value {
    Object(map["error" := Str(ParseFailedText), "originalText" := Str(text)])
  }

  /** `parseJsonFromText`: the parser's value for the candidate string, or
      the failure marker carrying the untouched reply. */
  function ParseJsonFromText(text: string, parse: string -> Option<Value>): (r: Value)
    ensures parse(JsonCandidate(text)).Some? ==> r == parse(JsonCandidate(text)).value
    ensures parse(JsonCandidate(text)).None? ==>
      Truthy(Field(r, "error")) && Field(r, "originalText") == Str(text)
  {
    match parse(JsonCandidate(text))
    case Some(v) => v
    case None =>
      MarkerFields(text);
      FailureMarker(text)
  }

  // ---------------------------------------------------------------- the five tasks

  datatype Task = ResumeCritique | PercentageMatch | AtsEstimate | MockInterview | ResumeSuggestions

  /** What the endpoint receives: the task (standing for its system
      instruction and temperature) and the user prompt. */
  datatype Request = Request(task: Task, prompt: string)

  /** What the endpoint gives back: text, a response without text, or a
      thrown error with its message. */
  datatype Reply = Text(text: string) | NoText | Failed(message: string)

  /** A `GeminiAnalysisResult`; the fields hold whatever the reply put there. */
  datatype AnalysisResult = AnalysisResult(feedback: Value, suggestions: Option<Value>)

  /** The client exists only for a truthy key. */
  predicate Configured(apiKey: Option<string>) {
    apiKey.Some? && apiKey.value != ""
  }

  function NotConfiguredMessage(task: Task): string {
    if task == ResumeCritique then "Gemini API not configured. Please set API_KEY."
    else "Gemini API not configured."
  }

  function ErrorPrefix(task: Task): string {
    match task
    case ResumeCritique => "An error occurred while analyzing the resume: "
    case PercentageMatch => "Error calculating match: "
    case AtsEstimate => "Error estimating ATS score: "
    case MockInterview => "Error generating questions: "
    case ResumeSuggestions => "Error getting resume suggestions: "
  }

  const Fence := "```"

  /** `head` + `x` + `tail`, with `x` found inside. */
  function Embed(head: string, x: string, tail: string): (r: string)
    ensures r == head + x + tail
    ensures Contains(r, x)
  {
    ContainsMiddle(head, x, tail);
    head + x + tail
  }

  const MatchHead := "Resume:\n```\n"
  const MatchMiddle := "\n```\n\nJob Description:\n```\n"
  const MatchTail := "\n```\n\nPlease provide the percentage match analysis."
  const AtsHead := "Resume for ATS Score Estimation:\n```\n"
  const AtsTail := "\n```\n\nPlease provide the ATS score estimate and suggestions."
  const InterviewHead := "Job Role/Industry: "
  const InterviewTail := "\n\nPlease generate 5 interview questions."
  const SuggestionsHead := "Resume for Improvement Suggestions:\n```\n"
  const SuggestionsTail := "\n```\n\nPlease provide improvement suggestions."

  /** The user prompt of each task; the critique sends the resume alone.
      Every prompt carries its inputs verbatim. */
  function Prompt(task: Task, primary: string, secondary: string): (r: string)
    ensures Contains(r, primary)
    ensures task == PercentageMatch ==> Contains(r, secondary)
  {
    match task
    case ResumeCritique => Embed("", primary, "")
    case PercentageMatch =>
      var rest := Embed(MatchMiddle, secondary, MatchTail);
      var r := Embed(MatchHead, primary, rest);
      ContainsMiddle(MatchHead + primary, rest, "");
      assert MatchHead + primary + rest + "" == r;
      ContainsTransitive(r, rest, secondary);
      r
    case AtsEstimate => Embed(AtsHead, primary, AtsTail)
    case MockInterview => Embed(InterviewHead, primary, InterviewTail)
    case ResumeSuggestions => Embed(SuggestionsHead, primary, SuggestionsTail)
  }

  /** The TypeErrors of reading `error` off a null or undefined parse
      result, and of trimming an absent reply text. */
  const NullErrorRead := "Cannot read properties of null (reading 'error')"
  const UndefinedErrorRead := "Cannot read properties of undefined (reading 'error')"
  const UndefinedTextTrim := "Cannot read properties of undefined (reading 'trim')"

  function ErrorReadMessage(v: Value): string {
    if v.Null? then NullErrorRead else UndefinedErrorRead
  }

  /** `v.join` can be called, or is not reached because `v` is falsy. */
  predicate Joinable(v: Value) {
    !Truthy(v) || v.Array?
  }

  /** `${prefix}${list.join(', ')}` when the list is truthy; a truthy value
      that is not an array has no `join` and throws. */
  function ElementsLine(parsed: Value, name: string, caption: string): (r: Result<seq<Value>, string>)
    ensures !Truthy(Field(parsed, name)) ==> r == Success([])
    ensures Field(parsed, name).Array? ==> r == Success([Str(caption + JoinValues(Field(parsed, name).elems, ", "))])
    ensures r.Failure? <==> !Joinable(Field(parsed, name))
  {
    var list := Field(parsed, name);
    if !Truthy(list) then Success([])
    else if list.Array? then Success([Str(caption + JoinValues(list.elems, ", "))])
    else Failure("parsedResult." + name + ".join is not a function")
  }

  /** The success mapping of each task, from a parsed value without a
      truthy `error` field. */
  function MapFields(task: Task, parsed: Value): (r: Result<AnalysisResult, string>)
    ensures task != PercentageMatch ==> r.Success? && r.value.suggestions.Some?
    ensures r.Success? ==> r.value.suggestions.Some?
    ensures task == PercentageMatch && r.Success? ==>
      r.value.suggestions.value.Array? && |r.value.suggestions.value.elems| <= 2
    ensures task == PercentageMatch ==>
      (r.Success? <==> Joinable(Field(parsed, "matchingElements")) && Joinable(Field(parsed, "missingElements")))
  {
    match task
    case ResumeCritique =>
      Success(AnalysisResult(Or(Field(parsed, "feedback"), Str("No feedback provided.")),
                             Some(Or(Field(parsed, "suggestions"), Array([])))))
    case PercentageMatch =>
      var feedback := "Match Score: " + ToText(Or(Field(parsed, "matchScore"), Str("N/A"))) + "%\n\n"
                      + ToText(Or(Field(parsed, "feedback"), Str("No detailed feedback.")));
      var matching := ElementsLine(parsed, "matchingElements", "Matching: ");
      if matching.Failure? then Failure(matching.error)
      else
        var missing := ElementsLine(parsed, "missingElements", "Missing: ");
        if missing.Failure? then Failure(missing.error)
        else Success(AnalysisResult(Str(feedback), Some(Array(matching.value + missing.value))))
    case AtsEstimate =>
      Success(AnalysisResult(
        Str("ATS Score Estimate: " + ToText(Or(Field(parsed, "atsScore"), Str("N/A"))) + "\n\n"
            + ToText(Or(Field(parsed, "feedback"), Str("No detailed feedback.")))),
        Some(Or(Field(parsed, "suggestions"), Array([])))))
    case MockInterview =>
      Success(AnalysisResult(Or(Field(parsed, "feedback"), Str("Generated questions:")),
                             Some(Or(Field(parsed, "questions"), Array([Str("No questions generated.")])))))
    case ResumeSuggestions =>
      Success(AnalysisResult(Or(Field(parsed, "feedback"), Str("Suggestions for your resume:")),
                             Some(Or(Field(parsed, "suggestions"), Array([])))))
  }

  /** What happens to the parsed value: a null or undefined value throws on
      the `error` read, a truthy `error` becomes the processing-error
      feedback, anything else goes through the task's mapping. */
  function Settle(task: Task, parsed: Value): (r: Result<AnalysisResult, string>)
    ensures (parsed.Null? || parsed.Undefined?) ==> r == Failure(ErrorReadMessage(parsed))
    ensures !(parsed.Null? || parsed.Undefined?) && Truthy(Field(parsed, "error")) ==>
      r == Success(AnalysisResult(Str("Error processing response: " + ToText(Field(parsed, "error"))
                                      + ". Raw: " + ToText(Field(parsed, "originalText"))), None))
    ensures !(parsed.Null? || parsed.Undefined?) && !Truthy(Field(parsed, "error")) ==> r == MapFields(task, parsed)
  {
    if parsed.Null? || parsed.Undefined? then Failure(ErrorReadMessage(parsed))
    else if Truthy(Field(parsed, "error")) then
      Success(AnalysisResult(Str("Error processing response: " + ToText(Field(parsed, "error"))
                                 + ". Raw: " + ToText(Field(parsed, "originalText"))), None))
    else MapFields(task, parsed)
  }

  /** What a task makes of the endpoint's reply once the call was made;
      every error, thrown or reported, ends as feedback text prefixed with
      the task's own message. */
  function Respond(task: Task, reply: Reply, parse: string -> Option<Value>): (r: AnalysisResult)
    ensures reply.Failed? ==> r == AnalysisResult(Str(ErrorPrefix(task) + reply.message), None)
    ensures reply.NoText? ==> r == AnalysisResult(Str(ErrorPrefix(task) + UndefinedTextTrim), None)
    ensures r.suggestions.None? ==> r.feedback.Str?
  {
    match reply
    case Failed(message) => AnalysisResult(Str(ErrorPrefix(task) + message), None)
    case NoText => AnalysisResult(Str(ErrorPrefix(task) + UndefinedTextTrim), None)
    case Text(text) =>
      match Settle(task, ParseJsonFromText(text, parse))
      case Success(result) => result
      case Failure(message) => AnalysisResult(Str(ErrorPrefix(task) + message), None)
  }

  /** One of the five exported calls. `primary` is the resume text (the job
      role for the interview task); `secondary` is the job description and
      is read by the match task only. Without a key nothing is sent. */
  function Analyze(task: Task, apiKey: Option<string>, primary: string, secondary: string,
                   remote: Request -> Reply, parse: string -> Option<Value>): (r: AnalysisResult)
    ensures !Configured(apiKey) ==> r == AnalysisResult(Str(NotConfiguredMessage(task)), None)
    ensures Configured(apiKey) ==> r == Respond(task, remote(Request(task, Prompt(task, primary, secondary))), parse)
    ensures r.suggestions.None? ==> r.feedback.Str?
  {
    if !Configured(apiKey) then AnalysisResult(Str(NotConfiguredMessage(task)), None)
    else Respond(task, remote(Request(task, Prompt(task, primary, secondary))), parse)
  }

  // ---------------------------------------------------------------- properties

  /** Without a key no request is made: the result does not depend on the
      endpoint at all. */
  lemma NotConfiguredMakesNoCall(task: Task, apiKey: Option<string>, primary: string, secondary: string,
                                 remote1: Request -> Reply, remote2: Request -> Reply, parse: string -> Option<Value>)
    requires !Configured(apiKey)
    ensures Analyze(task, apiKey, primary, secondary, remote1, parse) == Analyze(task, apiKey, primary, secondary, remote2, parse)
  {
  }

  /** A reply the parser rejects is reported with the raw reply text. */
  lemma UnparsableReplyReported(task: Task, parse: string -> Option<Value>, text: string)
    requires parse(JsonCandidate(text)).None?
    ensures Respond(task, Text(text), parse) ==
      AnalysisResult(Str("Error processing response: " + ParseFailedText + ". Raw: " + text), None)
  {
    assert ParseJsonFromText(text, parse) == FailureMarker(text);
    SettleMarker(task, text);
  }

  lemma MarkerFields(text: string)
    ensures Field(FailureMarker(text), "error") == Str(ParseFailedText)
    ensures Field(FailureMarker(text), "originalText") == Str(text)
  {
    var fields := map["error" := Str(ParseFailedText), "originalText" := Str(text)];
    assert "error" != "originalText";
    assert fields["error"] == Str(ParseFailedText);
  }

  lemma SettleMarker(task: Task, text: string)
    ensures Settle(task, FailureMarker(text)) ==
      Success(AnalysisResult(Str("Error processing response: " + ParseFailedText + ". Raw: " + text), None))
  {
    MarkerFields(text);
  }

  /** A fenced JSON reply is read as the value of its body. */
  lemma FencedReplyParsed(pre: string, tag: string, ws1: string, body: string, ws2: string, post: string,
                          parse: string -> Option<Value>, v: Value)
    requires AllSpace(pre) && AllSpace(post) && AllSpace(ws1) && AllSpace(ws2) && AllWord(tag)
    requires body != [] && !IsSpace(body[0]) && !IsSpace(body[|body| - 1])
    requires ws1 != [] || !IsWordChar(body[0])
    requires parse(body) == Some(v)
    ensures ParseJsonFromText(pre + Fence + tag + ws1 + body + ws2 + Fence + post, parse) == v
  {
    FencedReplyYieldsBody(pre, tag, ws1, body, ws2, post);
  }

  /** A JSON `null` reply throws on the `error` read, and the task's catch
      reports the TypeError. */
  lemma NullReplyReported(task: Task, parse: string -> Option<Value>, text: string)
    requires parse(JsonCandidate(text)) == Some(Null)
    ensures Respond(task, Text(text), parse).feedback ==
      Str(ErrorPrefix(task) + NullErrorRead)
  {
    var parsed := ParseJsonFromText(text, parse);
    assert parsed == Null;
    assert Settle(task, parsed) == Failure(NullErrorRead);
  }

  /** A score of 0 is falsy and is shown as "N/A". */
  lemma ZeroMatchScoreShownAsNotAvailable(fields: map<string, Value>)
    requires "matchScore" in fields && fields["matchScore"] == Number(0)
    requires "matchingElements" !in fields && "missingElements" !in fields
    ensures MapFields(PercentageMatch, Object(fields)) ==
      Success(AnalysisResult(
        Str("Match Score: " + "N/A" + "%\n\n" + ToText(Or(Field(Object(fields), "feedback"), Str("No detailed feedback.")))),
        Some(Array([]))))
  {
    var p := Object(fields);
    assert Field(p, "matchScore") == Number(0);
    assert ToText(Or(Field(p, "matchScore"), Str("N/A"))) == "N/A";
    assert ElementsLine(p, "matchingElements", "Matching: ") == Success([]);
    assert ElementsLine(p, "missingElements", "Missing: ") == Success([]);
  }

  /** A reply whose own JSON carries a truthy `error` field is reported as a
      processing error, for every task. */
  lemma ErrorFieldTakesPrecedence(task: Task, fields: map<string, Value>, message: string)
    requires "error" in fields && fields["error"] == Str(message) && message != ""
    requires "originalText" !in fields
    ensures Settle(task, Object(fields)) ==
      Success(AnalysisResult(Str("Error processing response: " + message + ". Raw: " + "undefined"), None))
  {
    assert Field(Object(fields), "error") == Str(message);
    assert Field(Object(fields), "originalText") == Undefined;
  }

  /** A field that is absent, or present but falsy. */
  predicate FalsyField(fields: map<string, Value>, name: string) {
    !Truthy(Field(Object(fields), name))
  }

  /** Absent or falsy fields fall back to each task's defaults. */
  lemma FalsyFieldsDefault(fields: map<string, Value>)
    requires FalsyField(fields, "feedback") && FalsyField(fields, "suggestions") && FalsyField(fields, "questions")
    requires FalsyField(fields, "matchScore") && FalsyField(fields, "atsScore")
    requires FalsyField(fields, "matchingElements") && FalsyField(fields, "missingElements")
    ensures MapFields(ResumeCritique, Object(fields)) ==
      Success(AnalysisResult(Str("No feedback provided."), Some(Array([]))))
    ensures MapFields(PercentageMatch, Object(fields)) ==
      Success(AnalysisResult(Str("Match Score: " + "N/A" + "%\n\n" + "No detailed feedback."), Some(Array([]))))
    ensures MapFields(AtsEstimate, Object(fields)) ==
      Success(AnalysisResult(Str("ATS Score Estimate: " + "N/A" + "\n\n" + "No detailed feedback."), Some(Array([]))))
    ensures MapFields(MockInterview, Object(fields)) ==
      Success(AnalysisResult(Str("Generated questions:"), Some(Array([Str("No questions generated.")]))))
    ensures MapFields(ResumeSuggestions, Object(fields)) ==
      Success(AnalysisResult(Str("Suggestions for your resume:"), Some(Array([]))))
  {
    var p := Object(fields);
    assert ElementsLine(p, "matchingElements", "Matching: ") == Success([]);
    assert ElementsLine(p, "missingElements", "Missing: ") == Success([]);
  }

  /** The critique and the suggestions task pass a truthy `feedback` and a
      truthy `suggestions` through unchanged. */
  lemma TruthyFieldsPassThrough(task: Task, fields: map<string, Value>)
    requires task == ResumeCritique || task == ResumeSuggestions
    requires "feedback" in fields && Truthy(fields["feedback"])
    requires "suggestions" in fields && Truthy(fields["suggestions"])
    ensures MapFields(task, Object(fields)) ==
      Success(AnalysisResult(fields["feedback"], Some(fields["suggestions"])))
  {
  }

  /** The interview task passes a truthy `feedback` and truthy `questions`
      through unchanged. */
  lemma InterviewFieldsPassThrough(fields: map<string, Value>)
    requires "feedback" in fields && Truthy(fields["feedback"])
    requires "questions" in fields && Truthy(fields["questions"])
    ensures MapFields(MockInterview, Object(fields)) ==
      Success(AnalysisResult(fields["feedback"], Some(fields["questions"])))
  {
  }

  /** The ATS estimate shows a truthy score and feedback as text and passes
      truthy `suggestions` through unchanged. */
  lemma AtsFieldsMapped(fields: map<string, Value>)
    requires "atsScore" in fields && Truthy(fields["atsScore"])
    requires "feedback" in fields && Truthy(fields["feedback"])
    requires "suggestions" in fields && Truthy(fields["suggestions"])
    ensures MapFields(AtsEstimate, Object(fields)) ==
      Success(AnalysisResult(
        Str("ATS Score Estimate: " + ToText(fields["atsScore"]) + "\n\n" + ToText(fields["feedback"])),
        Some(fields["suggestions"])))
  {
  }

  /** The match task shows a non-zero score and the feedback text, then one
      suggestion line for the matching elements and one for the missing
      ones, in that order, each list joined with ", ". */
  lemma MatchFieldsMapped(fields: map<string, Value>, score: int, feedback: string, ms: seq<string>, xs: seq<string>)
    requires "matchScore" in fields && fields["matchScore"] == Number(score) && score != 0
    requires "feedback" in fields && fields["feedback"] == Str(feedback) && feedback != ""
    requires "matchingElements" in fields && fields["matchingElements"] == Strings(ms)
    requires "missingElements" in fields && fields["missingElements"] == Strings(xs)
    ensures MapFields(PercentageMatch, Object(fields)) ==
      Success(AnalysisResult(
        Str("Match Score: " + IntToString(score) + "%\n\n" + feedback),
        Some(Array([Str("Matching: " + Join(ms, ", ")), Str("Missing: " + Join(xs, ", "))]))))
  {
    var p := Object(fields);
    JoinStrings(ms, ", ");
    JoinStrings(xs, ", ");
    assert ElementsLine(p, "matchingElements", "Matching: ") == Success([Str("Matching: " + Join(ms, ", "))]);
    assert ElementsLine(p, "missingElements", "Missing: ") == Success([Str("Missing: " + Join(xs, ", "))]);
    assert [Str("Matching: " + Join(ms, ", "))] + [Str("Missing: " + Join(xs, ", "))] ==
      [Str("Matching: " + Join(ms, ", ")), Str("Missing: " + Join(xs, ", "))];
  }
}
