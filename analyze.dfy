/**
 * The crash-log analysis endpoint (`/api/analyze`, as a serverless handler
 * and as an Express route): request checks, extraction of the `{...}` span
 * from the model's reply, and the fixed fallback when that reply is unusable.
 * The model call and `JSON.parse` are parameters.
 */
module Analyze {
  import opened Wrappers
  import opened Http

  /** What the model call gave: the first content block's text, or the thrown error's message. */
  datatype ModelCall = Replied(text: string) | Failed(message: string)

  /** The `analysis` field: the parsed JSON, or the fallback record. */
  datatype ModelAnalysis<J> =
    | Parsed(json: J)
    | Fallback(crashType: string, resourceName: Option<string>, cause: string, description: string,
               solutions: seq<string>, severity: string, autoReported: bool, rawResponse: string)

  datatype AnalyzeReply<J> = AnalyzeReply(
    status: nat,
    success: Option<bool>,
    error: Option<string>,
    analysis: Option<ModelAnalysis<J>>,
    message: Option<string>)

  const FALLBACK_CAUSE: string := "Analysis Error"

  const FALLBACK_DESCRIPTION: string :=
    "CrashBot encountered an issue analyzing your crash log. The log may be in an unexpected format."

  const FALLBACK_SOLUTIONS: seq<string> := [
    "Try uploading a different crash log file",
    "Make sure the file is a valid FiveM crash log",
    "Contact server staff if the issue persists"
  ]

  /** The record the handlers answer with when the reply holds no parsable object: it keeps the raw text. */
  function FallbackFor<J>(text: string): (a: ModelAnalysis<J>)
    ensures a.Fallback? && a.rawResponse == text && a.resourceName.None?
    ensures a.crashType == "unknown" && a.severity == "low" && !a.autoReported
    ensures a.cause == FALLBACK_CAUSE && |a.solutions| == 3
  {
    Fallback("unknown", None, FALLBACK_CAUSE, FALLBACK_DESCRIPTION, FALLBACK_SOLUTIONS, "low", false, text)
  }

  /** Position of the first `{`, if any. */
  function FirstOpen(s: string, i: nat): (r: Option<nat>)
    requires i <= |s|
    ensures r.Some? ==> i <= r.value < |s| && s[r.value] == '{' && forall k :: i <= k < r.value ==> s[k] != '{'
    ensures r.None? ==> forall k :: i <= k < |s| ==> s[k] != '{'
    decreases |s| - i
  {
    if i == |s| then None else if s[i] == '{' then Some(i) else FirstOpen(s, i + 1)
  }

  /** Position of the last `}` in `s[..j]`, if any. */
  function LastClose(s: string, j: nat): (r: Option<nat>)
    requires j <= |s|
    ensures r.Some? ==> r.value < j && s[r.value] == '}' && forall k :: r.value < k < j ==> s[k] != '}'
    ensures r.None? ==> forall k :: 0 <= k < j ==> s[k] != '}'
  {
    if j == 0 then None else if s[j - 1] == '}' then Some(j - 1) else LastClose(s, j - 1)
  }

  /**
   * `text.match(/\{[\s\S]*\}/)[0]`: the leftmost match starts at the first `{`
   * and, being greedy, ends at the last `}`.
   */
  function JsonSpan(s: string): (r: Option<string>)
    ensures r.Some? <==> exists i, j :: 0 <= i < j < |s| && s[i] == '{' && s[j] == '}'
    ensures r.Some? ==> exists i, j :: (
      && 0 <= i < j < |s| && r.value == s[i..j + 1]
      && s[i] == '{' && s[j] == '}'
      && (forall k :: 0 <= k < i ==> s[k] != '{')
      && (forall k :: j < k < |s| ==> s[k] != '}'))
  {
    match FirstOpen(s, 0)
    case None => None
    case Some(i) =>
      match LastClose(s, |s|)
      case None => None
      case Some(j) =>
        if j > i then Some(s[i..j + 1])
        else
          assert forall a, b :: 0 <= a < b < |s| && s[a] == '{' ==> s[b] != '}';
          None
  }

  /** The span of a reply that is exactly one object, nested objects included, is the whole reply. */
  lemma SpanOfObject(body: string)
    ensures JsonSpan("{" + body + "}") == Some("{" + body + "}")
  {
    var s := "{" + body + "}";
    assert s[0] == '{' && s[|s| - 1] == '}';
    assert s[0..|s|] == s;
  }

  /**
   * Prose around the object: with no `{` before it and no `}` after it, the
   * span is the object itself, whatever braces it holds inside.
   */
  lemma SpanInProse(pre: string, body: string, post: string)
    requires forall k :: 0 <= k < |pre| ==> pre[k] != '{'
    requires forall k :: 0 <= k < |post| ==> post[k] != '}'
    ensures JsonSpan(pre + "{" + body + "}" + post) == Some("{" + body + "}")
  {
    var s := pre + "{" + body + "}" + post;
    var i, j := |pre|, |pre| + |body| + 1;
    assert s[i] == '{' && s[j] == '}';
    assert forall k :: 0 <= k < i ==> s[k] == pre[k];
    assert forall k :: j < k < |s| ==> s[k] == post[k - j - 1];
    assert s[i..j + 1] == "{" + body + "}";
  }

  /** The try/catch around the reply: parse the span, else the fallback record. */
  function AnalysisOf<J>(text: string, parse: string -> Option<J>): (a: ModelAnalysis<J>)
    ensures a.Fallback? <==> JsonSpan(text).None? || parse(JsonSpan(text).value).None?
    ensures a.Fallback? ==> a == FallbackFor(text) && |a.solutions| == 3 && a.rawResponse == text
    ensures a.Parsed? ==> a.json == parse(JsonSpan(text).value).value
  {
    match JsonSpan(text)
    case None => FallbackFor(text)
    case Some(span) =>
      match parse(span)
      case None => FallbackFor(text)
      case Some(j) => Parsed(j)
  }

  /**
   * The body of both handlers once the request passed the method check; the
   * Express route, registered for POST only, is exactly this function.
   */
  function AnalyzeBody<J>(crashLog: Option<string>, model: ModelCall, parse: string -> Option<J>): (r: AnalyzeReply<J>)
    ensures (crashLog.None? || crashLog.value == "") ==> r.status == 400 && r.analysis.None?
    ensures crashLog.Some? && crashLog.value != "" && model.Failed? ==>
      r.status == 500 && r.success == Some(false) && r.message == Some(model.message)
    ensures crashLog.Some? && crashLog.value != "" && model.Replied? ==>
      r.status == 200 && r.success == Some(true) && r.analysis == Some(AnalysisOf(model.text, parse))
  {
    if crashLog.None? || crashLog.value == "" then
      AnalyzeReply(400, None, Some("No crash log provided"), None, None)
    else match model
      case Failed(m) => AnalyzeReply(500, Some(false), Some("Failed to analyze crash log"), None, Some(m))
      case Replied(text) => AnalyzeReply(200, Some(true), None, Some(AnalysisOf(text, parse)), None)
  }

  /** The serverless handler: preflight, method check, then the body. */
  function ApiAnalyze<J>(verb: Method, crashLog: Option<string>, model: ModelCall, parse: string -> Option<J>)
    : (r: AnalyzeReply<J>)
    ensures verb == Options ==> r.status == 200 && r.analysis.None? && r.success.None?
    ensures verb != Options && verb != Post ==> r.status == 405 && r.analysis.None? && r.success.None?
    ensures verb == Post ==> r == AnalyzeBody(crashLog, model, parse)
  {
    if verb == Options then AnalyzeReply(200, None, None, None, None)
    else if verb != Post then AnalyzeReply(405, None, Some("Method not allowed"), None, None)
    else AnalyzeBody(crashLog, model, parse)
  }

  /** Whenever the model replied to a valid request, the client gets success, parsed or not. */
  lemma RepliesSucceed<J>(verb: Method, log: string, text: string, parse: string -> Option<J>)
    requires verb == Post && log != ""
    ensures ApiAnalyze(verb, Some(log), Replied(text), parse).success == Some(true)
    ensures ApiAnalyze(verb, Some(log), Replied(text), parse).status == 200
  {
  }

  /** A reply without a closing brace after its first opening brace always gives the fallback. */
  lemma NoSpanFallsBack<J>(text: string, parse: string -> Option<J>)
    requires forall i, j :: 0 <= i < j < |text| && text[i] == '{' ==> text[j] != '}'
    ensures AnalysisOf(text, parse) == FallbackFor(text)
  {
  }
}
