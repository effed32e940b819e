/**
 * CrashBot: the local crash-log classifier (an ordered rule table, first match
 * wins, then a three-step resource-name extraction chain) and the issue ledger
 * that counts crash reports per resource.
 */
module CrashBot {
  import opened Wrappers
  import opened Seqs
  import Text

  datatype CrashType = Client | Resource | Unknown

  /** One entry of the knowledge base: a regular expression (flag i) and the diagnosis it stands for. */
  datatype Rule = Rule(
    regex: string,
    crashType: CrashType,
    cause: string,
    description: string,
    solutions: seq<string>,
    extractResource: bool)

  /** What the classifier returns. `rawMatch` is the text the winning pattern matched. */
  datatype Analysis = Analysis(
    crashType: CrashType,
    cause: string,
    description: string,
    solutions: seq<string>,
    resourceName: Option<string>,
    rawMatch: Option<string>)

  /**
   * A regular-expression engine, left abstract: the text of the leftmost match
   * of `regex` (case-insensitive) in `text`, or None when it does not match.
   */
  type Matcher = (string, string) -> Option<string>

  // ---------------------------------------------------------------------------
  // The knowledge base

  const KNOWLEDGE: seq<Rule> := [
    Rule("GTA5_b\\d+\\.exe.*EXCEPTION_ACCESS_VIOLATION", Client, "Memory Access Violation",
      "The game tried to access memory it shouldn't. This is often caused by corrupted game files or mod conflicts.",
      ["Verify your GTA V game files through Steam/Epic/Rockstar Launcher",
       "Clear your FiveM cache (AppData/Local/FiveM/FiveM.app/cache)",
       "Update your graphics drivers",
       "Disable any overlay software (Discord, GeForce Experience)"], false),
    Rule("citizen-resources.*lua.*error", Resource, "Lua Script Error",
      "A server resource encountered a Lua scripting error.",
      ["This is a server-side resource issue",
       "The error has been logged for our development team",
       "Try reconnecting to the server",
       "If the issue persists, contact server staff"], false),
    Rule("(\\w+[-_]?\\w*)\\.lua:\\d+:", Resource, "Resource Script Error",
      "A specific resource script crashed.",
      ["This resource has been flagged for review",
       "Our dev team will investigate and fix the issue",
       "Try reconnecting to the server"], true),
    Rule("out of memory|memory allocation failed", Client, "Out of Memory",
      "Your system ran out of available memory while running FiveM.",
      ["Close other applications to free up RAM",
       "Increase your Windows virtual memory/page file",
       "Consider upgrading your RAM if this happens frequently",
       "Lower your graphics settings in-game"], false),
    Rule("nvwgf2umx\\.dll|nvidia", Client, "NVIDIA Graphics Driver Crash",
      "Your NVIDIA graphics driver crashed.",
      ["Update to the latest NVIDIA drivers from nvidia.com",
       "Try rolling back to a previous driver version if recently updated",
       "Disable any NVIDIA overlay features",
       "Check your GPU temperatures for overheating"], false),
    Rule("atixxxx\\.dll|amd|radeon", Client, "AMD Graphics Driver Crash",
      "Your AMD graphics driver crashed.",
      ["Update to the latest AMD Adrenalin drivers",
       "Disable AMD ReLive and other overlay features",
       "Check your GPU temperatures",
       "Try disabling hardware acceleration in Discord"], false),
    Rule("citizen-server-impl|server.*crash", Resource, "Server-Side Crash",
      "The server experienced an issue that caused your disconnect.",
      ["This is a server-side issue, not your fault",
       "Wait a moment and try reconnecting",
       "The issue has been logged for investigation"], false),
    Rule("streaming.*failed|txd.*error|yft.*error|ydr.*error", Resource, "Asset Streaming Error",
      "Failed to load a game asset (texture, model, etc.)",
      ["Clear your FiveM cache",
       "This may be a corrupted server asset",
       "The issue has been reported to the dev team"], false),
    Rule("weapon.*invalid|weapon.*error", Resource, "Weapon Resource Error",
      "A custom weapon resource caused a crash.",
      ["The weapon addon has been flagged for review",
       "Try reconnecting to the server",
       "Avoid using the problematic weapon until fixed"], false),
    Rule("vehicle.*crash|handling.*error", Resource, "Vehicle Resource Error",
      "A custom vehicle resource caused a crash.",
      ["The vehicle addon has been flagged for review",
       "Avoid spawning the problematic vehicle until fixed",
       "Try reconnecting to the server"], false),
    Rule("esx|qbcore|vorp", Resource, "Framework Error",
      "The server framework encountered an error.",
      ["This is a server configuration issue",
       "The framework error has been logged",
       "Try reconnecting in a few minutes"], false),
    Rule("natives.*invalid|native.*not.*found", Resource, "Invalid Native Call",
      "A script tried to call an invalid game function.",
      ["This is a scripting error on the server",
       "The issue has been logged for our developers",
       "Try reconnecting to the server"], false)
  ]

  const UNKNOWN_CAUSE: string := "Unknown Crash"

  const UNKNOWN_DESCRIPTION: string := "The crash log doesn't match any known patterns."

  const UNKNOWN_SOLUTIONS: seq<string> := [
    "Clear your FiveM cache (AppData/Local/FiveM/FiveM.app/cache)",
    "Verify your GTA V game files",
    "Update your graphics drivers",
    "Try restarting your computer",
    "If the issue persists, contact server staff with this crash log"
  ]

  /** The result when no rule matches: the fixed unknown entry with no resource name. */
  const UNKNOWN_ANALYSIS: Analysis :=
    Analysis(Unknown, UNKNOWN_CAUSE, UNKNOWN_DESCRIPTION, UNKNOWN_SOLUTIONS, None, None)

  /** Every rule offers at least one solution, and only resource rules ask for extraction. */
  ghost predicate WellFormedTable(rules: seq<Rule>) {
    forall k :: 0 <= k < |rules| ==>
      && |rules[k].solutions| > 0
      && rules[k].crashType != Unknown
      && (rules[k].extractResource ==> rules[k].crashType == Resource)
  }

  lemma KnowledgeWellFormed()
    ensures |KNOWLEDGE| == 12 && WellFormedTable(KNOWLEDGE)
  {
  }

  // ---------------------------------------------------------------------------
  // Resource-name extraction: the three patterns tried in order
  //   /\[(\w+[-_]?\w*)\]/i,  /resources?[\/\\](\w+[-_]?\w*)/i,  /(\w+[-_]?\w*)\.lua/i

  predicate IsWordChar(c: char) {
    ('a' <= c <= 'z') || ('A' <= c <= 'Z') || ('0' <= c <= '9') || c == '_'
  }

  predicate IsTokenChar(c: char) {
    IsWordChar(c) || c == '-'
  }

  /**
   * The strings `\w+[-_]?\w*` matches as a whole: word characters and at most
   * one '-', starting with a word character (an '_' separator is itself a word character).
   */
  predicate IsToken(t: string) {
    && |t| > 0
    && IsWordChar(t[0])
    && (forall i :: 0 <= i < |t| ==> IsTokenChar(t[i]))
    && (forall i, j :: 0 <= i < j < |t| && t[i] == '-' ==> t[j] != '-')
  }

  /** End of the longest run of token characters starting at `i`. */
  function TokenRunEnd(s: string, i: nat): (k: nat)
    requires i <= |s|
    ensures i <= k <= |s|
    ensures forall m :: i <= m < k ==> IsTokenChar(s[m])
    ensures k < |s| ==> !IsTokenChar(s[k])
    decreases |s| - i
  {
    if i == |s| || !IsTokenChar(s[i]) then i else TokenRunEnd(s, i + 1)
  }

  /** End of the longest run of word characters starting at `i`. */
  function WordRunEnd(s: string, i: nat): (k: nat)
    requires i <= |s|
    ensures i <= k <= |s|
    ensures forall m :: i <= m < k ==> IsWordChar(s[m])
    ensures k < |s| ==> !IsWordChar(s[k])
    decreases |s| - i
  {
    if i == |s| || !IsWordChar(s[i]) then i else WordRunEnd(s, i + 1)
  }

  /** Case-insensitive comparison of `s[i..]` with a lower-case ASCII literal. */
  predicate LiteralAt(s: string, i: nat, lit: string) {
    i + |lit| <= |s| && forall m :: 0 <= m < |lit| ==> Text.AsciiLower(s[i + m]) == lit[m]
  }

  predicate IsSlash(c: char) {
    c == '/' || c == '\\'
  }

  datatype Extractor = Bracketed | ResourcePath | LuaFile

  /** The captured name when the extractor's pattern matches starting exactly at `i`. */
  function CaptureAt(e: Extractor, s: string, i: nat): (r: Option<string>)
    requires i <= |s|
    ensures r.Some? ==> IsToken(r.value)
  {
    match e
    case Bracketed => BracketedAt(s, i)
    case ResourcePath => ResourcePathAt(s, i)
    case LuaFile => LuaFileAt(s, i)
  }

  /** `\[(\w+[-_]?\w*)\]` at `i`: the name between the brackets. */
  function BracketedAt(s: string, i: nat): (r: Option<string>)
    requires i <= |s|
    ensures r.Some? ==> IsToken(r.value)
  {
    if i < |s| && s[i] == '[' then
      var k := TokenRunEnd(s, i + 1);
      if k < |s| && s[k] == ']' && IsToken(s[i + 1..k]) then Some(s[i + 1..k]) else None
    else None
  }

  /** `resources?[\/\\](\w+[-_]?\w*)` at `i`: the longest token after the slash. */
  function ResourcePathAt(s: string, i: nat): (r: Option<string>)
    requires i <= |s|
    ensures r.Some? ==> IsToken(r.value)
  {
    if !LiteralAt(s, i, "resource") then None
    else
      var p := if i + 9 < |s| && Text.AsciiLower(s[i + 8]) == 's' && IsSlash(s[i + 9]) then i + 10
               else if i + 8 < |s| && IsSlash(s[i + 8]) then i + 9
               else 0;
      if p == 0 || p >= |s| || !IsWordChar(s[p]) then None
      else
        var w := WordRunEnd(s, p);
        var q := if w < |s| && s[w] == '-' then WordRunEnd(s, w + 1) else w;
        WordsAroundDashAreToken(s, p, w, q);
        Some(s[p..q])
  }

  /** `(\w+[-_]?\w*)\.lua` at `i`: the file name before `.lua`. */
  function LuaFileAt(s: string, i: nat): (r: Option<string>)
    requires i <= |s|
    ensures r.Some? ==> IsToken(r.value)
  {
    var k := TokenRunEnd(s, i);
    if IsToken(s[i..k]) && LiteralAt(s, k, ".lua") then Some(s[i..k]) else None
  }

  /** Word characters, optionally a '-' and more word characters, form a token. */
  lemma WordsAroundDashAreToken(s: string, p: nat, w: nat, q: nat)
    requires p < w <= q <= |s|
    requires forall m :: p <= m < w ==> IsWordChar(s[m])
    requires q > w ==> s[w] == '-' && forall m :: w < m < q ==> IsWordChar(s[m])
    ensures IsToken(s[p..q])
  {
    var t := s[p..q];
    assert forall m :: 0 <= m < |t| ==> t[m] == s[p + m];
    assert forall m :: 0 <= m < |t| && t[m] == '-' ==> p + m == w;
  }

  /** The leftmost position at or after `i` where the extractor matches. */
  function FirstHit(e: Extractor, s: string, i: nat): (k: Option<nat>)
    requires i <= |s|
    ensures k.Some? ==> i <= k.value <= |s| && CaptureAt(e, s, k.value).Some? &&
                        forall j :: i <= j < k.value ==> CaptureAt(e, s, j).None?
    ensures k.None? ==> forall j :: i <= j <= |s| ==> CaptureAt(e, s, j).None?
    decreases |s| - i
  {
    if CaptureAt(e, s, i).Some? then Some(i)
    else if i == |s| then None
    else FirstHit(e, s, i + 1)
  }

  /** The extractor's pattern matches at no position of `s`. */
  predicate NoCapture(e: Extractor, s: string) {
    forall j :: 0 <= j <= |s| ==> CaptureAt(e, s, j).None?
  }

  /** What `String.prototype.match` captures: the capture at the leftmost matching position. */
  function Leftmost(e: Extractor, s: string): (r: Option<string>)
    ensures r.None? <==> NoCapture(e, s)
    ensures r.Some? ==> IsToken(r.value)
  {
    match FirstHit(e, s, 0)
    case Some(k) => CaptureAt(e, s, k)
    case None => None
  }

  /** `match(/\[..\]/) || match(/resources?[\/\\]../) || match(/...\.lua/)`, first success wins. */
  function ExtractResourceName(s: string): (r: Option<string>)
    ensures r.Some? ==> IsToken(r.value)
  {
    var b := Leftmost(Bracketed, s);
    if b.Some? then b
    else
      var p := Leftmost(ResourcePath, s);
      if p.Some? then p else Leftmost(LuaFile, s)
  }

  /** The chain yields nothing only when none of the three patterns matches anywhere. */
  lemma ExtractNoneIff(s: string)
    ensures ExtractResourceName(s).None? <==> forall e :: NoCapture(e, s)
  {
    if ExtractResourceName(s).None? {
      forall e ensures NoCapture(e, s) {
        assert Leftmost(e, s).None?;
      }
    } else {
      if Leftmost(Bracketed, s).Some? {
        assert !NoCapture(Bracketed, s);
      } else if Leftmost(ResourcePath, s).Some? {
        assert !NoCapture(ResourcePath, s);
      } else {
        assert !NoCapture(LuaFile, s);
      }
    }
  }

  /** A bracketed name wins over any later resources/ path or .lua file name. */
  lemma {:induction false} BracketedNameWins(name: string, rest: string)
    requires IsToken(name)
    ensures ExtractResourceName("[" + name + "]" + rest) == Some(name)
  {
    var s := "[" + name + "]" + rest;
    assert s[1..|name| + 1] == name;
    assert forall m :: 1 <= m < |name| + 1 ==> IsTokenChar(s[m]) by {
      forall m | 1 <= m < |name| + 1 ensures IsTokenChar(s[m]) {
        assert s[m] == name[m - 1];
      }
    }
    TokenRunEndIs(s, 1, |name| + 1);
    assert CaptureAt(Bracketed, s, 0) == Some(name);
  }

  /** A `resources/` path with no bracketed name anywhere gives the whole token after the slash. */
  lemma ResourcePathNameFound(name: string, rest: string)
    requires IsToken(name)
    requires rest == [] || !IsTokenChar(rest[0])
    requires forall m :: 0 <= m < |rest| ==> rest[m] != '['
    ensures ExtractResourceName("resources/" + name + rest) == Some(name)
  {
    var s := "resources/" + name + rest;
    NoBracketsAround("resources/", name, rest);
    NoBracketIn(s);
    ResourcePathAtStart(s, name, rest);
  }

  lemma NoBracketsAround(pre: string, name: string, rest: string)
    requires forall m :: 0 <= m < |pre| ==> pre[m] != '['
    requires IsToken(name)
    requires forall m :: 0 <= m < |rest| ==> rest[m] != '['
    ensures var s := pre + name + rest; forall m :: 0 <= m < |s| ==> s[m] != '['
  {
    var s := pre + name + rest;
    forall m | 0 <= m < |s| ensures s[m] != '[' {
      if m < |pre| { assert s[m] == pre[m]; }
      else if m < |pre| + |name| { assert s[m] == name[m - |pre|]; }
      else { assert s[m] == rest[m - |pre| - |name|]; }
    }
  }

  lemma ResourcePathAtStart(s: string, name: string, rest: string)
    requires s == "resources/" + name + rest
    requires IsToken(name)
    requires rest == [] || !IsTokenChar(rest[0])
    ensures ResourcePathAt(s, 0) == Some(name)
  {
    assert LiteralAt(s, 0, "resource");
    assert s[8] == 's' && IsSlash(s[9]);
    GreedyCaptureIs(s, 10, name, rest);
    assert s[10..10 + |name|] == name;
  }

  /** From a word character, `\w+[-_]?\w*` takes exactly a token followed by a non-token character. */
  lemma GreedyCaptureIs(s: string, p: nat, name: string, rest: string)
    requires p + |name| + |rest| == |s| && s[p..] == name + rest
    requires IsToken(name)
    requires rest == [] || !IsTokenChar(rest[0])
    ensures var w := WordRunEnd(s, p);
      (if w < |s| && s[w] == '-' then WordRunEnd(s, w + 1) else w) == p + |name|
  {
    var n := |name|;
    assert forall m :: 0 <= m < n ==> s[p + m] == (name + rest)[m] == name[m];
    assert rest != [] ==> s[p + n] == rest[0];
    var d := DashOrEnd(name);
    WordRunEndIs(s, p, p + d);
    if d < n {
      assert s[p + d] == '-';
      WordRunEndIs(s, p + d + 1, p + n);
    }
  }

  /** A `name.lua` at the start, with no bracket and no slash after it, gives that name. */
  lemma {:induction false} LuaNameFound(name: string, rest: string)
    requires IsToken(name)
    requires forall m :: 0 <= m < |rest| ==> rest[m] != '[' && !IsSlash(rest[m])
    ensures ExtractResourceName(name + ".lua" + rest) == Some(name)
  {
    var s := name + ".lua" + rest;
    var n := |name|;
    assert forall m :: 0 <= m < n ==> s[m] == name[m];
    assert forall m :: 0 <= m < |rest| ==> s[n + 4 + m] == rest[m];
    assert s[n] == '.' && s[n + 1] == 'l' && s[n + 2] == 'u' && s[n + 3] == 'a';
    NoBracketIn(s);
    forall j | 0 <= j <= |s| ensures CaptureAt(ResourcePath, s, j).None? {
      if j + 9 < |s| { assert !IsSlash(s[j + 8]) && !IsSlash(s[j + 9]); }
      else if j + 8 < |s| { assert !IsSlash(s[j + 8]); }
    }
    assert Leftmost(ResourcePath, s).None?;
    TokenRunEndIs(s, 0, n);
    assert s[0..n] == name;
    assert LiteralAt(s, n, ".lua");
    assert CaptureAt(LuaFile, s, 0) == Some(name);
  }

  /** A string without '[' has no bracketed capture. */
  lemma NoBracketIn(s: string)
    requires forall m :: 0 <= m < |s| ==> s[m] != '['
    ensures Leftmost(Bracketed, s).None?
  {
    assert NoCapture(Bracketed, s);
  }

  /** The position of a token's dash, or its length when it has none. */
  function DashOrEnd(t: string): (d: nat)
    requires IsToken(t)
    ensures 0 < d <= |t|
    ensures forall m :: 0 <= m < d ==> IsWordChar(t[m])
    ensures d < |t| ==> t[d] == '-' && forall m :: d < m < |t| ==> IsWordChar(t[m])
  {
    var k := WordRunEnd(t, 0);
    assert k < |t| ==> t[k] == '-';
    k
  }

  lemma {:induction false} WordRunEndIs(s: string, i: nat, k: nat)
    requires i <= k <= |s|
    requires forall m :: i <= m < k ==> IsWordChar(s[m])
    requires k < |s| ==> !IsWordChar(s[k])
    ensures WordRunEnd(s, i) == k
    decreases k - i
  {
    if i < k {
      WordRunEndIs(s, i + 1, k);
    }
  }

  lemma {:induction false} TokenRunEndIs(s: string, i: nat, k: nat)
    requires i <= k <= |s|
    requires forall m :: i <= m < k ==> IsTokenChar(s[m])
    requires k < |s| ==> !IsTokenChar(s[k])
    ensures TokenRunEnd(s, i) == k
    decreases k - i
  {
    if i < k {
      TokenRunEndIs(s, i + 1, k);
    }
  }

  // ---------------------------------------------------------------------------
  // The classifier

  /** Index of the first rule at or after `from` whose pattern matches. */
  function FirstMatch(rules: seq<Rule>, matcher: Matcher, content: string, from: nat): (r: Option<nat>)
    requires from <= |rules|
    ensures r.Some? ==> from <= r.value < |rules| && matcher(rules[r.value].regex, content).Some?
    ensures r.Some? ==> forall j :: from <= j < r.value ==> matcher(rules[j].regex, content).None?
    ensures r.None? <==> forall j :: from <= j < |rules| ==> matcher(rules[j].regex, content).None?
    decreases |rules| - from
  {
    if from == |rules| then None
    else if matcher(rules[from].regex, content).Some? then Some(from)
    else FirstMatch(rules, matcher, content, from + 1)
  }

  /** The diagnosis a matching rule gives: its own fields, and a resource name only for resource-flagged rules. */
  function FromRule(rule: Rule, matched: string, content: string): (a: Analysis)
    ensures a.crashType == rule.crashType && a.cause == rule.cause
    ensures a.description == rule.description && a.solutions == rule.solutions
    ensures a.rawMatch == Some(matched)
    ensures !(rule.extractResource || rule.crashType == Resource) ==> a.resourceName == None
    ensures (rule.extractResource || rule.crashType == Resource) ==> a.resourceName == ExtractResourceName(content)
  {
    Analysis(rule.crashType, rule.cause, rule.description, rule.solutions,
      if rule.extractResource || rule.crashType == Resource then ExtractResourceName(content) else None,
      Some(matched))
  }

  /** The specification of `analyzeCrashLog`: the first matching rule decides, else the unknown entry. */
  function Classify(rules: seq<Rule>, matcher: Matcher, content: string): (a: Analysis)
    ensures a.rawMatch.None? <==> forall j :: 0 <= j < |rules| ==> matcher(rules[j].regex, content).None?
    ensures a.rawMatch.None? ==> a == UNKNOWN_ANALYSIS
    ensures a.rawMatch.Some? ==> exists k :: (
      && 0 <= k < |rules| && FirstMatch(rules, matcher, content, 0) == Some(k)
      && a.rawMatch == matcher(rules[k].regex, content) && a.crashType == rules[k].crashType
      && a.cause == rules[k].cause && a.solutions == rules[k].solutions)
  {
    match FirstMatch(rules, matcher, content, 0)
    case Some(k) => FromRule(rules[k], matcher(rules[k].regex, content).value, content)
    case None => UNKNOWN_ANALYSIS
  }

  /** `analyzeCrashLog`: scans the rules in order and returns on the first match. */
  method AnalyzeCrashLog(rules: seq<Rule>, matcher: Matcher, content: string) returns (a: Analysis)
    ensures a == Classify(rules, matcher, content)
  {
    var i := 0;
    while i < |rules|
      invariant 0 <= i <= |rules|
      invariant FirstMatch(rules, matcher, content, 0) == FirstMatch(rules, matcher, content, i)
    {
      var m := matcher(rules[i].regex, content);
      if m.Some? {
        return FromRule(rules[i], m.value, content);
      }
      i := i + 1;
    }
    return UNKNOWN_ANALYSIS;
  }

  /** A rule that matches after no earlier rule matched decides the result; later rules are never consulted. */
  lemma FirstMatchWins(rules: seq<Rule>, matcher: Matcher, content: string, k: nat)
    requires k < |rules| && matcher(rules[k].regex, content).Some?
    requires forall j :: 0 <= j < k ==> matcher(rules[j].regex, content).None?
    ensures Classify(rules, matcher, content) == FromRule(rules[k], matcher(rules[k].regex, content).value, content)
  {
    var r := FirstMatch(rules, matcher, content, 0);
    assert r.Some?;
    assert r.value == k;
  }

  /** Results depend only on the rules up to the first match: appending rules changes nothing once one matched. */
  lemma LaterRulesIgnored(rules: seq<Rule>, more: seq<Rule>, matcher: Matcher, content: string)
    requires FirstMatch(rules, matcher, content, 0).Some?
    ensures Classify(rules + more, matcher, content) == Classify(rules, matcher, content)
  {
    var k := FirstMatch(rules, matcher, content, 0).value;
    assert (rules + more)[k] == rules[k];
    assert forall j :: 0 <= j < k ==> (rules + more)[j] == rules[j];
    FirstMatchWins(rules + more, matcher, content, k);
  }

  lemma NoMatchIsUnknown(rules: seq<Rule>, matcher: Matcher, content: string)
    requires forall j :: 0 <= j < |rules| ==> matcher(rules[j].regex, content).None?
    ensures Classify(rules, matcher, content) == UNKNOWN_ANALYSIS
    ensures |Classify(rules, matcher, content).solutions| == 5
    ensures Classify(rules, matcher, content).resourceName == None
  {
  }

  /**
   * With a well-formed table every result has solutions, and a resource name
   * appears only on a resource-type result.
   */
  lemma ClassifyShape(rules: seq<Rule>, matcher: Matcher, content: string)
    requires WellFormedTable(rules)
    ensures var a := Classify(rules, matcher, content);
      && |a.solutions| > 0
      && (a.crashType == Client ==> a.resourceName == None)
      && (a.crashType == Resource ==> a.resourceName == ExtractResourceName(content))
      && (a.crashType == Unknown ==> a == UNKNOWN_ANALYSIS)
  {
  }

  /**
   * The click handler's test after a well-formed table: a result is logged
   * exactly when it is a resource crash and the extraction chain found a name.
   */
  lemma LoggedIffResourceNamed(rules: seq<Rule>, matcher: Matcher, content: string)
    requires WellFormedTable(rules)
    ensures var a := Classify(rules, matcher, content);
      ShouldLog(a) <==> a.crashType == Resource && ExtractResourceName(content).Some?
  {
    ClassifyShape(rules, matcher, content);
  }

  /** The knowledge base: client rules never name a resource; a resource result names one iff extraction succeeds. */
  lemma KnowledgeResourceNames(matcher: Matcher, content: string)
    ensures var a := Classify(KNOWLEDGE, matcher, content);
      && |a.solutions| > 0
      && (a.crashType == Client ==> a.resourceName == None)
      && (a.crashType == Resource ==> a.resourceName == ExtractResourceName(content))
      && (a.crashType == Unknown ==> a == UNKNOWN_ANALYSIS)
  {
    KnowledgeWellFormed();
    ClassifyShape(KNOWLEDGE, matcher, content);
  }

  /** A log with a bracketed resource whose first matching rule is "Resource Script Error". */
  lemma ScriptErrorScenario(matcher: Matcher, name: string, rest: string)
    requires IsToken(name)
    requires matcher(KNOWLEDGE[0].regex, "[" + name + "]" + rest).None?
    requires matcher(KNOWLEDGE[1].regex, "[" + name + "]" + rest).None?
    requires matcher(KNOWLEDGE[2].regex, "[" + name + "]" + rest).Some?
    ensures var a := Classify(KNOWLEDGE, matcher, "[" + name + "]" + rest);
      a.crashType == Resource && a.cause == "Resource Script Error" && a.resourceName == Some(name)
  {
    var s := "[" + name + "]" + rest;
    FirstMatchWins(KNOWLEDGE, matcher, s, 2);
    BracketedNameWins(name, rest);
  }

  // ---------------------------------------------------------------------------
  // The issue ledger

  datatype Status = Pending | Fixed

  /** A crashReports document. Timestamps are server time, given as integers. */
  datatype IssueRecord = IssueRecord(
    id: nat,
    resourceName: string,
    cause: string,
    description: string,
    crashCount: nat,
    status: Status,
    createdAt: int,
    lastReported: int,
    fixedAt: Option<int>,
    fixedBy: Option<string>)

  /** The click handler logs an analysis only for a resource crash with a (non-empty) resource name. */
  predicate ShouldLog(a: Analysis) {
    a.crashType == Resource && a.resourceName.Some? && a.resourceName.value != ""
  }

  predicate IsOpen(r: IssueRecord) {
    r.status != Fixed
  }

  predicate IsPending(r: IssueRecord) {
    r.status == Pending
  }

  /** Sort key of `orderBy('crashCount', 'desc')` and of `(a, b) => b.crashCount - a.crashCount`. */
  predicate MoreReported(a: IssueRecord, b: IssueRecord) {
    a.crashCount >= b.crashCount
  }

  lemma MoreReportedIsPreorder()
    ensures TotalPreorder(MoreReported)
  {
  }

  ghost predicate UniqueNames(store: seq<IssueRecord>) {
    forall i, j :: 0 <= i < j < |store| ==> store[i].resourceName != store[j].resourceName
  }

  ghost predicate UniqueIds(store: seq<IssueRecord>) {
    forall i, j :: 0 <= i < j < |store| ==> store[i].id != store[j].id
  }

  /** Position of the record for `name` (the equality query's first document). */
  function Lookup(store: seq<IssueRecord>, name: string): (r: Option<nat>)
    ensures r.Some? ==> r.value < |store| && store[r.value].resourceName == name &&
                        forall j :: 0 <= j < r.value ==> store[j].resourceName != name
    ensures r.None? <==> forall j :: 0 <= j < |store| ==> store[j].resourceName != name
  {
    if store == [] then None
    else if store[0].resourceName == name then Some(0)
    else match Lookup(store[1..], name)
      case Some(k) => Some(k + 1)
      case None => None
  }

  function NewIssue(id: nat, name: string, cause: string, description: string, now: int): IssueRecord {
    IssueRecord(id, name, cause, description, 1, Pending, now, now, None, None)
  }

  /** The collection after `logResourceIssue`: bump the existing record, or add a fresh pending one. */
  function Reported(store: seq<IssueRecord>, name: string, cause: string, description: string,
                    now: int, freshId: nat): (r: seq<IssueRecord>)
    ensures Lookup(store, name).Some? ==>
      var k := Lookup(store, name).value;
      && |r| == |store|
      && r[k] == store[k].(crashCount := store[k].crashCount + 1, lastReported := now)
      && forall j :: 0 <= j < |store| && j != k ==> r[j] == store[j]
    ensures Lookup(store, name).None? ==> r == store + [NewIssue(freshId, name, cause, description, now)]
  {
    match Lookup(store, name)
    case Some(k) => store[k := store[k].(crashCount := store[k].crashCount + 1, lastReported := now)]
    case None => store + [NewIssue(freshId, name, cause, description, now)]
  }

  /** Two reports of a new name give one record, counted twice, with the first report's cause and description. */
  lemma ReportTwice(store: seq<IssueRecord>, name: string, c1: string, d1: string, t1: int, id1: nat,
                    c2: string, d2: string, t2: int, id2: nat)
    requires Lookup(store, name).None?
    ensures var r := Reported(Reported(store, name, c1, d1, t1, id1), name, c2, d2, t2, id2);
      && |r| == |store| + 1
      && r[..|store|] == store
      && r[|store|] == IssueRecord(id1, name, c1, d1, 2, Pending, t1, t2, None, None)
  {
    var once := Reported(store, name, c1, d1, t1, id1);
    assert forall j :: 0 <= j < |store| ==> once[j] == store[j];
    assert once[|store|].resourceName == name;
    assert Lookup(once, name) == Some(|store|);
  }

  /** Reporting leaves at most one record per name in place. */
  lemma ReportedKeepsNamesUnique(store: seq<IssueRecord>, name: string, cause: string, description: string,
                                 now: int, freshId: nat)
    requires UniqueNames(store)
    ensures UniqueNames(Reported(store, name, cause, description, now, freshId))
    ensures exists k :: (0 <= k < |Reported(store, name, cause, description, now, freshId)| &&
      Reported(store, name, cause, description, now, freshId)[k].resourceName == name)
  {
    var r := Reported(store, name, cause, description, now, freshId);
    if Lookup(store, name).None? {
      assert r[|store|].resourceName == name;
    } else {
      assert r[Lookup(store, name).value].resourceName == name;
    }
  }

  /** The collection after `markIssueFixed(id, by)`; a missing id leaves it unchanged. */
  function MarkedFixed(store: seq<IssueRecord>, id: nat, fixer: string, now: int): (r: seq<IssueRecord>)
    ensures |r| == |store|
    ensures forall j :: 0 <= j < |store| && store[j].id != id ==> r[j] == store[j]
    ensures forall j :: 0 <= j < |store| && store[j].id == id ==>
      r[j] == store[j].(status := Fixed, fixedAt := Some(now), fixedBy := Some(fixer))
  {
    seq(|store|, j requires 0 <= j < |store| =>
      if store[j].id == id then store[j].(status := Fixed, fixedAt := Some(now), fixedBy := Some(fixer)) else store[j])
  }

  /** Marking the same issue fixed again changes nothing more. */
  lemma MarkFixedIdempotent(store: seq<IssueRecord>, id: nat, fixer: string, now: int)
    ensures MarkedFixed(MarkedFixed(store, id, fixer, now), id, fixer, now) == MarkedFixed(store, id, fixer, now)
  {
  }

  /** `orderBy('crashCount', 'desc')` as the listing query returns it. */
  function ByCountDesc(store: seq<IssueRecord>): (r: seq<IssueRecord>)
    ensures multiset(r) == multiset(store)
    ensures forall i, j :: 0 <= i < j < |r| ==> r[i].crashCount >= r[j].crashCount
  {
    MoreReportedIsPreorder();
    Sort(store, MoreReported)
  }

  /** `getIssuesPrioritized`: the issues not fixed, most reported first. */
  function Prioritized(issues: seq<IssueRecord>): (r: seq<IssueRecord>)
    ensures multiset(r) == multiset(Filter(issues, IsOpen))
    ensures forall i :: 0 <= i < |r| ==> r[i].status != Fixed
    ensures forall x :: x in r <==> x in issues && x.status != Fixed
    ensures forall i, j :: 0 <= i < j < |r| ==> r[i].crashCount >= r[j].crashCount
  {
    var open := Filter(issues, IsOpen);
    var r := ByCountDesc(open);
    SameMembers(r, open);
    AllOpen(r, open);
    r
  }

  lemma AllOpen(r: seq<IssueRecord>, open: seq<IssueRecord>)
    requires forall x :: x in r <==> x in open
    requires forall x :: x in open ==> IsOpen(x)
    ensures forall i :: 0 <= i < |r| ==> r[i].status != Fixed
  {
    forall i | 0 <= i < |r| ensures r[i].status != Fixed {
      assert r[i] in open;
    }
  }

  /** The issue count shown beside the list: the pending issues. */
  function PendingCount(issues: seq<IssueRecord>): (n: nat)
    ensures n <= |issues|
  {
    |Filter(issues, IsPending)|
  }

  /** Statuses are only pending or fixed, so the displayed count is the length of the priority list. */
  lemma PendingCountIsPrioritizedLength(issues: seq<IssueRecord>)
    ensures PendingCount(issues) == |Prioritized(issues)|
  {
    assert forall x :: IsPending(x) == IsOpen(x);
    FilterSame(issues);
    assert |multiset(Prioritized(issues))| == |multiset(Filter(issues, IsOpen))|;
  }

  lemma {:induction false} FilterSame(issues: seq<IssueRecord>)
    ensures Filter(issues, IsPending) == Filter(issues, IsOpen)
    decreases |issues|
  {
    if issues != [] {
      FilterSame(issues[1..]);
    }
  }

  /** One record per resource name, distinct ids below the next fresh id, and every count at least 1. */
  ghost predicate StoreValid(store: seq<IssueRecord>, nextId: nat) {
    && UniqueNames(store)
    && UniqueIds(store)
    && (forall j :: 0 <= j < |store| ==> store[j].id < nextId && store[j].crashCount >= 1)
  }

  /** A report keeps the store valid, with the fresh id used up only when a record is added. */
  lemma ReportedValid(store: seq<IssueRecord>, name: string, cause: string, description: string,
                      now: int, nextId: nat)
    requires StoreValid(store, nextId)
    ensures StoreValid(Reported(store, name, cause, description, now, nextId),
                       if Lookup(store, name).Some? then nextId else nextId + 1)
  {
    ReportedKeepsNamesUnique(store, name, cause, description, now, nextId);
  }

  lemma MarkedFixedValid(store: seq<IssueRecord>, id: nat, fixer: string, now: int, nextId: nat)
    requires StoreValid(store, nextId)
    ensures StoreValid(MarkedFixed(store, id, fixer, now), nextId)
  {
  }

  /**
   * The crashReports collection and the page's cached `knownIssues` list,
   * with the operations the page performs on them one at a time.
   */
  class IssueLedger {
    var store: seq<IssueRecord>
    var knownIssues: seq<IssueRecord>
    var nextId: nat

    ghost predicate Valid()
      reads this
    {
      StoreValid(store, nextId) && knownIssues == ByCountDesc(store)
    }

    constructor ()
      ensures Valid() && store == [] && knownIssues == []
    {
      store := [];
      knownIssues := [];
      nextId := 0;
      assert ByCountDesc([]) == [];
    }

    /** `loadKnownIssues`: rebuilds the cache, one pushed document at a time, from the sorted query. */
    method LoadKnownIssues()
      modifies this`knownIssues
      ensures knownIssues == ByCountDesc(store)
    {
      var snapshot := ByCountDesc(store);
      knownIssues := [];
      for i := 0 to |snapshot|
        invariant knownIssues == snapshot[..i]
      {
        knownIssues := knownIssues + [snapshot[i]];
      }
    }

    /** `logResourceIssue`, taken as one sequential step. */
    method LogResourceIssue(name: string, cause: string, description: string, now: int)
      requires Valid()
      modifies this
      ensures Valid()
      ensures store == Reported(old(store), name, cause, description, now, old(nextId))
      ensures knownIssues == ByCountDesc(store)
    {
      ReportedValid(store, name, cause, description, now, nextId);
      var found := Lookup(store, name);
      store := Reported(store, name, cause, description, now, nextId);
      if found.None? {
        nextId := nextId + 1;
      }
      LoadKnownIssues();
    }

    /** `markIssueFixed(issueId, fixedBy)`; an unknown id makes the update fail, and nothing changes. */
    method MarkIssueFixed(id: nat, fixer: string, now: int)
      requires Valid()
      modifies this`store, this`knownIssues
      ensures Valid()
      ensures store == MarkedFixed(old(store), id, fixer, now)
      ensures (forall j :: 0 <= j < |old(store)| ==> old(store)[j].id != id) ==>
        store == old(store) && knownIssues == old(knownIssues)
    {
      if exists j :: 0 <= j < |store| && store[j].id == id {
        MarkedFixedValid(store, id, fixer, now, nextId);
        store := MarkedFixed(store, id, fixer, now);
        LoadKnownIssues();
      } else {
        assert MarkedFixed(store, id, fixer, now) == store;
      }
    }

    /** After an analysis is shown: log it when it names a resource. */
    method HandleAnalysis(a: Analysis, now: int)
      requires Valid()
      modifies this
      ensures Valid()
      ensures ShouldLog(a) ==>
        store == Reported(old(store), a.resourceName.value, a.cause, a.description, now, old(nextId)) &&
        knownIssues == ByCountDesc(store)
      ensures !ShouldLog(a) ==> store == old(store) && knownIssues == old(knownIssues) && nextId == old(nextId)
    {
      if ShouldLog(a) {
        LogResourceIssue(a.resourceName.value, a.cause, a.description, now);
      }
    }

    /** `getIssuesPrioritized`: the cached issues that are not fixed, most reported first. */
    function GetIssuesPrioritized(): (r: seq<IssueRecord>)
      reads this
      ensures forall x :: x in r <==> x in knownIssues && x.status != Fixed
      ensures multiset(r) == multiset(Filter(knownIssues, IsOpen))
      ensures forall i, j :: 0 <= i < j < |r| ==> r[i].crashCount >= r[j].crashCount
    {
      Prioritized(knownIssues)
    }
  }

  /** The local strategy never yields a name the click handler would refuse to log. */
  lemma LocalNamesAreLoggable(matcher: Matcher, content: string)
    ensures var a := Classify(KNOWLEDGE, matcher, content);
      a.crashType == Resource && a.resourceName.Some? ==> ShouldLog(a)
  {
  }
}
