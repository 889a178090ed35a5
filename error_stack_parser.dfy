/** The console's Error#stack parser (front_end/panels/console/ErrorStackParser.ts):
    it splits a stack into lines, recognises `at ...` call-frame lines, locates the
    URL inside each one, folds link-less builtin frames and Hermes "skipping" markers
    into the previous entry, and later attaches protocol script ids to linked frames.
    The URL helpers it calls are parameters (`UrlEnv`). */
module ErrorStackParser {
  import opened Wrappers
  import opened Strings

  // ---------------------------------------------------------------------------
  // Entities

  /** The special Hermes frame kinds the parser recognises. */
  datatype HermesFrameKind = Native | Eval | EmptyUrl | AddressAt | SkippingFrames

  datatype Link = Link(
    url: string,
    prefix: string,
    suffix: string,
    lineNumber: Option<int>,
    columnNumber: Option<int>,
    enclosedInBraces: bool,
    scriptId: Option<string>)

  /** One entry of the parse. An entry without `isCallFrame` in the source is
      represented with `isCallFrame == false`. */
  datatype ParsedErrorFrame = ParsedErrorFrame(line: string, isCallFrame: bool, link: Option<Link>)

  /** What `ParsedURL.splitLineAndColumn` returns. */
  datatype SplitResult = SplitResult(url: string, lineNumber: Option<int>, columnNumber: Option<int>)

  /** The helpers the parser calls: URL splitting and classification, the debugger's
      script lookup (number of scripts for a source URL), `new URL(url, 'file://').href`
      and the inspected target's URL. */
  datatype UrlEnv = UrlEnv(
    splitLineAndColumn: string -> SplitResult,
    isValidUrlString: string -> bool,
    isRelativeUrl: string -> bool,
    completeUrl: (string, string) -> Option<string>,
    scriptCountForSourceUrl: string -> nat,
    fileUrlHref: string -> string,
    inspectedUrl: string)

  /** The reasons reported to the symbolication-failed metric. */
  datatype FailureReason = AtUrlNotFound | LeftParenNotFound | RightParenNotFound | UrlParsingFailed

  /** `NotAnErrorStack` and `SymbolicationFailed` are both `null` in the source; the
      latter is the case in which the failure metric is sent. */
  datatype ParseResult =
    | NotAnErrorStack
    | SymbolicationFailed(line: string, reason: FailureReason)
    | Parsed(frames: seq<ParsedErrorFrame>)

  /** A frame of the protocol's Runtime.StackTrace. */
  datatype ProtocolCallFrame = ProtocolCallFrame(
    functionName: string, scriptId: string, url: string, lineNumber: int, columnNumber: int)

  function ReasonText(reason: FailureReason): string
  {
    match reason
    case AtUrlNotFound => "\"at (url)\" not found"
    case LeftParenNotFound => "left \"(\" not found"
    case RightParenNotFound => "right \"(\" not found"
    case UrlParsingFailed => "url parsing failed"
  }

  // ---------------------------------------------------------------------------
  // Classifiers

  /** getSpecialHermesFrameBasedOnURL */
  function SpecialFrameForUrl(url: string): (r: Option<HermesFrameKind>)
    ensures r == Some(Native) <==> url == "native"
    ensures r == Some(Eval) <==> url == "eval"
    ensures r == Some(EmptyUrl) <==> url == ""
    ensures r == Some(AddressAt) <==> StartsWith(url, "address at ")
    ensures r != Some(SkippingFrames)
  {
    if url == "native" then Some(Native)
    else if url == "eval" then Some(Eval)
    else if url == "" then Some(EmptyUrl)
    else if StartsWith(url, "address at ") then Some(AddressAt)
    else None
  }

  /** The part of `/^\s*... skipping \d+ frames$/` after the leading `\s*`, tried at `w`:
      three characters other than line terminators, " skipping ", digits, " frames",
      end of input. */
  predicate SkippingTailAt(s: string, w: nat)
  {
    && w + 3 <= |s|
    && !IsLineTerminator(s[w]) && !IsLineTerminator(s[w + 1]) && !IsLineTerminator(s[w + 2])
    && var t := s[w + 3..];
       && |t| >= 18
       && t[..10] == " skipping "
       && t[|t| - 7..] == " frames"
       && AllDigits(t[10..|t| - 7])
  }

  /** The regular expression's meaning: some run of white space, then the tail. */
  ghost predicate MatchesSkippingPattern(s: string)
  {
    exists w :: 0 <= w <= |s| && (forall i :: 0 <= i < w ==> IsSpace(s[i])) && SkippingTailAt(s, w)
  }

  /** Backtracking search over the length of the leading `\s*`. */
  function SkippingFrom(s: string, w: nat): bool
    decreases |s| - w
  {
    if w > |s| then false
    else SkippingTailAt(s, w) || (w < |s| && IsSpace(s[w]) && SkippingFrom(s, w + 1))
  }

  lemma {:induction false} SkippingFromSearches(s: string, w: nat)
    requires w <= |s| && forall i :: 0 <= i < w ==> IsSpace(s[i])
    ensures SkippingFrom(s, w) <==>
      exists v :: w <= v <= |s| && (forall i :: 0 <= i < v ==> IsSpace(s[i])) && SkippingTailAt(s, v)
    decreases |s| - w
  {
    if w < |s| && IsSpace(s[w]) {
      SkippingFromSearches(s, w + 1);
    }
    if !SkippingTailAt(s, w) && (exists v :: w <= v <= |s| && (forall i :: 0 <= i < v ==> IsSpace(s[i])) && SkippingTailAt(s, v)) {
      var v :| w <= v <= |s| && (forall i :: 0 <= i < v ==> IsSpace(s[i])) && SkippingTailAt(s, v);
      assert v > w && IsSpace(s[w]);
    }
  }

  /** getSpecialHermesFrameBasedOnLine */
  function SpecialFrameForLine(line: string): (r: Option<HermesFrameKind>)
    ensures r.Some? <==> MatchesSkippingPattern(line)
    ensures r.Some? ==> r.value == SkippingFrames
  {
    SkippingFromSearches(line, 0);
    if SkippingFrom(line, 0) then Some(SkippingFrames) else None
  }

  predicate IsNameChar(c: char)
  {
    IsWordChar(c) || c == '.'
  }

  /** "Error" at `k`, followed by a word boundary. */
  predicate ErrorWordAt(s: string, k: nat)
  {
    k + 5 <= |s| && s[k..k + 5] == "Error" && (k + 5 == |s| || !IsWordChar(s[k + 5]))
  }

  /** The meaning of `/^[\w.]*Error\b/`. */
  ghost predicate MatchesErrorNamePattern(s: string)
  {
    exists k :: 0 <= k <= |s| && (forall i :: 0 <= i < k ==> IsNameChar(s[i])) && ErrorWordAt(s, k)
  }

  function ErrorNameFrom(s: string, k: nat): bool
    decreases |s| - k
  {
    if k > |s| then false
    else ErrorWordAt(s, k) || (k < |s| && IsNameChar(s[k]) && ErrorNameFrom(s, k + 1))
  }

  lemma {:induction false} ErrorNameFromSearches(s: string, k: nat)
    requires k <= |s| && forall i :: 0 <= i < k ==> IsNameChar(s[i])
    ensures ErrorNameFrom(s, k) <==>
      exists j :: k <= j <= |s| && (forall i :: 0 <= i < j ==> IsNameChar(s[i])) && ErrorWordAt(s, j)
    decreases |s| - k
  {
    if k < |s| && IsNameChar(s[k]) {
      ErrorNameFromSearches(s, k + 1);
    }
    if !ErrorWordAt(s, k) && (exists j :: k <= j <= |s| && (forall i :: 0 <= i < j ==> IsNameChar(s[i])) && ErrorWordAt(s, j)) {
      var j :| k <= j <= |s| && (forall i :: 0 <= i < j ==> IsNameChar(s[i])) && ErrorWordAt(s, j);
      assert j > k && IsNameChar(s[k]);
    }
  }

  /** The guard at the start of the parse. */
  function StartsWithErrorName(stack: string): (r: bool)
    ensures r <==> MatchesErrorNamePattern(stack)
  {
    ErrorNameFromSearches(stack, 0);
    ErrorNameFrom(stack, 0)
  }

  function LeadingSpaces(s: string): (n: nat)
    ensures n <= |s|
    ensures forall i :: 0 <= i < n ==> IsSpace(s[i])
    ensures n == |s| || !IsSpace(s[n])
  {
    if |s| == 0 || !IsSpace(s[0]) then 0 else 1 + LeadingSpaces(s[1..])
  }

  predicate AtKeywordAt(s: string, w: nat)
  {
    w + 3 <= |s| && s[w] == 'a' && s[w + 1] == 't' && IsSpace(s[w + 2])
  }

  /** The length of the match of `/^\s*at\s(async\s)?/`, if the line matches. */
  function CallFrameMatch(line: string): (r: Option<nat>)
    ensures r.Some? <==>
      exists w :: 0 <= w <= |line| && (forall i :: 0 <= i < w ==> IsSpace(line[i])) && AtKeywordAt(line, w)
    ensures r.Some? ==> 3 <= r.value <= |line|
    ensures r.Some? ==>
      var w := LeadingSpaces(line);
      r.value == if w + 9 <= |line| && line[w + 3..w + 8] == "async" && IsSpace(line[w + 8]) then w + 9 else w + 3
  {
    var w := LeadingSpaces(line);
    if AtKeywordAt(line, w) then
      if w + 9 <= |line| && line[w + 3..w + 8] == "async" && IsSpace(line[w + 8]) then Some(w + 9)
      else Some(w + 3)
    else
      None
  }

  /** Appending text to a call-frame line keeps it a call-frame line. */
  lemma CallFrameMatchExtends(a: string, b: string)
    requires CallFrameMatch(a).Some?
    ensures CallFrameMatch(a + b).Some?
  {
    var w :| 0 <= w <= |a| && (forall i :: 0 <= i < w ==> IsSpace(a[i])) && AtKeywordAt(a, w);
    assert (forall i :: 0 <= i < w ==> IsSpace((a + b)[i])) && AtKeywordAt(a + b, w);
  }

  // ---------------------------------------------------------------------------
  // Locating the URL inside a call-frame line

  datatype SpanResult = Span(left: nat, right: nat, enclosedInBraces: bool) | LeftParenMissing | RightParenMissing

  /** `left` points just after a ` (` that does not open an `eval at `. */
  predicate OpensLink(line: string, left: int)
  {
    2 <= left <= |line| && line[left - 2..left] == " (" && !StartsWith(line[left..], "eval at ")
  }

  /** What the `)` / ` (` / `eval at ` loop establishes about `left` and `right`. */
  predicate ValidSpan(line: string, start: int, left: int, right: int, enclosed: bool)
  {
    && 0 <= start <= left <= |line| && 0 <= right <= |line|
    && (enclosed <==> EndsWith(line, ")"))
    && (!enclosed ==> left == start && right == |line|)
    && (enclosed ==> right < |line| && OpensLink(line, left))
    && (right == 0 || line[right - 1] != ')')
  }

  /** The test `line[right - 1] === ')'` of the outer loop, in the state
      (`left`, `right`, `enclosedInBraces`). */
  function SpanWhile(line: string, left: nat, right: nat, enclosed: bool): (r: SpanResult)
    requires left <= |line| && right <= |line|
    requires !enclosed ==> right == |line|
    requires enclosed ==> right < |line| && EndsWith(line, ")") && OpensLink(line, left)
    ensures r.Span? ==> ValidSpan(line, left, r.left, r.right, r.enclosedInBraces)
    ensures !r.Span? ==> EndsWith(line, ")")
    decreases right, 0
  {
    if right > 0 && line[right - 1] == ')' then SpanSearch(line, left, right - 1)
    else
      assert !enclosed ==> (EndsWith(line, ")") <==> |line| > 0 && line[|line| - 1] == ')');
      Span(left, right, enclosed)
  }

  /** The inner `do ... while (true)`: the next ` (` at or after `left`; past an
      `eval at `, `right` moves before the last `, ` at or before it. */
  function SpanSearch(line: string, left: nat, right: nat): (r: SpanResult)
    requires left <= |line| && right < |line| && EndsWith(line, ")")
    ensures r.Span? ==> ValidSpan(line, left, r.left, r.right, r.enclosedInBraces) && r.enclosedInBraces
    decreases right, 1
  {
    var open := IndexOfFrom(line, " (", left);
    if open < 0 then LeftParenMissing
    else if !StartsWith(line[open + 2..], "eval at ") then SpanWhile(line, open + 2, right, true)
    else
      var comma := LastIndexOfAtMost(line, ", ", right);
      if comma - 1 < 0 then RightParenMissing
      else SpanSearch(line, open + 10, comma - 1)
  }

  /** The span the loop at ts:120-143 computes, starting after the `at` match. */
  function SpanRef(line: string, start: nat): (r: SpanResult)
    requires start <= |line|
    ensures r.Span? ==> ValidSpan(line, start, r.left, r.right, r.enclosedInBraces)
    ensures !r.Span? ==> EndsWith(line, ")")
  {
    SpanWhile(line, start, |line|, false)
  }

  /** A ` (` that opens no `eval at ` ends the search. */
  lemma SpanSearchFindsLink(line: string, left: nat, right: nat, open: int)
    requires left <= |line| && right < |line| && EndsWith(line, ")")
    requires open == IndexOfFrom(line, " (", left) && open >= 0
    requires !StartsWith(line[open + 2..], "eval at ")
    ensures SpanSearch(line, left, right) == SpanWhile(line, open + 2, right, true)
  {
  }

  /** Past an `eval at `, the search goes on before the last `, `. */
  lemma SpanSearchSkipsEval(line: string, left: nat, right: nat, open: int, comma: int)
    requires left <= |line| && right < |line| && EndsWith(line, ")")
    requires open == IndexOfFrom(line, " (", left) && open >= 0
    requires StartsWith(line[open + 2..], "eval at ")
    requires comma == LastIndexOfAtMost(line, ", ", right) && comma - 1 >= 0
    ensures SpanSearch(line, left, right) == SpanSearch(line, open + 10, comma - 1)
  {
  }

  method LocateLinkSpan(line: string, start: nat) returns (r: SpanResult)
    requires start <= |line|
    ensures r == SpanRef(line, start)
    ensures r.Span? ==> ValidSpan(line, start, r.left, r.right, r.enclosedInBraces)
    ensures !r.Span? ==> EndsWith(line, ")")
  {
    var left: nat := start;
    var right: nat := |line|;
    var enclosed := false;
    while right > 0 && line[right - 1] == ')'
      invariant left <= |line| && right <= |line|
      invariant !enclosed ==> right == |line|
      invariant enclosed ==> right < |line| && EndsWith(line, ")") && OpensLink(line, left)
      invariant SpanWhile(line, left, right, enclosed) == SpanRef(line, start)
      decreases right
    {
      ghost var before := right;
      assert EndsWith(line, ")");
      right := right - 1;
      enclosed := true;
      while true
        invariant left <= |line| && right < before && right < |line| && EndsWith(line, ")")
        invariant SpanSearch(line, left, right) == SpanRef(line, start)
        decreases right
      {
        ghost var searchFrom := left;
        var open := IndexOfFrom(line, " (", left);
        if open < 0 {
          return LeftParenMissing;
        }
        left := open + 2;
        if !StartsWith(line[left..], "eval at ") {
          SpanSearchFindsLink(line, searchFrom, right, open);
          break;
        }
        left := left + 8;
        var comma := LastIndexOfAtMost(line, ", ", right);
        if comma - 1 < 0 {
          return RightParenMissing;
        }
        SpanSearchSkipsEval(line, searchFrom, right, open, comma);
        assert left == open + 10;
        right := comma - 1;
      }
    }
    return Span(left, right, enclosed);
  }

  predicate IsBuiltinUrl(url: string)
  {
    url == "<anonymous>" || SpecialFrameForUrl(url).Some?
  }

  /** parseOrScriptMatch */
  function ParseOrScriptMatch(env: UrlEnv, url: Option<string>): (r: Option<string>)
    ensures r.Some? ==> url.Some? && url.value != ""
    ensures r.Some? ==>
      || (r.value == url.value && (env.isValidUrlString(url.value) || env.scriptCountForSourceUrl(url.value) > 0))
      || (r.value == env.fileUrlHref(url.value) && env.scriptCountForSourceUrl(r.value) > 0)
    ensures Truthy(url) && (env.isValidUrlString(url.value) || env.scriptCountForSourceUrl(url.value) > 0) ==> r == url
  {
    if !Truthy(url) then None
    else if env.isValidUrlString(url.value) then url
    else if env.scriptCountForSourceUrl(url.value) > 0 then url
    else
      var fileUrl := env.fileUrlHref(url.value);
      if env.scriptCountForSourceUrl(fileUrl) > 0 then Some(fileUrl) else None
  }

  /** The URL of a linked frame (ts:161-164): the split URL itself, or else, for a
      relative URL, the URL completed against the inspected URL. */
  function ResolveFrameUrl(env: UrlEnv, splitUrl: string): (r: Option<string>)
    ensures Truthy(ParseOrScriptMatch(env, Some(splitUrl))) ==> r == ParseOrScriptMatch(env, Some(splitUrl))
    ensures !env.isRelativeUrl(splitUrl) ==> r == ParseOrScriptMatch(env, Some(splitUrl))
    ensures !Truthy(ParseOrScriptMatch(env, Some(splitUrl))) && env.isRelativeUrl(splitUrl) ==>
      r == ParseOrScriptMatch(env, env.completeUrl(env.inspectedUrl, splitUrl))
    ensures Truthy(r) && r != ParseOrScriptMatch(env, Some(splitUrl)) ==>
      env.isRelativeUrl(splitUrl) && !Truthy(ParseOrScriptMatch(env, Some(splitUrl)))
  {
    var url := ParseOrScriptMatch(env, Some(splitUrl));
    if !Truthy(url) && env.isRelativeUrl(splitUrl) then
      ParseOrScriptMatch(env, env.completeUrl(env.inspectedUrl, splitUrl))
    else url
  }

  /** The text between `prefix` and `suffix`, as `line.substring(left, right)`. */
  function LinkCandidate(line: string, link: Link): string
  {
    JsSubstring(line, |link.prefix|, |line| - |link.suffix|)
  }

  /** A link as the parser builds it from `line`. */
  predicate LinkFitsLine(env: UrlEnv, line: string, link: Link)
  {
    && StartsWith(line, link.prefix)
    && EndsWith(line, link.suffix)
    && CallFrameMatch(line).Some?
    && ValidSpan(line, CallFrameMatch(line).value, |link.prefix|, |line| - |link.suffix|, link.enclosedInBraces)
    && var split := env.splitLineAndColumn(LinkCandidate(line, link));
       && !IsBuiltinUrl(split.url)
       && ResolveFrameUrl(env, split.url) == Some(link.url)
       && link.url != ""
       && link.lineNumber == split.lineNumber
       && link.columnNumber == split.columnNumber
       && link.scriptId.None?
  }

  datatype CallFrameOutcome =
    | BuiltinFrame(candidate: string)
    | LinkedFrame(link: Link)
    | CallFrameFailed(reason: FailureReason)

  lemma PrefixAndSuffix(line: string, left: nat, right: nat)
    requires left <= |line| && right <= |line|
    ensures StartsWith(line, line[..left]) && |line[..left]| == left
    ensures EndsWith(line, line[right..]) && |line| - |line[right..]| == right
  {
  }

  /** `splitLineAndColumn(line.substring(left, right))` for a located span. */
  function SplitOfSpan(env: UrlEnv, line: string, span: SpanResult): SplitResult
    requires span.Span?
  {
    env.splitLineAndColumn(JsSubstring(line, span.left, span.right))
  }

  /** The handling of one `at ...` line (ts:119-181): locate the URL span, split off
      line and column, recognise builtin frames, resolve the URL. */
  function CallFrameRef(env: UrlEnv, line: string): (o: CallFrameOutcome)
    requires CallFrameMatch(line).Some?
    ensures var span := SpanRef(line, CallFrameMatch(line).value);
      && (o == CallFrameFailed(LeftParenNotFound) <==> span.LeftParenMissing?)
      && (o == CallFrameFailed(RightParenNotFound) <==> span.RightParenMissing?)
      && (o.BuiltinFrame? <==> span.Span? && IsBuiltinUrl(SplitOfSpan(env, line, span).url))
      && (o == CallFrameFailed(UrlParsingFailed) <==>
            && span.Span? && !IsBuiltinUrl(SplitOfSpan(env, line, span).url)
            && !Truthy(ResolveFrameUrl(env, SplitOfSpan(env, line, span).url)))
      && (o.BuiltinFrame? ==> o.candidate == JsSubstring(line, span.left, span.right))
      && (o.LinkedFrame? ==>
            && span.Span?
            && o.link.prefix == line[..span.left] && o.link.suffix == line[span.right..]
            && o.link.enclosedInBraces == span.enclosedInBraces
            && Some(o.link.url) == ResolveFrameUrl(env, SplitOfSpan(env, line, span).url)
            && o.link.lineNumber == SplitOfSpan(env, line, span).lineNumber
            && o.link.columnNumber == SplitOfSpan(env, line, span).columnNumber
            && o.link.scriptId.None?)
    ensures o != CallFrameFailed(AtUrlNotFound)
    ensures o.LinkedFrame? ==> LinkFitsLine(env, line, o.link)
  {
    var start := CallFrameMatch(line).value;
    match SpanRef(line, start)
    case LeftParenMissing => CallFrameFailed(LeftParenNotFound)
    case RightParenMissing => CallFrameFailed(RightParenNotFound)
    case Span(left, right, enclosed) =>
      var candidate := JsSubstring(line, left, right);
      var split := env.splitLineAndColumn(candidate);
      if IsBuiltinUrl(split.url) then BuiltinFrame(candidate)
      else
        var url := ResolveFrameUrl(env, split.url);
        if !Truthy(url) then CallFrameFailed(UrlParsingFailed)
        else
          var link := Link(url.value, line[..left], line[right..], split.lineNumber,
                           split.columnNumber, enclosed, None);
          PrefixAndSuffix(line, left, right);
          assert LinkCandidate(line, link) == candidate;
          LinkedFrame(link)
  }

  method ParseCallFrameLine(env: UrlEnv, line: string) returns (o: CallFrameOutcome)
    requires CallFrameMatch(line).Some?
    ensures o == CallFrameRef(env, line)
    ensures o.BuiltinFrame? ==> IsBuiltinUrl(env.splitLineAndColumn(o.candidate).url)
    ensures o.LinkedFrame? ==> LinkFitsLine(env, line, o.link)
    ensures o.CallFrameFailed? && o.reason != UrlParsingFailed ==> EndsWith(line, ")")
    ensures o.CallFrameFailed? ==> o.reason != AtUrlNotFound
  {
    var start := CallFrameMatch(line).value;
    var span := LocateLinkSpan(line, start);
    if span.LeftParenMissing? {
      return CallFrameFailed(LeftParenNotFound);
    }
    if span.RightParenMissing? {
      return CallFrameFailed(RightParenNotFound);
    }
    var candidate := JsSubstring(line, span.left, span.right);
    var split := env.splitLineAndColumn(candidate);
    if IsBuiltinUrl(split.url) {
      return BuiltinFrame(candidate);
    }
    var url := ResolveFrameUrl(env, split.url);
    if !Truthy(url) {
      return CallFrameFailed(UrlParsingFailed);
    }
    var link := Link(url.value, line[..span.left], line[span.right..], split.lineNumber,
                     split.columnNumber, span.enclosedInBraces, None);
    return LinkedFrame(link);
  }

  // ---------------------------------------------------------------------------
  // The parse

  function FrameLines(frames: seq<ParsedErrorFrame>): (r: seq<string>)
    ensures |r| == |frames|
    ensures forall k :: 0 <= k < |frames| ==> r[k] == frames[k].line
  {
    seq(|frames|, k requires 0 <= k < |frames| => frames[k].line)
  }

  /** An `at` line handled as a builtin frame (ts:152). */
  predicate BuiltinCallLine(env: UrlEnv, line: string)
  {
    CallFrameMatch(line).Some? && CallFrameRef(env, line).BuiltinFrame?
  }

  /** A line that may be merged into a link-less call frame: a builtin `at` line
      (ts:152-155) or a skipping marker (ts:99-105). */
  ghost predicate MergeableLine(env: UrlEnv, line: string)
  {
    BuiltinCallLine(env, line) || (CallFrameMatch(line).None? && MatchesSkippingPattern(line))
  }

  /** What every entry of a successful parse looks like: a call-frame entry begins
      with an `at` line; any other entry is one line that is not an `at` line; a
      linked entry is one `at` line whose link is the one built from it; a link-less
      call frame is a builtin `at` line followed by merged lines, each a builtin `at`
      line or a skipping marker. */
  ghost predicate FrameShape(env: UrlEnv, f: ParsedErrorFrame)
  {
    && (f.isCallFrame ==> CallFrameMatch(f.line).Some?)
    && (!f.isCallFrame ==> f.link.None? && '\n' !in f.line && CallFrameMatch(f.line).None?)
    && (f.link.Some? ==>
          && f.isCallFrame && CallFrameMatch(f.line).Some? && '\n' !in f.line
          && CallFrameRef(env, f.line) == LinkedFrame(f.link.value)
          && LinkFitsLine(env, f.line, f.link.value))
    && (f.isCallFrame && f.link.None? ==> LinklessChain(env, f.line))
  }

  /** Lines that form a link-less call frame: a builtin `at` line, then mergeable
      lines. */
  ghost predicate ChainOf(env: UrlEnv, ls: seq<string>)
  {
    |ls| >= 1 && BuiltinCallLine(env, ls[0]) && forall j :: 1 <= j < |ls| ==> MergeableLine(env, ls[j])
  }

  /** The text of a link-less call frame. */
  ghost predicate LinklessChain(env: UrlEnv, text: string)
  {
    ChainOf(env, Split(text, '\n'))
  }

  /** A non-call-frame entry right after a call frame is a skipping marker, and it
      follows a linked frame (after a link-less frame it would have been merged). */
  ghost predicate MarkersFollowLinks(frames: seq<ParsedErrorFrame>)
  {
    forall k :: 0 < k < |frames| && frames[k - 1].isCallFrame && !frames[k].isCallFrame ==>
      frames[k - 1].link.Some? && MatchesSkippingPattern(frames[k].line)
  }

  function AppendToLast(frames: seq<ParsedErrorFrame>, line: string): (r: seq<ParsedErrorFrame>)
    requires |frames| > 0
  {
    var last := frames[|frames| - 1];
    frames[..|frames| - 1] + [last.(line := last.line + "\n" + line)]
  }

  lemma JoinExtendLast(parts: seq<string>, x: string, sep: string)
    requires |parts| >= 1
    ensures Join(parts[..|parts| - 1] + [parts[|parts| - 1] + sep + x], sep) == Join(parts, sep) + sep + x
  {
    var n := |parts|;
    if n >= 2 {
      var front := parts[..n - 1];
      assert (front + [parts[n - 1] + sep + x])[..n - 1] == front;
    }
  }

  lemma PushKeepsText(frames: seq<ParsedErrorFrame>, f: ParsedErrorFrame)
    requires |frames| >= 1
    ensures Join(FrameLines(frames + [f]), "\n") == Join(FrameLines(frames), "\n") + "\n" + f.line
  {
    assert FrameLines(frames + [f]) == FrameLines(frames) + [f.line];
    JoinSnoc(FrameLines(frames), f.line, "\n");
  }

  lemma AppendKeepsText(frames: seq<ParsedErrorFrame>, line: string)
    requires |frames| >= 1
    ensures Join(FrameLines(AppendToLast(frames, line)), "\n") == Join(FrameLines(frames), "\n") + "\n" + line
  {
    var ls := FrameLines(frames);
    assert FrameLines(AppendToLast(frames, line)) == ls[..|ls| - 1] + [ls[|ls| - 1] + "\n" + line];
    JoinExtendLast(ls, line, "\n");
  }

  /** A line without a separator splits into itself. */
  lemma SplitSingle(line: string)
    requires '\n' !in line
    ensures Split(line, '\n') == [line]
  {
    SplitIsUnique(Split(line, '\n'), [line], '\n');
  }

  /** Appending a separator and a line adds that line to the split. */
  lemma SplitSnoc(s: string, line: string)
    requires '\n' !in line
    ensures Split(s + "\n" + line, '\n') == Split(s, '\n') + [line]
  {
    var a := Split(s, '\n');
    JoinSnoc(a, line, "\n");
    SplitIsUnique(Split(s + "\n" + line, '\n'), a + [line], '\n');
  }

  /** A mergeable line may follow a chain. */
  lemma ChainSnoc(env: UrlEnv, ls: seq<string>, line: string)
    requires ChainOf(env, ls) && MergeableLine(env, line)
    ensures ChainOf(env, ls + [line])
  {
    var ls' := ls + [line];
    assert ls'[0] == ls[0];
    forall j | 1 <= j < |ls'|
      ensures MergeableLine(env, ls'[j])
    {
      if j < |ls| {
        assert ls'[j] == ls[j];
      }
    }
  }

  /** Merging a mergeable line into a link-less call frame keeps its shape. */
  lemma MergeKeepsShape(env: UrlEnv, last: ParsedErrorFrame, line: string)
    requires FrameShape(env, last) && last.isCallFrame && last.link.None?
    requires '\n' !in line && MergeableLine(env, line)
    ensures FrameShape(env, last.(line := last.line + "\n" + line))
  {
    CallFrameMatchExtends(last.line, "\n" + line);
    assert last.line + "\n" + line == last.line + ("\n" + line);
    SplitSnoc(last.line, line);
    ChainSnoc(env, Split(last.line, '\n'), line);
  }

  lemma AppendKeepsShape(env: UrlEnv, frames: seq<ParsedErrorFrame>, line: string)
    requires |frames| >= 1
    requires WellFormedFrames(env, frames)
    requires frames[|frames| - 1].isCallFrame && frames[|frames| - 1].link.None?
    requires '\n' !in line && MergeableLine(env, line)
    ensures WellFormedFrames(env, AppendToLast(frames, line))
  {
    var last := frames[|frames| - 1];
    MergeKeepsShape(env, last, line);
    ReplaceLastKeepsShape(env, frames, last.(line := last.line + "\n" + line));
  }

  /** Replacing the last entry by a well-formed one that is a call frame with the same
      link keeps the entries well formed. */
  lemma ReplaceLastKeepsShape(env: UrlEnv, frames: seq<ParsedErrorFrame>, g: ParsedErrorFrame)
    requires |frames| >= 1 && WellFormedFrames(env, frames) && FrameShape(env, g)
    requires g.isCallFrame && g.link == frames[|frames| - 1].link
    ensures WellFormedFrames(env, frames[..|frames| - 1] + [g])
  {
    var r := frames[..|frames| - 1] + [g];
    forall k | 0 <= k < |r|
      ensures FrameShape(env, r[k])
    {
      if k < |r| - 1 {
        assert r[k] == frames[k];
      }
    }
    forall k | 0 < k < |r| && r[k - 1].isCallFrame && !r[k].isCallFrame
      ensures r[k - 1].link.Some? && MatchesSkippingPattern(r[k].line)
    {
      assert r[k - 1] == frames[k - 1] && r[k] == frames[k];
    }
  }

  /** What the entries built so far satisfy. */
  ghost predicate WellFormedFrames(env: UrlEnv, frames: seq<ParsedErrorFrame>)
  {
    (forall k {:trigger FrameShape(env, frames[k])} :: 0 <= k < |frames| ==> FrameShape(env, frames[k]))
    && MarkersFollowLinks(frames)
  }

  /** A new entry keeps MarkersFollowLinks. */
  ghost predicate MayFollow(frames: seq<ParsedErrorFrame>, f: ParsedErrorFrame)
  {
    |frames| > 0 && frames[|frames| - 1].isCallFrame && !f.isCallFrame ==>
      frames[|frames| - 1].link.Some? && MatchesSkippingPattern(f.line)
  }

  lemma PushKeepsShape(env: UrlEnv, frames: seq<ParsedErrorFrame>, f: ParsedErrorFrame)
    requires WellFormedFrames(env, frames) && FrameShape(env, f) && MayFollow(frames, f)
    ensures WellFormedFrames(env, frames + [f])
  {
    var r := frames + [f];
    forall k | 0 < k < |r| && r[k - 1].isCallFrame && !r[k].isCallFrame
      ensures r[k - 1].link.Some? && MatchesSkippingPattern(r[k].line)
    {
      if k < |frames| {
        assert r[k - 1] == frames[k - 1] && r[k] == frames[k];
      }
    }
  }

  /** The entries after `f` is pushed, or after its line is merged into the last
      entry (`merge`). */
  function Extend(frames: seq<ParsedErrorFrame>, f: ParsedErrorFrame, merge: bool): seq<ParsedErrorFrame>
    requires merge ==> |frames| >= 1
  {
    if merge then AppendToLast(frames, f.line) else frames + [f]
  }

  /** Merging a mergeable line into a link-less call frame, or pushing an entry that
      may follow the last one, keeps the entries well formed and adds exactly `\n` and
      the line to their text. */
  lemma ExtendKeepsShape(env: UrlEnv, frames: seq<ParsedErrorFrame>, f: ParsedErrorFrame, merge: bool)
    requires WellFormedFrames(env, frames)
    requires merge ==> && |frames| >= 1 && frames[|frames| - 1].isCallFrame && frames[|frames| - 1].link.None?
                       && '\n' !in f.line && MergeableLine(env, f.line)
    requires !merge ==> FrameShape(env, f) && MayFollow(frames, f)
    ensures WellFormedFrames(env, Extend(frames, f, merge)) && |Extend(frames, f, merge)| >= 1
    ensures |frames| >= 1 ==>
      Join(FrameLines(Extend(frames, f, merge)), "\n") == Join(FrameLines(frames), "\n") + "\n" + f.line
    ensures |frames| == 0 ==> FrameLines(Extend(frames, f, merge)) == [f.line]
  {
    if merge {
      AppendKeepsText(frames, f.line);
      AppendKeepsShape(env, frames, f.line);
    } else {
      if |frames| > 0 {
        PushKeepsText(frames, f);
      }
      PushKeepsShape(env, frames, f);
    }
  }

  datatype LineStep = Continue(frames: seq<ParsedErrorFrame>) | Stop(reason: FailureReason)

  /** The last entry is a call frame (ts:99). */
  predicate AfterCallFrame(frames: seq<ParsedErrorFrame>)
  {
    |frames| > 0 && frames[|frames| - 1].isCallFrame
  }

  /** The last entry is a call frame without a link, into which builtin frames and
      skipping markers are merged (ts:103, ts:153). */
  predicate AfterLinklessCallFrame(frames: seq<ParsedErrorFrame>)
  {
    AfterCallFrame(frames) && frames[|frames| - 1].link.None?
  }

  /** An `at` line whose URL resolves. */
  predicate IsLinkedLine(env: UrlEnv, line: string)
  {
    CallFrameMatch(line).Some? && CallFrameRef(env, line).LinkedFrame?
  }

  /** One iteration of the loop at ts:96-182, as a function of the entries so far. */
  function StepRef(env: UrlEnv, frames: seq<ParsedErrorFrame>, line: string): (s: LineStep)
    ensures s.Stop? <==>
      || (CallFrameMatch(line).None? && AfterCallFrame(frames) && !MatchesSkippingPattern(line))
      || (CallFrameMatch(line).Some? && CallFrameRef(env, line).CallFrameFailed?)
    ensures s.Stop? && CallFrameMatch(line).None? ==> s.reason == AtUrlNotFound
    ensures s.Stop? && CallFrameMatch(line).Some? ==> CallFrameRef(env, line) == CallFrameFailed(s.reason)
    ensures s.Continue? && AfterLinklessCallFrame(frames) && !IsLinkedLine(env, line) ==>
      s.frames == AppendToLast(frames, line)
    ensures s.Continue? && !(AfterLinklessCallFrame(frames) && !IsLinkedLine(env, line)) ==>
      && |s.frames| == |frames| + 1 && s.frames[..|frames|] == frames
      && s.frames[|frames|].line == line
      && (s.frames[|frames|].isCallFrame <==> CallFrameMatch(line).Some?)
      && (s.frames[|frames|].link.Some? <==> IsLinkedLine(env, line))
  {
    var merge := AfterLinklessCallFrame(frames);
    if CallFrameMatch(line).None? then
      if AfterCallFrame(frames) && SpecialFrameForLine(line).None? then Stop(AtUrlNotFound)
      else Continue(Extend(frames, ParsedErrorFrame(line, false, None), merge))
    else
      match CallFrameRef(env, line)
      case CallFrameFailed(reason) => Stop(reason)
      case BuiltinFrame(_) => Continue(Extend(frames, ParsedErrorFrame(line, true, None), merge))
      case LinkedFrame(link) => Continue(frames + [ParsedErrorFrame(line, true, Some(link))])
  }

  /** A step that continues keeps the entries well formed and adds `\n` and the line
      to their text. */
  lemma StepKeepsShape(env: UrlEnv, frames: seq<ParsedErrorFrame>, line: string)
    requires '\n' !in line && WellFormedFrames(env, frames)
    ensures StepRef(env, frames, line).Continue? ==>
      && WellFormedFrames(env, StepRef(env, frames, line).frames)
      && |StepRef(env, frames, line).frames| >= 1
      && (|frames| >= 1 ==> Join(FrameLines(StepRef(env, frames, line).frames), "\n")
                              == Join(FrameLines(frames), "\n") + "\n" + line)
      && (|frames| == 0 ==> FrameLines(StepRef(env, frames, line).frames) == [line])
  {
    var merge := AfterLinklessCallFrame(frames);
    if CallFrameMatch(line).None? {
      if !(AfterCallFrame(frames) && SpecialFrameForLine(line).None?) {
        ExtendKeepsShape(env, frames, ParsedErrorFrame(line, false, None), merge);
      }
    } else {
      match CallFrameRef(env, line)
      case CallFrameFailed(_) =>
      case BuiltinFrame(_) =>
        SplitSingle(line);
        ExtendKeepsShape(env, frames, ParsedErrorFrame(line, true, None), merge);
      case LinkedFrame(link) =>
        ExtendKeepsShape(env, frames, ParsedErrorFrame(line, true, Some(link)), false);
    }
  }

  /** One iteration of the parse loop. */
  method ParseLine(env: UrlEnv, frames: seq<ParsedErrorFrame>, line: string) returns (s: LineStep)
    requires '\n' !in line
    requires WellFormedFrames(env, frames)
    ensures s == StepRef(env, frames, line)
    ensures s.Continue? ==> WellFormedFrames(env, s.frames) && |s.frames| >= 1
    ensures s.Continue? && |frames| >= 1 ==>
      Join(FrameLines(s.frames), "\n") == Join(FrameLines(frames), "\n") + "\n" + line
    ensures s.Continue? && |frames| == 0 ==> FrameLines(s.frames) == [line]
    ensures s.Stop? && s.reason == AtUrlNotFound ==>
      CallFrameMatch(line).None? && !MatchesSkippingPattern(line)
  {
    StepKeepsShape(env, frames, line);
    var afterCallFrame := |frames| > 0 && frames[|frames| - 1].isCallFrame;
    var mergeable := afterCallFrame && frames[|frames| - 1].link.None?;
    if CallFrameMatch(line).None? {
      if afterCallFrame {
        if SpecialFrameForLine(line).None? {
          return Stop(AtUrlNotFound);
        }
      }
      if mergeable {
        return Continue(AppendToLast(frames, line));
      }
      return Continue(frames + [ParsedErrorFrame(line, false, None)]);
    }
    var outcome := ParseCallFrameLine(env, line);
    match outcome
    case CallFrameFailed(reason) =>
      return Stop(reason);
    case BuiltinFrame(_) =>
      if mergeable {
        return Continue(AppendToLast(frames, line));
      }
      return Continue(frames + [ParsedErrorFrame(line, true, None)]);
    case LinkedFrame(link) =>
      return Continue(frames + [ParsedErrorFrame(line, true, Some(link))]);
  }

  /** Joining one more line of a prefix. */
  lemma JoinPrefixStep(lines: seq<string>, i: nat, sep: string)
    requires i < |lines|
    ensures i == 0 ==> Join(lines[..1], sep) == lines[0]
    ensures i > 0 ==> Join(lines[..i + 1], sep) == Join(lines[..i], sep) + sep + lines[i]
  {
    if i > 0 {
      assert lines[..i + 1] == lines[..i] + [lines[i]];
      JoinSnoc(lines[..i], lines[i], sep);
    } else {
      assert lines[..1] == [lines[0]];
    }
  }

  /** The rest of the parse loop from the entries built so far: one StepRef per line
      until a line stops it. */
  function ParseFrom(env: UrlEnv, frames: seq<ParsedErrorFrame>, lines: seq<string>): (r: ParseResult)
    ensures !r.NotAnErrorStack?
    ensures r.SymbolicationFailed? ==> r.line in lines
    decreases |lines|
  {
    if |lines| == 0 then Parsed(frames)
    else
      match StepRef(env, frames, lines[0])
      case Stop(reason) => SymbolicationFailed(lines[0], reason)
      case Continue(next) => ParseFrom(env, next, lines[1..])
  }

  /** parseSourcePositionsFromErrorStack as a function of the stack. */
  function ParseRef(env: UrlEnv, stack: string): (r: ParseResult)
    ensures r.NotAnErrorStack? <==> !MatchesErrorNamePattern(stack)
  {
    if !StartsWithErrorName(stack) then NotAnErrorStack else ParseFrom(env, [], Split(stack, '\n'))
  }

  /** One step of ParseFrom over a suffix of the lines. */
  lemma ParseFromUnfold(env: UrlEnv, frames: seq<ParsedErrorFrame>, lines: seq<string>, i: nat)
    requires i < |lines|
    ensures StepRef(env, frames, lines[i]).Continue? ==>
      ParseFrom(env, frames, lines[i..]) == ParseFrom(env, StepRef(env, frames, lines[i]).frames, lines[i + 1..])
    ensures StepRef(env, frames, lines[i]).Stop? ==>
      ParseFrom(env, frames, lines[i..]) == SymbolicationFailed(lines[i], StepRef(env, frames, lines[i]).reason)
  {
    assert lines[i..][0] == lines[i] && lines[i..][1..] == lines[i + 1..];
  }

  /** A step that continues from the entries for `lines[..i]` gives the entries for
      `lines[..i + 1]`. */
  lemma ParsePrefixStep(env: UrlEnv, lines: seq<string>, i: nat, frames: seq<ParsedErrorFrame>)
    requires i < |lines| && '\n' !in lines[i]
    requires (i == 0) == (|frames| == 0)
    requires i > 0 ==> Join(FrameLines(frames), "\n") == Join(lines[..i], "\n")
    requires WellFormedFrames(env, frames)
    requires StepRef(env, frames, lines[i]).Continue?
    ensures var next := StepRef(env, frames, lines[i]).frames;
      && |next| != 0
      && Join(FrameLines(next), "\n") == Join(lines[..i + 1], "\n")
      && WellFormedFrames(env, next)
  {
    StepKeepsShape(env, frames, lines[i]);
    JoinPrefixStep(lines, i, "\n");
  }

  lemma {:induction false} ParseFromKeepsShape(env: UrlEnv, lines: seq<string>, i: nat, frames: seq<ParsedErrorFrame>)
    requires 1 <= |lines| && i <= |lines|
    requires forall k :: 0 <= k < |lines| ==> '\n' !in lines[k]
    requires (i == 0) == (|frames| == 0)
    requires i > 0 ==> Join(FrameLines(frames), "\n") == Join(lines[..i], "\n")
    requires WellFormedFrames(env, frames)
    ensures ParseFrom(env, frames, lines[i..]).Parsed? ==>
      && Join(FrameLines(ParseFrom(env, frames, lines[i..]).frames), "\n") == Join(lines, "\n")
      && WellFormedFrames(env, ParseFrom(env, frames, lines[i..]).frames)
    decreases |lines| - i
  {
    var r := ParseFrom(env, frames, lines[i..]);
    if i < |lines| {
      var s := StepRef(env, frames, lines[i]);
      ParseFromUnfold(env, frames, lines, i);
      if s.Continue? {
        ParsePrefixStep(env, lines, i, frames);
        ParseFromKeepsShape(env, lines, i + 1, s.frames);
        var r' := ParseFrom(env, s.frames, lines[i + 1..]);
        assert r == r';
      }
    } else {
      assert lines[i..] == [] && lines[..i] == lines;
      assert r == Parsed(frames);
    }
  }

  /** A successful parse gives back the stack when its entries are joined with `\n`,
      and its entries are well formed. */
  lemma ParseRefReconstructs(env: UrlEnv, stack: string)
    ensures ParseRef(env, stack).Parsed? ==>
      && Join(FrameLines(ParseRef(env, stack).frames), "\n") == stack
      && WellFormedFrames(env, ParseRef(env, stack).frames)
  {
    if StartsWithErrorName(stack) {
      var lines := Split(stack, '\n');
      assert lines[0..] == lines;
      ParseFromKeepsShape(env, lines, 0, []);
    }
  }

  /** A parse stops with `"at (url)" not found` only at a line that is neither an `at`
      line nor a skipping marker, and with any other reason only at an `at` line whose
      handling fails in that way. */
  lemma ParseRefFailures(env: UrlEnv, stack: string)
    ensures var r := ParseRef(env, stack);
      r.SymbolicationFailed? ==>
        && r.line in Split(stack, '\n')
        && (r.reason == AtUrlNotFound ==> CallFrameMatch(r.line).None? && !MatchesSkippingPattern(r.line))
        && (r.reason != AtUrlNotFound ==>
              CallFrameMatch(r.line).Some? && CallFrameRef(env, r.line) == CallFrameFailed(r.reason))
  {
    if StartsWithErrorName(stack) {
      ParseFromFailures(env, [], Split(stack, '\n'));
    }
  }

  lemma {:induction false} ParseFromFailures(env: UrlEnv, frames: seq<ParsedErrorFrame>, lines: seq<string>)
    ensures var r := ParseFrom(env, frames, lines);
      r.SymbolicationFailed? ==>
        && (r.reason == AtUrlNotFound ==> CallFrameMatch(r.line).None? && !MatchesSkippingPattern(r.line))
        && (r.reason != AtUrlNotFound ==>
              CallFrameMatch(r.line).Some? && CallFrameRef(env, r.line) == CallFrameFailed(r.reason))
    decreases |lines|
  {
    if |lines| > 0 {
      var s := StepRef(env, frames, lines[0]);
      if s.Continue? {
        ParseFromFailures(env, s.frames, lines[1..]);
      }
    }
  }

  /** parseSourcePositionsFromErrorStack */
  method ParseSourcePositionsFromErrorStack(env: UrlEnv, stack: string) returns (r: ParseResult)
    ensures r == ParseRef(env, stack)
    ensures r.NotAnErrorStack? <==> !MatchesErrorNamePattern(stack)
    ensures r.SymbolicationFailed? ==> r.line in Split(stack, '\n')
    ensures r.SymbolicationFailed? && r.reason == AtUrlNotFound ==>
      CallFrameMatch(r.line).None? && !MatchesSkippingPattern(r.line)
    ensures r.Parsed? ==> Join(FrameLines(r.frames), "\n") == stack
    ensures r.Parsed? ==> WellFormedFrames(env, r.frames)
  {
    ParseRefReconstructs(env, stack);
    ParseRefFailures(env, stack);
    if !StartsWithErrorName(stack) {
      return NotAnErrorStack;
    }
    var lines := Split(stack, '\n');
    var frames: seq<ParsedErrorFrame> := [];
    assert lines[0..] == lines;
    for i := 0 to |lines|
      invariant WellFormedFrames(env, frames)
      invariant ParseFrom(env, frames, lines[i..]) == ParseRef(env, stack)
    {
      var step := ParseLine(env, frames, lines[i]);
      ParseFromUnfold(env, frames, lines, i);
      if step.Stop? {
        return SymbolicationFailed(lines[i], step.reason);
      }
      frames := step.frames;
    }
    assert lines[|lines|..] == [];
    return Parsed(frames);
  }

  // ---------------------------------------------------------------------------
  // Script ids

  /** framesMatch: same url, line and column; a frame without a link matches nothing. */
  predicate FramesMatch(f: ParsedErrorFrame, p: ProtocolCallFrame): (r: bool)
    ensures f.link.None? ==> !r
    ensures r ==> f.link.value.lineNumber.Some? && f.link.value.columnNumber.Some?
  {
    && f.link.Some?
    && f.link.value.url == p.url
    && f.link.value.lineNumber == Some(p.lineNumber)
    && f.link.value.columnNumber == Some(p.columnNumber)
  }

  /** Matching looks at the link's position only: the frame's text, the link's
      script id and the protocol frame's function name and script id play no part. */
  lemma FramesMatchIgnoresNames(f: ParsedErrorFrame, p: ProtocolCallFrame, line: string, name: string, scriptId: Option<string>, id: string)
    ensures var link := if f.link.Some? then Some(f.link.value.(scriptId := scriptId)) else None;
      FramesMatch(f, p) == FramesMatch(f.(line := line, link := link), p.(functionName := name, scriptId := id))
  {
  }

  /** `callFrames.find(frame => framesMatch(parsedFrame, frame))`, as an index. */
  function FindMatchingFrame(f: ParsedErrorFrame, callFrames: seq<ProtocolCallFrame>, from: nat): (r: Option<nat>)
    requires from <= |callFrames|
    ensures r.Some? ==> from <= r.value < |callFrames| && FramesMatch(f, callFrames[r.value])
    ensures forall j :: from <= j < |callFrames| && (r.None? || j < r.value) ==> !FramesMatch(f, callFrames[j])
    decreases |callFrames| - from
  {
    if from == |callFrames| then None
    else if FramesMatch(f, callFrames[from]) then Some(from)
    else FindMatchingFrame(f, callFrames, from + 1)
  }

  /** One step of augmentErrorStackWithScriptIds: the frame with the script id of the
      first matching protocol frame, if there is one. */
  function WithScriptId(f: ParsedErrorFrame, callFrames: seq<ProtocolCallFrame>): (r: ParsedErrorFrame)
    ensures (forall j :: 0 <= j < |callFrames| ==> !FramesMatch(f, callFrames[j])) ==> r == f
    ensures forall j :: 0 <= j < |callFrames| && FramesMatch(f, callFrames[j])
                        && (forall i :: 0 <= i < j ==> !FramesMatch(f, callFrames[i])) ==>
      r == f.(link := Some(f.link.value.(scriptId := Some(callFrames[j].scriptId))))
    ensures f.link.None? ==> r == f
  {
    match FindMatchingFrame(f, callFrames, 0)
    case Some(j) => f.(link := Some(f.link.value.(scriptId := Some(callFrames[j].scriptId))))
    case None => f
  }

  /** augmentErrorStackWithScriptIds: updates the parsed frames in place. */
  method AugmentErrorStackWithScriptIds(parsedFrames: array<ParsedErrorFrame>, callFrames: seq<ProtocolCallFrame>)
    modifies parsedFrames
    ensures forall k :: 0 <= k < parsedFrames.Length ==> parsedFrames[k] == WithScriptId(old(parsedFrames[k]), callFrames)
  {
    for k := 0 to parsedFrames.Length
      invariant forall i :: 0 <= i < k ==> parsedFrames[i] == WithScriptId(old(parsedFrames[i]), callFrames)
      invariant forall i :: k <= i < parsedFrames.Length ==> parsedFrames[i] == old(parsedFrames[i])
    {
      var found := FindMatchingFrame(parsedFrames[k], callFrames, 0);
      if found.Some? && parsedFrames[k].link.Some? {
        var link := parsedFrames[k].link.value;
        parsedFrames[k] := parsedFrames[k].(link := Some(link.(scriptId := Some(callFrames[found.value].scriptId))));
      }
    }
  }

  /** Augmenting changes nothing but the script id of linked frames. */
  lemma AugmentChangesOnlyScriptIds(f: ParsedErrorFrame, callFrames: seq<ProtocolCallFrame>)
    ensures WithScriptId(f, callFrames).line == f.line
    ensures WithScriptId(f, callFrames).isCallFrame == f.isCallFrame
    ensures WithScriptId(f, callFrames).link.Some? == f.link.Some?
    ensures f.link.Some? ==>
      WithScriptId(f, callFrames).link.value == f.link.value.(scriptId := WithScriptId(f, callFrames).link.value.scriptId)
  {
  }
}
