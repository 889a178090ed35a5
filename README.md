# React Native DevTools frontend: the sequential core, in Dafny

This project models the small pieces of logic in the React Native DevTools
frontend whose behaviour can be stated exactly, and proves properties of them.

- **Error-stack parser** (`ErrorStackParser`).
  - It splits an `Error#stack` string into lines.
  - It recognises `at …` call-frame lines and locates the URL inside them with the `)` / ` (` / `eval at ` loop.
  - It classifies the special Hermes frames and merges link-less builtin frames into the entry before them.
  - It resolves URLs through the script/URL helpers, and attaches script ids from protocol call frames in place.
- **Metrics hub** (`PerfMetrics`, `ListenerSets`).
  - A listener set with add, unsubscribe and clear.
  - The global enable flag.
  - Fan-out of a decorated event, which survives listeners that throw.
  - The session fields every event is decorated with, and the per-location current-panel map.
  - The URL-truncation and error-wrapping helpers.
- **Performance-issue aggregation** (`PerfIssues`).
  - Qualifying trace entries are grouped by issue name, and the first entry of a name supplies the metadata.
  - A missing severity becomes `info`; the count is the number of events.
  - Issues are sorted by severity and then by name.
- **Window title** (`WindowTitle`). The non-empty parts are joined by spaces and followed by `- React Native DevTools`.
- **Disconnect reasons and the crash-dialog latch** (`TargetDetachedDialog`).
- **React DevTools model lifecycle** (`ReactDevToolsModel`).
  - The initialisation state machine.
  - Bridge and store creation and teardown.
  - The wall listener set and message fan-out.
- **React Native application model** (`ReactNativeApplicationModel`). Enabling happens once, the outcome is reported to the metrics, and the latest metadata is cached.
- **DOM-API lint mapping** (`DomApi`).
  - Property, method and sub-property assignments are mapped onto a template fragment.
  - camelCase becomes kebab-case, with a proved round trip back.
  - Child insertion indices are computed.

`Wrappers` holds `Option`/`Result`. `Strings` holds the JavaScript string
operations the sources use; `toLowerCase` is ASCII only; `String(n)` has a
parse-back round trip.

Imperative source code is modelled imperatively. Objects whose fields change
are classes, and their handlers are methods over those fields. Loops are `for`
or `while` loops with invariants. The loops that compute a value (the link-span
search, the parse loop, the grouping and sorting of issues, the event fan-out)
are proved equal to a reference function, and the lemmas speak about that
function. The state-changing handlers instead state their whole new state.
Calls into code that is not part of this model are parameters:

| call | modelled as |
|---|---|
| `ParsedURL.*`, `scriptsForSourceURL`, `new URL(..., 'file://')` | the `UrlEnv` record of functions |
| `JSON.parse` | `Parser` |
| a listener's call | `invoke` |
| `DomFragment.getOrCreate` | the `secondFragment` argument |

Asynchronous steps, such as a promise that settles, are explicit methods that do nothing outside their phase.

## Model

| member | source | states |
|---|---|---|
| Strings.IndexOfFrom | front_end/panels/console/ErrorStackParser.ts:127 | `indexOf(p, from)`: -1 or the first occurrence at or after `from` |
| Strings.LastIndexOfAtMost | front_end/panels/console/ErrorStackParser.ts:137 | `lastIndexOf(p, pos)`: -1 or the last occurrence at or before `pos` |
| Strings.Split | front_end/panels/console/ErrorStackParser.ts:92 | `split('\n')`: the pieces hold no separator and join back to the input |
| Strings.SplitIsUnique | front_end/panels/console/ErrorStackParser.ts:92 | two separator-free piece lists with the same join are equal, so the split is determined |
| Strings.IntToStringRoundTrip | front_end/core/host/RNPerfMetrics.ts:339 | `String(n)` of an integer parses back to it and starts with `-` exactly when it is negative |
| ErrorStackParser.SpecialFrameForUrl | front_end/panels/console/ErrorStackParser.ts:47-65 | `native`, `eval` and `""` map to their kinds, an `address at ` prefix maps to `address at`, everything else to none (each as an if-and-only-if) |
| ErrorStackParser.SkippingFromSearches | front_end/panels/console/ErrorStackParser.ts:68 | the backtracking search over the leading `\s*` succeeds exactly when some split of the line matches |
| ErrorStackParser.SpecialFrameForLine | front_end/panels/console/ErrorStackParser.ts:67-73 | `skipping x frames` exactly when the line is white space, three arbitrary non-terminator characters, ` skipping `, digits, ` frames` |
| ErrorStackParser.ErrorNameFromSearches | front_end/panels/console/ErrorStackParser.ts:86 | the search for `[\w.]*Error\b` succeeds exactly when some prefix of name characters is followed by `Error` at a word boundary |
| ErrorStackParser.StartsWithErrorName | front_end/panels/console/ErrorStackParser.ts:86-88 | true exactly when the stack matches `^[\w.]*Error\b` |
| ErrorStackParser.LeadingSpaces | front_end/panels/console/ErrorStackParser.ts:97 | the length of the longest run of white space at the start of the line |
| ErrorStackParser.CallFrameMatch | front_end/panels/console/ErrorStackParser.ts:97 | a match exactly when the line is white space, then `at` and a white-space character, then an optional `async` and a white-space character; after `w` leading white-space characters the match length is `w + 9` when `async` and a white-space character follow `at `, and `w + 3` otherwise |
| ErrorStackParser.CallFrameMatchExtends | front_end/panels/console/ErrorStackParser.ts:105 | appending text to a call-frame line keeps it a call-frame line |
| ErrorStackParser.SpanWhile | front_end/panels/console/ErrorStackParser.ts:123-125 | a span the outer loop ends with lies in the line, is enclosed in braces exactly when the line ends with `)`, and opens after a ` (` that is not `eval at `; a failure happens only on a line ending with `)` |
| ErrorStackParser.SpanSearch | front_end/panels/console/ErrorStackParser.ts:126-142 | a span found by the inner search after a `)` is enclosed in braces and satisfies the same bounds |
| ErrorStackParser.SpanRef | front_end/panels/console/ErrorStackParser.ts:120-143 | the span computed from the `at` match: bounds within the line, braces exactly when the line ends with `)`, and failures only on a line ending with `)` |
| ErrorStackParser.SpanSearchFindsLink | front_end/panels/console/ErrorStackParser.ts:127-135 | a ` (` that does not open `eval at ` ends the inner search with `left` just after it |
| ErrorStackParser.SpanSearchSkipsEval | front_end/panels/console/ErrorStackParser.ts:132-137 | past an `eval at `, the search goes on 10 characters after the ` (` with `right` before the last `, ` |
| ErrorStackParser.LocateLinkSpan | front_end/panels/console/ErrorStackParser.ts:119-143 | the nested loops compute exactly `SpanRef(line, start)`, with its bounds |
| ErrorStackParser.ParseOrScriptMatch | front_end/panels/console/ErrorStackParser.ts:191-208 | a result is the URL itself, when valid or known to a script, or else its `file://` form, when known to a script; an empty or absent URL gives none |
| ErrorStackParser.ResolveFrameUrl | front_end/panels/console/ErrorStackParser.ts:161-164 | the direct match when it is truthy or the URL is not relative; otherwise the match of the URL completed against the inspected URL; any other result comes only from that completion |
| ErrorStackParser.CallFrameRef | front_end/panels/console/ErrorStackParser.ts:119-181 | left / right `(` not found exactly when the span search fails that way; a builtin frame exactly when the span's URL is `<anonymous>` or special; url parsing failed exactly when the URL is not builtin and does not resolve; otherwise a linked frame whose prefix is the line before `SpanRef`'s span and whose suffix is the line after it, whose braces flag is the span's, whose URL is `ResolveFrameUrl` of the span's URL after splitting off line and column, whose line and column numbers are that split's, and which has no script id; never `"at (url)" not found` |
| ErrorStackParser.ParseCallFrameLine | front_end/panels/console/ErrorStackParser.ts:119-181 | the outcome is `CallFrameRef(env, line)`: a builtin frame has an `<anonymous>` or special URL, a linked frame's prefix is `line[..left]` and its suffix `line[right..]` of `SpanRef`'s span, its braces flag, resolved URL, line and column come from that span's split, it has no script id, and failures are only the bracket and URL-parsing failures |
| ErrorStackParser.JoinExtendLast | front_end/panels/console/ErrorStackParser.ts:105 | appending `\n` and a line to the last entry extends the joined text by that line |
| ErrorStackParser.PushKeepsText | front_end/panels/console/ErrorStackParser.ts:115 | pushing an entry extends the joined text by `\n` and its line |
| ErrorStackParser.AppendKeepsText | front_end/panels/console/ErrorStackParser.ts:155 | merging into the last entry extends the joined text by `\n` and the line |
| ErrorStackParser.SplitSnoc | front_end/panels/console/ErrorStackParser.ts:105 | an entry whose text had `\n` and a line appended splits into its old lines and that line |
| ErrorStackParser.MergeKeepsShape | front_end/panels/console/ErrorStackParser.ts:103-105 | merging a builtin `at` line or a skipping marker into a link-less call frame keeps that entry well formed |
| ErrorStackParser.AppendKeepsShape | front_end/panels/console/ErrorStackParser.ts:153-155 | merging into the last, link-less call frame keeps every entry well formed |
| ErrorStackParser.ChainSnoc | front_end/panels/console/ErrorStackParser.ts:105 | a builtin `at` line or skipping marker may follow the lines of a link-less call frame |
| ErrorStackParser.ReplaceLastKeepsShape | front_end/panels/console/ErrorStackParser.ts:105 | replacing the last entry by a well-formed call frame with the same link keeps the entries well formed |
| ErrorStackParser.PushKeepsShape | front_end/panels/console/ErrorStackParser.ts:107 | pushing a well-formed entry that may follow the last one keeps the entries well formed |
| ErrorStackParser.ExtendKeepsShape | front_end/panels/console/ErrorStackParser.ts:103-108 | merging into the last entry or pushing a new one keeps the entries well formed and adds exactly `\n` + line to their text |
| ErrorStackParser.StepRef | front_end/panels/console/ErrorStackParser.ts:96-182 | a line stops the loop exactly when it is a non-`at` line after a call frame that is not a skipping marker (reason `"at (url)" not found`), or an `at` line whose handling fails (with that reason); after a link-less call frame a line that does not resolve to a link is merged; otherwise one entry is pushed with that line, a call frame exactly for an `at` line, linked exactly when its URL resolves |
| ErrorStackParser.StepKeepsShape | front_end/panels/console/ErrorStackParser.ts:96-182 | a step that continues keeps the entries well formed and adds `\n` + line to their text |
| ErrorStackParser.ParseLine | front_end/panels/console/ErrorStackParser.ts:96-182 | one iteration of the loop is `StepRef(env, frames, line)`; it keeps the entries well formed and their text extended by the line |
| ErrorStackParser.ParseFrom | front_end/panels/console/ErrorStackParser.ts:96-182 | the loop from given entries, one `StepRef` per line until one stops it; it never answers `NotAnErrorStack`, and a failure names one of the remaining lines |
| ErrorStackParser.ParseRef | front_end/panels/console/ErrorStackParser.ts:84-189 | `NotAnErrorStack` (the source's `null` before the loop) exactly when the stack does not start with an error name |
| ErrorStackParser.ParsePrefixStep | front_end/panels/console/ErrorStackParser.ts:96-182 | a step that continues from the entries for the first i lines gives well-formed entries for the first i + 1 lines |
| ErrorStackParser.ParseFromKeepsShape | front_end/panels/console/ErrorStackParser.ts:96-188 | a loop over separator-free lines that succeeds returns well-formed entries whose lines, joined by `\n`, are all the lines joined |
| ErrorStackParser.ParseRefReconstructs | front_end/panels/console/ErrorStackParser.ts:92-188 | the entries of a successful parse, joined by `\n`, give back the stack, and each is well formed |
| ErrorStackParser.ParseFromFailures | front_end/panels/console/ErrorStackParser.ts:112-167 | a loop stops with `"at (url)" not found` only at a line that is neither an `at` line nor a skipping marker, and with any other reason only at an `at` line that fails that way |
| ErrorStackParser.ParseRefFailures | front_end/panels/console/ErrorStackParser.ts:92-167 | a failed parse names one of the stack's lines, with the reason that line's handling gives |
| ErrorStackParser.ParseSourcePositionsFromErrorStack | front_end/panels/console/ErrorStackParser.ts:84-189 | the result is `ParseRef(env, stack)`: a not-an-error-stack result exactly when the stack does not start with an error name, failures name one of the stack's lines with their reason, and on success the entries' lines joined by `\n` are the stack and every entry is well formed |
| ErrorStackParser.FramesMatch | front_end/panels/console/ErrorStackParser.ts:232-240 | a frame without a link matches nothing; one with a link matches a protocol frame exactly when the URL, line number and column number are equal |
| ErrorStackParser.FramesMatchIgnoresNames | front_end/panels/console/ErrorStackParser.ts:231-240 | matching ignores the frame's text, the link's script id and the protocol frame's function name and script id |
| ErrorStackParser.FindMatchingFrame | front_end/panels/console/ErrorStackParser.ts:224 | `find` finds the first protocol frame that matches, or none when none does |
| ErrorStackParser.WithScriptId | front_end/panels/console/ErrorStackParser.ts:223-228 | a frame gets the script id of the first matching protocol frame; no match, or no link, leaves it unchanged |
| ErrorStackParser.AugmentErrorStackWithScriptIds | front_end/panels/console/ErrorStackParser.ts:217-229 | every array element becomes its `WithScriptId` image, in place |
| ErrorStackParser.AugmentChangesOnlyScriptIds | front_end/panels/console/ErrorStackParser.ts:217-229 | augmenting changes nothing but `link.scriptId` |
| ListenerSets.Added | front_end/core/host/RNPerfMetrics.ts:38 | `Set.add`: the members are the old ones plus the listener, the old order is a prefix, no duplicates |
| ListenerSets.Removed | front_end/core/host/RNPerfMetrics.ts:41 | `Set.delete`: the members are the old ones except the listener, no duplicates |
| ListenerSets.RemovingAbsentChangesNothing | front_end/core/host/RNPerfMetrics.ts:40-42 | deleting a listener that is not there changes nothing |
| ListenerSets.RemovedKeepsOrder | front_end/core/host/RNPerfMetrics.ts:41 | deleting a member of a duplicate-free set takes out its one occurrence at some index `k` and keeps the others in insertion order: the result is `ls[..k] + ls[k + 1..]` |
| ListenerSets.RemovedIgnoresTrailing | front_end/core/host/RNPerfMetrics.ts:40-42 | deleting a listener that was added last is the same as never adding it |
| ListenerSets.UnsubscribeUndoesAdd | front_end/core/host/RNPerfMetrics.ts:37-45 | subscribing a new listener and then calling its unsubscribe gives the original set back |
| PerfMetrics.IsEnabled | front_end/core/host/RNPerfMetrics.ts:33-35 | enabled only when the flag is the boolean `true`; no other value, truthy or not, enables |
| PerfMetrics.RNPerfMetrics.CommonFields | front_end/core/host/RNPerfMetrics.ts:314-322 | the common fields of `#decorateEvent`: the clock's reading, the launch id, app id, entry point, telemetry info and current panels as they are at the call |
| PerfMetrics.DecorateEvent | front_end/core/host/RNPerfMetrics.ts:314-328 | the decorated event has the event's keys and the common keys; common fields hold the session values and override; every other field is kept |
| PerfMetrics.OwnKeysAreNotCommon | front_end/core/host/RNPerfMetrics.ts:324-327 | `eventName` and `params` are not overridden by the common fields |
| PerfMetrics.DeliveredField | front_end/core/host/RNPerfMetrics.ts:56-64 | a non-common field of the event reaches every listener unchanged |
| PerfMetrics.FailuresExactlyWhenSomeListenerThrows | front_end/core/host/RNPerfMetrics.ts:57-69 | the error list is empty exactly when no listener throws, and it has at most one error per listener |
| PerfMetrics.MaybeTruncateDeveloperResourceUrl | front_end/core/host/RNPerfMetrics.ts:335-340 | http/https URLs unchanged; any other URL is its first 100 characters and the omission notice with `length - 100` |
| PerfMetrics.OmissionNoticeDetermines | front_end/core/host/RNPerfMetrics.ts:339 | a notice determines its kept text (given its length) and its count |
| PerfMetrics.LongUrlNoticeAccountsForEveryCharacter | front_end/core/host/RNPerfMetrics.ts:335-340 | for a long non-http URL the notice keeps a 100-character prefix and counts every other character |
| PerfMetrics.ShortUrlNoticeHasNegativeCount | front_end/core/host/RNPerfMetrics.ts:335-340 | a short non-http URL is kept whole but still gets a notice, whose count is negative |
| PerfMetrics.MaybeWrapError | front_end/core/host/RNPerfMetrics.ts:342-350 | an Error is kept and its message appended to the base message; anything else is wrapped in a new Error whose message is `base: String(e)` and whose cause is the value |
| PerfMetrics.SetClientMetadataFinishedParams | front_end/core/host/RNPerfMetrics.ts:193-207 | success gives `{success: true}` only; failure gives `success: false` with the wrapped error and message |
| PerfMetrics.RNPerfMetrics.constructor | front_end/core/host/RNPerfMetrics.ts:25-31 | no listeners, null ids, entry point `rn_inspector`, empty telemetry and panel map |
| PerfMetrics.RNPerfMetrics.AddEventListener | front_end/core/host/RNPerfMetrics.ts:37-45 | the listener set becomes `Added(listeners, l)`; nothing else changes |
| PerfMetrics.RNPerfMetrics.Unsubscribe | front_end/core/host/RNPerfMetrics.ts:40-42 | the listener set becomes `Removed(listeners, l)`; nothing else changes |
| PerfMetrics.RNPerfMetrics.RemoveAllEventListeners | front_end/core/host/RNPerfMetrics.ts:47-49 | the listener set becomes empty; nothing else changes |
| PerfMetrics.RNPerfMetrics.SendEvent | front_end/core/host/RNPerfMetrics.ts:51-70 | nothing unless the flag is `true`; then every listener, in order, receives the same decorated event, and the errors of the throwing listeners are reported once if there are any |
| PerfMetrics.RNPerfMetrics.SetLaunchId | front_end/core/host/RNPerfMetrics.ts:125-127 | only the launch id changes |
| PerfMetrics.RNPerfMetrics.SetAppId | front_end/core/host/RNPerfMetrics.ts:129-131 | only the app id changes |
| PerfMetrics.RNPerfMetrics.SetTelemetryInfo | front_end/core/host/RNPerfMetrics.ts:133-135 | only the telemetry info changes |
| PerfMetrics.RNPerfMetrics.EntryPointLoadingStarted | front_end/core/host/RNPerfMetrics.ts:137-144 | the entry point is stored before sending: the deliveries and report are those of the decorated `Entrypoint.LoadingStarted` event with the new session fields, so every delivered event reports the new entry point; nothing else changes |
| PerfMetrics.RNPerfMetrics.EntryPointLoadingFinished | front_end/core/host/RNPerfMetrics.ts:146-151 | the deliveries and the report are those of `sendEvent` on the `Entrypoint.LoadingFinished` event decorated with the session fields; every delivered event reports the stored entry point, which overrides the argument |
| PerfMetrics.RNPerfMetrics.PanelShownInLocation | front_end/core/host/RNPerfMetrics.ts:307-312 | the deliveries and report are those of the `PanelShown` event with `{location, newPanelName}`, decorated with the session fields as they were before the call (so with the old panel map); then only the entry for `location` changes |
| PerfMetrics.RNPerfMetrics.DeveloperResourceLoadingStarted | front_end/core/host/RNPerfMetrics.ts:166-169 | the deliveries and report are those of the decorated `DeveloperResource.LoadingStarted` event, whose params are the truncated URL and the loading method |
| PerfMetrics.RNPerfMetrics.FuseboxSetClientMetadataFinished | front_end/core/host/RNPerfMetrics.ts:193-207 | the deliveries and report are those of the decorated `FuseboxSetClientMetadataFinished` event, whose params are `{success: true}`, or failure with the wrapped error |
| PerfMetrics.InstanceHolder.GetInstance | front_end/core/host/RNPerfMetrics.ts:12-19 | the first call creates a fresh hub with no listeners, no launch or app id, the `rn_inspector` entry point, empty telemetry info and no current panels; every later call returns the same one |
| PerfIssues.FirstDetail | front_end/panels/timeline/components/SidebarRNPerfIssuesTab.ts:96-99 | the first qualifying detail with a name carries that name |
| PerfIssues.FirstDetailExactlyForQualifyingNames | front_end/panels/timeline/components/SidebarRNPerfIssuesTab.ts:77-99 | a name has a first detail exactly when some entry qualifies with that name |
| PerfIssues.FindGroup | front_end/panels/timeline/components/SidebarRNPerfIssuesTab.ts:96 | `eventsByIssueName.get`: the position of the group with that name, or none when there is none |
| PerfIssues.GroupedMatchesReference | front_end/panels/timeline/components/SidebarRNPerfIssuesTab.ts:74-110 | the map filled by the loop has one group per distinct name, in first-seen order; its metadata is the first detail and its events are those entries in order; other names have none |
| PerfIssues.LexTotal | front_end/panels/timeline/components/SidebarRNPerfIssuesTab.ts:128 | the name order is total |
| PerfIssues.LexTransitive | front_end/panels/timeline/components/SidebarRNPerfIssuesTab.ts:128 | the name order is transitive |
| PerfIssues.Insert | front_end/panels/timeline/components/SidebarRNPerfIssuesTab.ts:123-129 | insertion adds exactly one element (as a multiset) |
| PerfIssues.SortIssues | front_end/panels/timeline/components/SidebarRNPerfIssuesTab.ts:123-129 | the sort is a permutation |
| PerfIssues.InsertKeepsSorted | front_end/panels/timeline/components/SidebarRNPerfIssuesTab.ts:123-129 | inserting into a sorted list keeps it sorted by severity (descending), then name |
| PerfIssues.SortIssuesSorts | front_end/panels/timeline/components/SidebarRNPerfIssuesTab.ts:20-25 | the sort orders by `SORT_ORDER` (error, warning, info) and then by ascending name |
| PerfIssues.InsertKeepsDistinctNames | front_end/panels/timeline/components/SidebarRNPerfIssuesTab.ts:123-129 | inserting an issue with a new name keeps the names distinct |
| PerfIssues.SortKeepsDistinctNames | front_end/panels/timeline/components/SidebarRNPerfIssuesTab.ts:123-129 | sorting keeps the names distinct |
| PerfIssues.InsertKeepsSum | front_end/panels/timeline/components/SidebarRNPerfIssuesTab.ts:123-129 | inserting adds the issue's count to the total |
| PerfIssues.SortKeepsSum | front_end/panels/timeline/components/SidebarRNPerfIssuesTab.ts:123-129 | sorting keeps the total count |
| PerfIssues.IssuesOf | front_end/panels/timeline/components/SidebarRNPerfIssuesTab.ts:112-121 | one issue per group, in order, with defaulted severity and `count = events.length` |
| PerfIssues.IssuesCountGroupEvents | front_end/panels/timeline/components/SidebarRNPerfIssuesTab.ts:119 | the issues' counts add up to the groups' events |
| PerfIssues.AddingAnEventCountsOne | front_end/panels/timeline/components/SidebarRNPerfIssuesTab.ts:100-104 | pushing an event into a group adds one to the total |
| PerfIssues.AppendingAGroupCounts | front_end/panels/timeline/components/SidebarRNPerfIssuesTab.ts:96-104 | a new group adds its events to the total |
| PerfIssues.GroupsHoldEveryQualifyingEntry | front_end/panels/timeline/components/SidebarRNPerfIssuesTab.ts:74-110 | the groups hold exactly as many events as there are qualifying entries |
| PerfIssues.NamesExistExactlyWhenSomeEntryQualifies | front_end/panels/timeline/components/SidebarRNPerfIssuesTab.ts:77-104 | there is a group exactly when some entry qualifies |
| PerfIssues.UnsortedIssuesCharacterised | front_end/panels/timeline/components/SidebarRNPerfIssuesTab.ts:112-121 | before the sort, each issue is the reference issue for its name, and every qualifying name has one |
| PerfIssues.SameElements | front_end/panels/timeline/components/SidebarRNPerfIssuesTab.ts:123 | the in-place sort keeps the same elements |
| PerfIssues.AggregatedIssuesCharacterised | front_end/panels/timeline/components/SidebarRNPerfIssuesTab.ts:63-130 | the result is sorted and names are distinct; each issue is the reference issue for its name (first metadata, defaulted severity, events in order, count); a name appears exactly when some entry qualifies with it; the counts add up to the qualifying entries |
| PerfIssues.QualifyingDetail | front_end/panels/timeline/components/SidebarRNPerfIssuesTab.ts:77-94 | an issue only from a synthetic extension entry with a non-empty detail string that parses to a present `devtools.performanceIssue`; a non-synthetic entry, an empty or absent detail and malformed JSON give none |
| PerfIssues.SidebarRNPerfIssuesTab.HasIssues | front_end/panels/timeline/components/SidebarRNPerfIssuesTab.ts:59-61 | true exactly when the aggregated issue list is non-empty; by `HasIssuesExactlyWhenSomeEntryQualifies`, exactly when some entry of the trace qualifies |
| PerfIssues.HasIssuesExactlyWhenSomeEntryQualifies | front_end/panels/timeline/components/SidebarRNPerfIssuesTab.ts:59-67 | `hasIssues()` exactly when there is a trace and some entry of it qualifies; a null trace gives none |
| PerfIssues.ParsedTrace.constructor | front_end/panels/timeline/components/SidebarRNPerfIssuesTab.ts:69 | a trace with its start time and entries |
| PerfIssues.SidebarRNPerfIssuesTab.constructor | front_end/panels/timeline/components/SidebarRNPerfIssuesTab.ts:41-42 | no trace and no issues |
| PerfIssues.SidebarRNPerfIssuesTab.SetParsedTrace | front_end/panels/timeline/components/SidebarRNPerfIssuesTab.ts:46-53 | assigning the same trace again changes nothing; another trace is stored and the issues recomputed |
| PerfIssues.SidebarRNPerfIssuesTab.UpdatePerfIssues | front_end/panels/timeline/components/SidebarRNPerfIssuesTab.ts:63-130 | the grouping and counting loops followed by the sort leave `AggregatedIssues(parsedTrace)` |
| WindowTitle.TitleParts | front_end/entrypoints/rn_fusebox/FuseboxWindowTitleManager.ts:32-45 | one to four parts ending with `- React Native DevTools`; the app name first when truthy; only the marker when no field is truthy |
| WindowTitle.TitlePartsPresent | front_end/entrypoints/rn_fusebox/FuseboxWindowTitleManager.ts:35-43 | every part is non-empty; a truthy device name, in parentheses, and a truthy suffix are among the parts |
| WindowTitle.ComposeTitle | front_end/entrypoints/rn_fusebox/FuseboxWindowTitleManager.ts:32-47 | the parts joined by single spaces; it ends with `- React Native DevTools` |
| WindowTitle.TitleEndsWithMarker | front_end/entrypoints/rn_fusebox/FuseboxWindowTitleManager.ts:44-46 | the title ends with `- React Native DevTools`, after a space unless it is the whole title, which it is exactly when no field is truthy |
| WindowTitle.JoinEndsWithLast | front_end/entrypoints/rn_fusebox/FuseboxWindowTitleManager.ts:46 | a join ends with its last part, after the separator when there are several |
| WindowTitle.EmptyFieldsContributeNothing | front_end/entrypoints/rn_fusebox/FuseboxWindowTitleManager.ts:35-43 | undefined and empty fields give the same title |
| WindowTitle.TitleNamesAppAndDevice | front_end/entrypoints/rn_fusebox/FuseboxWindowTitleManager.ts:35-40 | a present app name starts the title followed by a space; a present device name appears in parentheses |
| WindowTitle.DeviceFollowsApp | front_end/entrypoints/rn_fusebox/FuseboxWindowTitleManager.ts:35-40 | with both names, `(device)` follows the app name and a space |
| WindowTitle.JoinStartsWithFirst | front_end/entrypoints/rn_fusebox/FuseboxWindowTitleManager.ts:46 | a join of two or more parts starts with the first part and the separator |
| WindowTitle.JoinCons | front_end/entrypoints/rn_fusebox/FuseboxWindowTitleManager.ts:46 | joining `[x] + rest` is `x`, the separator, then the join of `rest` |
| WindowTitle.FuseboxWindowTitleManager.SetAppInfo | front_end/entrypoints/rn_fusebox/FuseboxWindowTitleManager.ts:21-25 | only the app and device fields change and the title is recomputed |
| WindowTitle.FuseboxWindowTitleManager.SetSuffix | front_end/entrypoints/rn_fusebox/FuseboxWindowTitleManager.ts:27-30 | only the suffix changes and the title is recomputed |
| WindowTitle.FuseboxWindowTitleManager.UpdateTitle | front_end/entrypoints/rn_fusebox/FuseboxWindowTitleManager.ts:32-47 | the pushed parts, joined by spaces, are the composed title of the three fields |
| WindowTitle.TitleManagerSingleton.Instance | front_end/entrypoints/rn_fusebox/FuseboxWindowTitleManager.ts:14-19 | the first call creates the manager with no app name, device name or suffix, over the given document; every call returns that same object |
| TargetDetachedDialog.GetCustomUiReason | front_end/ui/legacy/components/utils/TargetDetachedDialog.ts:50-68 | none without details; unregistered-device exactly for code 1011 with `[UNREGISTERED_DEVICE]`; connection-lost exactly for 1000 with `[CONNECTION_LOST]`; new-debugger exactly for 1000 with `[NEW_DEBUGGER_OPENED]` and not `[CONNECTION_LOST]` |
| TargetDetachedDialog.ConnectionLostUiReason | front_end/ui/legacy/components/utils/TargetDetachedDialog.ts:70-73 | the custom reason, or "WebSocket disconnected" exactly when there is none |
| TargetDetachedDialog.UiReasonIgnoresErrorType | front_end/ui/legacy/components/utils/TargetDetachedDialog.ts:50-68 | the error type never affects the reason |
| TargetDetachedDialog.CrashDialogLatch.OnTargetConstructed | front_end/ui/legacy/components/utils/TargetDetachedDialog.ts:35-44 | with a browser parent and a set latch, the dialog is hidden and the latch cleared; otherwise nothing changes |
| TargetDetachedDialog.CrashDialogLatch.TargetCrashed | front_end/ui/legacy/components/utils/TargetDetachedDialog.ts:75-99 | nothing if the latch is set or the parent is not a browser target; otherwise a dialog is shown and the latch set |
| TargetDetachedDialog.CrashDialogLatch.CrashScreenClosed | front_end/ui/legacy/components/utils/TargetDetachedDialog.ts:93-95 | closing the crash screen clears the latch |
| TargetDetachedDialog.CrashDialogLatch.TargetReloadedAfterCrash | front_end/ui/legacy/components/utils/TargetDetachedDialog.ts:103-109 | asks to run if waiting; a set latch hides its dialog and is cleared |
| ReactDevToolsModel.FirstThrower | front_end/panels/react_devtools/ReactDevToolsModel.ts:136-138 | the position of the first listener that throws: nobody before it throws, and it throws unless it is the end |
| ReactDevToolsModel.FirstThrowerIsFirst | front_end/panels/react_devtools/ReactDevToolsModel.ts:136-138 | a position before which nobody throws and at which someone throws, or the listeners end, is the first thrower |
| ReactDevToolsModel.ReactDevToolsModel.constructor | front_end/panels/react_devtools/ReactDevToolsModel.ts:42-81 | not initialised, no bridge or store, no listeners, no events |
| ReactDevToolsModel.ReactDevToolsModel.IsInitialized | front_end/panels/react_devtools/ReactDevToolsModel.ts:111-113 | in a valid state, true only once initialisation has finished: the domain is subscribed and the initialisation phase is complete |
| ReactDevToolsModel.ReactDevToolsModel.GetBridgeOrThrow | front_end/panels/react_devtools/ReactDevToolsModel.ts:115-121 | throws (with the source's message) exactly when there is no bridge; otherwise returns it |
| ReactDevToolsModel.ReactDevToolsModel.GetStoreOrThrow | front_end/panels/react_devtools/ReactDevToolsModel.ts:123-129 | throws (with the source's message) exactly when there is no store; otherwise returns it |
| ReactDevToolsModel.ReactDevToolsModel.EnsureInitialized | front_end/panels/react_devtools/ReactDevToolsModel.ts:83-90 | the first call starts initialisation; later calls change nothing |
| ReactDevToolsModel.ReactDevToolsModel.EnableSucceeded | front_end/panels/react_devtools/ReactDevToolsModel.ts:95-102 | after `enable()` the domain messages are subscribed and `initializeDomain` is awaited |
| ReactDevToolsModel.ReactDevToolsModel.InitializeDomainSucceeded | front_end/panels/react_devtools/ReactDevToolsModel.ts:102-105 | after `initializeDomain` the model is initialised, a new bridge is created and InitializationCompleted is emitted; outside that phase nothing changes |
| ReactDevToolsModel.ReactDevToolsModel.InitializationStepFailed | front_end/panels/react_devtools/ReactDevToolsModel.ts:106-108 | a failing step emits InitializationFailed with its message; `initialized`, the bridge and the store stay as they were |
| ReactDevToolsModel.ReactDevToolsModel.FinishInitializationAndNotify | front_end/panels/react_devtools/ReactDevToolsModel.ts:164-168 | a new bridge, a store over it, then InitializationCompleted |
| ReactDevToolsModel.ReactDevToolsModel.BackendExecutionContextCreated | front_end/panels/react_devtools/ReactDevToolsModel.ts:150-162 | with the bindings disabled, `ensureInitialized`: the first request moves to awaiting `enable()`, a later one changes nothing; otherwise a new bridge and a store over it are created and InitializationCompleted emitted, the initialisation state staying; the listeners, shutdowns and sent messages never change |
| ReactDevToolsModel.ReactDevToolsModel.BackendExecutionContextUnavailable | front_end/panels/react_devtools/ReactDevToolsModel.ts:170-172 | InitializationFailed with the error message; nothing else changes |
| ReactDevToolsModel.ReactDevToolsModel.BackendExecutionContextDestroyed | front_end/panels/react_devtools/ReactDevToolsModel.ts:174-181 | the bridge is shut down, bridge and store become null, the listeners are cleared, Destroyed is emitted; the initialisation flags stay |
| ReactDevToolsModel.ReactDevToolsModel.BeforeUnload | front_end/panels/react_devtools/ReactDevToolsModel.ts:80 | a present bridge is shut down; nothing else changes |
| ReactDevToolsModel.ReactDevToolsModel.WallListen | front_end/panels/react_devtools/ReactDevToolsModel.ts:46-47 | the listener is added to the set |
| ReactDevToolsModel.ReactDevToolsModel.WallUnlisten | front_end/panels/react_devtools/ReactDevToolsModel.ts:49-51 | the returned function removes exactly that listener |
| ReactDevToolsModel.ReactDevToolsModel.WallSend | front_end/panels/react_devtools/ReactDevToolsModel.ts:141-148 | `send` forwards `{event, payload}` to the bindings model |
| ReactDevToolsModel.ReactDevToolsModel.HandleMessage | front_end/panels/react_devtools/ReactDevToolsModel.ts:131-139 | a falsy message reaches nobody; any other message reaches the listeners in order up to and including the first that throws, whose exception propagates, or all of them when none throws |
| ReactNativeApplicationModel.EnableResolvedMetric | front_end/core/sdk/ReactNativeApplicationModel.ts:38-42 | success exactly when the result carries no (non-empty) error, which is passed on |
| ReactNativeApplicationModel.ReactNativeApplicationModel.constructor | front_end/core/sdk/ReactNativeApplicationModel.ts:19-30 | reports that setting client metadata started, then is enabled, with one pending enable |
| ReactNativeApplicationModel.ReactNativeApplicationModel.EnsureEnabled | front_end/core/sdk/ReactNativeApplicationModel.ts:32-48 | `invoke_enable()` is called at most once; later calls change nothing |
| ReactNativeApplicationModel.ReactNativeApplicationModel.EnableResolved | front_end/core/sdk/ReactNativeApplicationModel.ts:38-42 | a settled enable reports the finish metric from the result's error |
| ReactNativeApplicationModel.ReactNativeApplicationModel.EnableRejected | front_end/core/sdk/ReactNativeApplicationModel.ts:43-46 | a rejected enable reports failure with the reason |
| ReactNativeApplicationModel.ReactNativeApplicationModel.MetadataUpdatedEvent | front_end/core/sdk/ReactNativeApplicationModel.ts:50-53 | the metadata is cached, then dispatched |
| ReactNativeApplicationModel.ReactNativeApplicationModel.SystemStateChangedEvent | front_end/core/sdk/ReactNativeApplicationModel.ts:55-57 | the state is dispatched and the metadata cache stays |
| ReactNativeApplicationModel.ReactNativeApplicationModel.TraceRequestedEvent | front_end/core/sdk/ReactNativeApplicationModel.ts:59-62 | the metric is reported, then the event dispatched |
| DomApi.InsertDashes | scripts/eslint_rules/lib/no-imperative-dom-api/dom-api.js:71 | `replace(/([a-z])([A-Z])/g, '$1-$2')`: a leading lower-upper pair gets a dash between, and otherwise the first character is kept |
| DomApi.Kebab | scripts/eslint_rules/lib/no-imperative-dom-api/dom-api.js:71 | the camelCase style name with a `-` before each upper-case letter that follows a lower-case one, lowered: at least as long as the name, starting with the name's first character lowered, and with `-` and the lowered capital after a leading lower-upper pair |
| DomApi.KebabUnfold | scripts/eslint_rules/lib/no-imperative-dom-api/dom-api.js:71 | one step of the kebab key: a lower-upper pair becomes lower, `-`, lowered upper; any other character is lowered |
| DomApi.KebabHasNoCapitals | scripts/eslint_rules/lib/no-imperative-dom-api/dom-api.js:71 | a kebab key has no capitals |
| DomApi.KebabRoundTrip | scripts/eslint_rules/lib/no-imperative-dom-api/dom-api.js:71 | for a camelCase name, turning each `-x` of the kebab key back into `X` gives the name, so distinct names give distinct keys |
| DomApi.DatasetKey | scripts/eslint_rules/lib/no-imperative-dom-api/dom-api.js:81 | `data-` followed by the kebab key |
| DomApi.LiteralText | scripts/eslint_rules/lib/no-imperative-dom-api/dom-api.js:104 | `value.toString()`: strings as they are, booleans as `true`/`false`, numbers in decimal that parses back; null throws |
| DomApi.AttributeKeysAreNames | scripts/eslint_rules/lib/no-imperative-dom-api/dom-api.js:34-47 | every listed attribute name is already lower case, so its key is the name |
| DomApi.IndexOf | scripts/eslint_rules/lib/no-imperative-dom-api/dom-api.js:124-138 | `indexOf`: -1 exactly when absent, otherwise the first position |
| DomApi.PropertyAssignment | scripts/eslint_rules/lib/no-imperative-dom-api/dom-api.js:25-49 | className pushes the value to classList; the text properties overwrite textContent; the listed attributes push `{lowercased name, value}`; checked/disabled push `?name` with a literal `true` as `${true}`; anything else is unhandled and changes nothing |
| DomApi.PropertyMethodCall | scripts/eslint_rules/lib/no-imperative-dom-api/dom-api.js:56-62 | `classList.add(x)` pushes x; anything else is unhandled and changes nothing |
| DomApi.SubpropertyAssignment | scripts/eslint_rules/lib/no-imperative-dom-api/dom-api.js:69-91 | `style.X` pushes the kebab key; `dataset.X` pushes `data-` + kebab key; a spread value is refused; anything else changes nothing |
| DomApi.AppendAll | scripts/eslint_rules/lib/no-imperative-dom-api/dom-api.js:112-117 | `appendChild` for each argument, in order |
| DomApi.PrependAll | scripts/eslint_rules/lib/no-imperative-dom-api/dom-api.js:118-123 | `insertChildAt(child, 0)` for each argument, in order |
| DomApi.MarkReferences | scripts/eslint_rules/lib/no-imperative-dom-api/dom-api.js:127-131 | exactly the references to the second argument become processed |
| DomApi.MethodCall | scripts/eslint_rules/lib/no-imperative-dom-api/dom-api.js:99-150 | setAttribute with a literal key pushes the attribute (a null key throws); appendChild/append/prepend record the insertions; insertBefore inserts at the found index and marks the references to the second argument, or falls through when absent; insertAdjacentElement inserts into the parent at index + 1 (`afterend`) or index (`beforebegin`); anything else is unhandled and changes nothing; the parent changes only by that insertion, and references other than those marked keep their state |
| DomApi.Reference.constructor | scripts/eslint_rules/lib/no-imperative-dom-api/dom-api.js:127-129 | a reference to a node, not yet processed |
| DomApi.DomFragment.constructor | scripts/eslint_rules/lib/no-imperative-dom-api/dom-api.js:27-47 | an empty fragment without a parent |

## Left out

- The `stackTraceSymbolicationSucceeded` metric and the set of special frame kinds it reports (ErrorStackParser.ts:94, 102, 149, 184-186) are not modelled. A failure is returned as `SymbolicationFailed(line, reason)` instead of being sent to the metrics. The source returns `null` both for a failure and for a stack without an error name; the model tells the two apart as `SymbolicationFailed` and `NotAnErrorStack`.
- `isCallFrame` is modelled as a boolean, so an entry without the field and one with `false` are the same.
- `ParsedURL.splitLineAndColumn`, `isValidUrlString`, `isRelativeURL`, `completeURL`, `scriptsForSourceURL` and `new URL(url, 'file://').href` are not part of this model. They are uninterpreted fields of `UrlEnv`.
- `ErrorStackParser.ParseOrScriptMatch`: `new URL(url, 'file://')` throws on some inputs, but `fileUrlHref` is a total function. An exception escaping `parseSourcePositionsFromErrorStack` from there is not modelled.
- String positions and lengths count code points. JavaScript's `length`, `indexOf`, `substring` and `slice` count UTF-16 code units, so the two differ on text with characters outside the Basic Multilingual Plane.
- `MaybeTruncateDeveloperResourceUrl` keeps 100 code points and counts omitted code points. The source keeps 100 UTF-16 code units and counts code units. It can also split a surrogate pair, and the model cannot.
- `registerGlobalErrorReporting` and `registerPerfMetricsGlobalPostMessageHandler` are not modelled: they patch `window` and `console` and post messages.
- Of the event builders, only `entryPointLoadingStarted`/`Finished`, `panelShownInLocation`, `developerResourceLoadingStarted` and `fuseboxSetClientMetadataFinished` are modelled. The others have the same shape: an event handed to `sendEvent`.
- Timestamps are integer parameters. `performance.now()` is floating point and a clock.
- `console.error` with the `AggregateError` is not modelled: the list of errors is returned as the report.
- Listeners are identified by `ListenerId`. What a listener does is the parameter `invoke`: return, or throw a value.
- A listener's side effects are not modelled. In particular, `PerfMetrics.RNPerfMetrics.SendEvent` iterates over the listener set as it was when the event was sent. A JavaScript `Set` iteration would also visit listeners that a listener adds during the call, and skip ones it removes.
- `PerfMetrics.DecorateEvent` copies the session fields into the event as values. The source puts the live `#currentPanels` map and `#telemetryInfo` object into it. So a listener that keeps the event sees later panel changes in the source, and it does not in the model.
- `ReactDevToolsModel.ReactDevToolsModel.HandleMessage`: iterating the wall listeners while a listener adds or removes one is not modelled, for the same reason. What a listener does is the parameter `throws`.
- `microToMilli` is floating point. Trace times are integer milliseconds and the trace is its flat list of extension entries; the grouping into tracks is not modelled.
- `localeCompare` is replaced by code-point lexicographic order. Locale collation is not part of this model.
- Localised UI strings (`i18nString(UIStrings.…)`) are their English texts, as string constants. Localisation is not part of this model.
- `JSON.parse` is the parameter `parse`. A `SyntheticUserTiming` event whose detail comes from its begin event is represented by the entry's detail string.
- `Array.prototype.sort` is modelled by an insertion sort. Issue names are distinct, so any correct sort gives the same result.
- Rendering, Lit templates, scheduling of renders and DOM construction are not modelled, for example `#render`, the dialogs and the crash screen. The crash dialog is the record of shown and hidden dialogs.
- Promise scheduling is replaced by explicit completion steps, such as `EnableSucceeded` and `EnableResolved`. An exception thrown inside `#finishInitializationAndNotify` is not modelled, and nor is the `catch` that would report it.
- `createBridge` and `createStore` are numbered bridges and stores.
- The `null` bindings-model checks in the constructor, `#sendMessage` and `#handleBackendExecutionContextCreated` are not modelled: the constructor throws before the model exists, so those checks cannot fail afterwards.
- Registering the bindings-model event listeners is not modelled. The handlers are methods called directly.
- `ReactNativeApplicationModel` dispatches its events to listeners that are not part of this model. The dispatched events are recorded in order.
- `isIdentifier`, `isLiteral` and the AST types are small datatypes of nodes. `MemberExpression` and `DomFragment.getOrCreate` are not modelled; the fragment `getOrCreate` would return is an argument.
- `DomFragment.appendChild` and `insertChildAt` are recorded as calls on the fragment. What they do to `children` is not part of this model.
- `toLowerCase` is ASCII only. Number literals are integers, and regular-expression and big-integer literals are not modelled.
- How the lint rule derives `firstArg` and `secondArg` from a call is not modelled. `call.arguments` is a parameter.
- `DomApi.PrependAll` records the calls in source order, as written. The order of the resulting children depends on `insertChildAt`, which is not part of this model, so no claim is made about it.
