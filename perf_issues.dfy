/** Aggregation of React Native performance issues for the timeline sidebar
    (front_end/panels/timeline/components/SidebarRNPerfIssuesTab.ts, types in
    RNPerfIssueTypes.ts): extension-track entries whose JSON detail carries
    `devtools.performanceIssue` are grouped by issue name, the first entry of a name
    supplies the metadata, and the groups are sorted by severity and then by name.
    The trace is the flat list of its extension entries; JSON.parse is the parameter
    `parse`; times are integer milliseconds. */
module PerfIssues {
  import opened Wrappers

  // ---------------------------------------------------------------------------
  // Entities

  datatype Severity = Info | Warning | Error

  /** SORT_ORDER */
  function SortOrder(s: Severity): nat
  {
    match s
    case Error => 3
    case Warning => 2
    case Info => 1
  }

  /** DEFAULT_ISSUE_SEVERITY */
  const DefaultIssueSeverity: Severity := Info

  datatype IssueDetail = IssueDetail(
    name: string, description: Option<string>, severity: Option<Severity>, learnMoreUrl: Option<string>)

  /** The outcome of JSON.parse on a detail string: it throws, or it yields an object
      that may or may not carry `devtools.performanceIssue`. */
  datatype DetailParse = Malformed | ParsedDetail(performanceIssue: Option<IssueDetail>)

  /** An entry of an extension track: its identity, whether it is a synthetic
      extension entry, the `detail` string of its source event, and its start time. */
  datatype TraceEntry = TraceEntry(id: nat, isSyntheticExtensionEntry: bool, detail: Option<string>, tsMs: int)

  datatype PerfIssueEvent = PerfIssueEvent(event: TraceEntry, timestampMs: int)

  datatype AggregatedPerfIssue = AggregatedPerfIssue(
    name: string,
    description: Option<string>,
    severity: Severity,
    learnMoreUrl: Option<string>,
    events: seq<PerfIssueEvent>,
    count: nat)

  /** A parsed trace; the component compares traces by identity. */
  class ParsedTrace {
    const traceStartMs: int
    const entries: seq<TraceEntry>

    constructor (start: int, es: seq<TraceEntry>)
      ensures traceStartMs == start && entries == es
    {
      traceStartMs := start;
      entries := es;
    }
  }

  type Parser = string -> DetailParse

  // ---------------------------------------------------------------------------
  // Reference definitions

  /** The performance-issue detail of an entry, or None when the entry is skipped:
      not a synthetic extension entry, no (or an empty) detail string, detail not
      valid JSON, or no `devtools.performanceIssue`. */
  function QualifyingDetail(e: TraceEntry, parse: Parser): (r: Option<IssueDetail>)
    ensures r.Some? ==> e.isSyntheticExtensionEntry && Truthy(e.detail) && parse(e.detail.value) == ParsedDetail(r)
    ensures !e.isSyntheticExtensionEntry || !Truthy(e.detail) ==> r.None?
    ensures Truthy(e.detail) && parse(e.detail.value).Malformed? ==> r.None?
  {
    if !e.isSyntheticExtensionEntry || !Truthy(e.detail) then None
    else
      match parse(e.detail.value)
      case Malformed => None
      case ParsedDetail(p) => p
  }

  function IssueEvent(e: TraceEntry, start: int): PerfIssueEvent
  {
    PerfIssueEvent(e, e.tsMs - start)
  }

  /** The distinct issue names, in order of first appearance. */
  function Names(entries: seq<TraceEntry>, parse: Parser): seq<string>
  {
    if |entries| == 0 then []
    else
      var front := Names(entries[..|entries| - 1], parse);
      match QualifyingDetail(entries[|entries| - 1], parse)
      case Some(d) => if d.name in front then front else front + [d.name]
      case None => front
  }

  /** The events of the entries named `m`, in encounter order. */
  function EventsNamed(entries: seq<TraceEntry>, parse: Parser, start: int, m: string): seq<PerfIssueEvent>
  {
    if |entries| == 0 then []
    else
      var front := EventsNamed(entries[..|entries| - 1], parse, start, m);
      var last := entries[|entries| - 1];
      match QualifyingDetail(last, parse)
      case Some(d) => if d.name == m then front + [IssueEvent(last, start)] else front
      case None => front
  }

  /** The detail of the first entry named `m`. */
  function FirstDetail(entries: seq<TraceEntry>, parse: Parser, m: string): (r: Option<IssueDetail>)
    ensures r.Some? ==> r.value.name == m
  {
    if |entries| == 0 then None
    else
      var front := FirstDetail(entries[..|entries| - 1], parse, m);
      if front.Some? then front
      else
        match QualifyingDetail(entries[|entries| - 1], parse)
        case Some(d) => if d.name == m then Some(d) else None
        case None => None
  }

  function QualifyingCount(entries: seq<TraceEntry>, parse: Parser): nat
  {
    if |entries| == 0 then 0
    else
      QualifyingCount(entries[..|entries| - 1], parse)
      + (if QualifyingDetail(entries[|entries| - 1], parse).Some? then 1 else 0)
  }

  function SeverityOrDefault(s: Option<Severity>): Severity
  {
    match s
    case Some(v) => v
    case None => DefaultIssueSeverity
  }

  /** The aggregated issue named `m`, as the component describes it. */
  function IssueFor(entries: seq<TraceEntry>, parse: Parser, start: int, m: string): Option<AggregatedPerfIssue>
  {
    match FirstDetail(entries, parse, m)
    case None => None
    case Some(d) =>
      var events := EventsNamed(entries, parse, start, m);
      Some(AggregatedPerfIssue(m, d.description, SeverityOrDefault(d.severity), d.learnMoreUrl, events, |events|))
  }

  lemma {:induction false} FirstDetailExactlyForQualifyingNames(entries: seq<TraceEntry>, parse: Parser, m: string)
    ensures FirstDetail(entries, parse, m).Some? <==>
      exists i :: 0 <= i < |entries| && QualifyingDetail(entries[i], parse).Some? && QualifyingDetail(entries[i], parse).value.name == m
  {
    if |entries| > 0 {
      var front := entries[..|entries| - 1];
      FirstDetailExactlyForQualifyingNames(front, parse, m);
      assert forall i :: 0 <= i < |front| ==> front[i] == entries[i];
    }
  }

  // ---------------------------------------------------------------------------
  // The grouping map (a JavaScript Map: insertion order)

  datatype Group = Group(metadata: IssueDetail, events: seq<PerfIssueEvent>)

  function FindGroup(groups: seq<Group>, name: string, from: nat): (r: Option<nat>)
    requires from <= |groups|
    ensures r.Some? ==> from <= r.value < |groups| && groups[r.value].metadata.name == name
    ensures forall j :: from <= j < |groups| && (r.None? || j < r.value) ==> groups[j].metadata.name != name
    decreases |groups| - from
  {
    if from == |groups| then None
    else if groups[from].metadata.name == name then Some(from)
    else FindGroup(groups, name, from + 1)
  }

  /** `eventsByIssueName.get(name) ?? {metadata, events: []}`, push, set. */
  function AddToGroups(groups: seq<Group>, d: IssueDetail, ev: PerfIssueEvent): seq<Group>
  {
    match FindGroup(groups, d.name, 0)
    case Some(k) => groups[k := groups[k].(events := groups[k].events + [ev])]
    case None => groups + [Group(d, [ev])]
  }

  function Grouped(entries: seq<TraceEntry>, parse: Parser, start: int): seq<Group>
  {
    if |entries| == 0 then []
    else
      var front := Grouped(entries[..|entries| - 1], parse, start);
      var last := entries[|entries| - 1];
      match QualifyingDetail(last, parse)
      case Some(d) => AddToGroups(front, d, IssueEvent(last, start))
      case None => front
  }

  predicate NoDuplicateNames(ns: seq<string>)
  {
    forall i, j :: 0 <= i < j < |ns| ==> ns[i] != ns[j]
  }

  /** `g` is the map for `entries` whose keys, in order, are `ns`: one group per
      distinct name, with the first entry's detail and all of that name's events. */
  ghost predicate GroupsMatch(g: seq<Group>, ns: seq<string>, entries: seq<TraceEntry>, parse: Parser, start: int)
  {
    && NoDuplicateNames(ns)
    && |g| == |ns|
    && (forall k :: 0 <= k < |ns| ==>
          && g[k].metadata.name == ns[k]
          && FirstDetail(entries, parse, ns[k]) == Some(g[k].metadata)
          && g[k].events == EventsNamed(entries, parse, start, ns[k]))
    && (forall m :: m !in ns ==> FirstDetail(entries, parse, m).None? && EventsNamed(entries, parse, start, m) == [])
  }

  /** One qualifying entry more: what it does to the first detail and the events
      of a name. */
  lemma StepUnfold(entries: seq<TraceEntry>, parse: Parser, start: int, m: string)
    requires |entries| > 0
    requires QualifyingDetail(entries[|entries| - 1], parse).Some?
    ensures var front, d := entries[..|entries| - 1], QualifyingDetail(entries[|entries| - 1], parse).value;
      && FirstDetail(entries, parse, m)
           == (if FirstDetail(front, parse, m).Some? then FirstDetail(front, parse, m)
               else if d.name == m then Some(d) else None)
      && EventsNamed(entries, parse, start, m)
           == EventsNamed(front, parse, start, m)
              + (if d.name == m then [IssueEvent(entries[|entries| - 1], start)] else [])
  {
  }

  /** In a map whose keys are the distinct names `ns`, the group of `ns[k]` is at `k`. */
  lemma FindGroupLocates(g: seq<Group>, ns: seq<string>, k: nat)
    requires NoDuplicateNames(ns) && |g| == |ns| && k < |ns|
    requires forall j :: 0 <= j < |ns| ==> g[j].metadata.name == ns[j]
    ensures FindGroup(g, ns[k], 0) == Some(k)
  {
    var r := FindGroup(g, ns[k], 0);
    assert r.Some? && r.value <= k;
  }

  /** An entry whose name already has a group extends that group's events. */
  lemma GroupedStepExisting(entries: seq<TraceEntry>, parse: Parser, start: int)
    requires |entries| > 0
    requires GroupsMatch(Grouped(entries[..|entries| - 1], parse, start), Names(entries[..|entries| - 1], parse),
                         entries[..|entries| - 1], parse, start)
    requires QualifyingDetail(entries[|entries| - 1], parse).Some?
    requires QualifyingDetail(entries[|entries| - 1], parse).value.name in Names(entries[..|entries| - 1], parse)
    ensures GroupsMatch(Grouped(entries, parse, start), Names(entries, parse), entries, parse, start)
  {
    var front := entries[..|entries| - 1];
    var d := QualifyingDetail(entries[|entries| - 1], parse).value;
    var g, ns := Grouped(front, parse, start), Names(front, parse);
    var k :| 0 <= k < |ns| && ns[k] == d.name;
    FindGroupLocates(g, ns, k);
    var g' := g[k := g[k].(events := g[k].events + [IssueEvent(entries[|entries| - 1], start)])];
    assert Grouped(entries, parse, start) == g';
    assert Names(entries, parse) == ns;
    forall j | 0 <= j < |ns|
      ensures FirstDetail(entries, parse, ns[j]) == Some(g'[j].metadata)
      ensures g'[j].events == EventsNamed(entries, parse, start, ns[j])
    {
      StepUnfold(entries, parse, start, ns[j]);
      assert j != k ==> ns[j] != d.name;
    }
    forall m | m !in ns
      ensures FirstDetail(entries, parse, m).None? && EventsNamed(entries, parse, start, m) == []
    {
      StepUnfold(entries, parse, start, m);
    }
  }

  /** An entry with a new name opens a new group at the end. */
  lemma GroupedStepNew(entries: seq<TraceEntry>, parse: Parser, start: int)
    requires |entries| > 0
    requires GroupsMatch(Grouped(entries[..|entries| - 1], parse, start), Names(entries[..|entries| - 1], parse),
                         entries[..|entries| - 1], parse, start)
    requires QualifyingDetail(entries[|entries| - 1], parse).Some?
    requires QualifyingDetail(entries[|entries| - 1], parse).value.name !in Names(entries[..|entries| - 1], parse)
    ensures GroupsMatch(Grouped(entries, parse, start), Names(entries, parse), entries, parse, start)
  {
    var front := entries[..|entries| - 1];
    var last := entries[|entries| - 1];
    var d := QualifyingDetail(last, parse).value;
    var ev := IssueEvent(last, start);
    var g, ns := Grouped(front, parse, start), Names(front, parse);
    assert FindGroup(g, d.name, 0).None?;
    var g' := g + [Group(d, [ev])];
    var ns' := ns + [d.name];
    assert Grouped(entries, parse, start) == g';
    assert Names(entries, parse) == ns';
    forall j | 0 <= j < |ns'|
      ensures FirstDetail(entries, parse, ns'[j]) == Some(g'[j].metadata)
      ensures g'[j].events == EventsNamed(entries, parse, start, ns'[j])
    {
      StepUnfold(entries, parse, start, ns'[j]);
      assert j < |ns| ==> ns'[j] == ns[j] != d.name;
    }
    forall m | m !in ns'
      ensures FirstDetail(entries, parse, m).None? && EventsNamed(entries, parse, start, m) == []
    {
      StepUnfold(entries, parse, start, m);
    }
  }

  /** The map holds one group per distinct name, in first-appearance order, with the
      first entry's detail and all of that name's events. */
  lemma {:induction false} GroupedMatchesReference(entries: seq<TraceEntry>, parse: Parser, start: int)
    ensures GroupsMatch(Grouped(entries, parse, start), Names(entries, parse), entries, parse, start)
    ensures NoDuplicateNames(Names(entries, parse))
    ensures |Grouped(entries, parse, start)| == |Names(entries, parse)|
    ensures forall k :: 0 <= k < |Names(entries, parse)| ==>
      && Grouped(entries, parse, start)[k].metadata.name == Names(entries, parse)[k]
      && FirstDetail(entries, parse, Names(entries, parse)[k]) == Some(Grouped(entries, parse, start)[k].metadata)
      && Grouped(entries, parse, start)[k].events == EventsNamed(entries, parse, start, Names(entries, parse)[k])
    ensures forall m :: m !in Names(entries, parse) ==>
      FirstDetail(entries, parse, m).None? && EventsNamed(entries, parse, start, m) == []
  {
    if |entries| == 0 {
      return;
    }
    var front := entries[..|entries| - 1];
    GroupedMatchesReference(front, parse, start);
    var q := QualifyingDetail(entries[|entries| - 1], parse);
    if q.None? {
      assert Grouped(entries, parse, start) == Grouped(front, parse, start);
      assert Names(entries, parse) == Names(front, parse);
    } else if q.value.name in Names(front, parse) {
      GroupedStepExisting(entries, parse, start);
    } else {
      GroupedStepNew(entries, parse, start);
    }
  }

  // ---------------------------------------------------------------------------
  // Sorting (Array.prototype.sort with the severity/name comparator; localeCompare
  // is replaced by code-point lexicographic order)

  predicate LexLessEq(a: string, b: string)
    decreases |a|
  {
    |a| == 0 || (|b| > 0 && (a[0] < b[0] || (a[0] == b[0] && LexLessEq(a[1..], b[1..]))))
  }

  lemma {:induction false} LexTotal(a: string, b: string)
    ensures LexLessEq(a, b) || LexLessEq(b, a)
    decreases |a|
  {
    if |a| > 0 && |b| > 0 && a[0] == b[0] {
      LexTotal(a[1..], b[1..]);
    }
  }

  lemma {:induction false} LexTransitive(a: string, b: string, c: string)
    requires LexLessEq(a, b) && LexLessEq(b, c)
    ensures LexLessEq(a, c)
    decreases |a|
  {
    if |a| > 0 && a[0] == b[0] && b[0] == c[0] {
      LexTransitive(a[1..], b[1..], c[1..]);
    }
  }

  /** The comparator says `a` may come before `b`: higher severity first, then by name. */
  predicate InOrder(a: AggregatedPerfIssue, b: AggregatedPerfIssue)
  {
    || SortOrder(a.severity) > SortOrder(b.severity)
    || (SortOrder(a.severity) == SortOrder(b.severity) && LexLessEq(a.name, b.name))
  }

  predicate Sorted(s: seq<AggregatedPerfIssue>)
  {
    forall i, j :: 0 <= i < j < |s| ==> InOrder(s[i], s[j])
  }

  function Insert(x: AggregatedPerfIssue, s: seq<AggregatedPerfIssue>): (r: seq<AggregatedPerfIssue>)
    ensures |r| == |s| + 1
    ensures multiset(r) == multiset(s) + multiset{x}
  {
    if |s| == 0 then [x]
    else if InOrder(x, s[0]) then [x] + s
    else
      assert s == [s[0]] + s[1..];
      [s[0]] + Insert(x, s[1..])
  }

  function SortIssues(s: seq<AggregatedPerfIssue>): (r: seq<AggregatedPerfIssue>)
    ensures |r| == |s|
    ensures multiset(r) == multiset(s)
  {
    if |s| == 0 then []
    else
      assert s == [s[0]] + s[1..];
      Insert(s[0], SortIssues(s[1..]))
  }

  lemma {:induction false} InsertKeepsSorted(x: AggregatedPerfIssue, s: seq<AggregatedPerfIssue>)
    requires Sorted(s)
    ensures Sorted(Insert(x, s))
  {
    if |s| == 0 {
    } else if InOrder(x, s[0]) {
      forall j | 0 <= j < |s|
        ensures InOrder(x, s[j])
      {
        if j > 0 {
          LexTotal(x.name, s[0].name);
          if SortOrder(x.severity) == SortOrder(s[0].severity) && SortOrder(s[0].severity) == SortOrder(s[j].severity) {
            LexTransitive(x.name, s[0].name, s[j].name);
          }
        }
      }
    } else {
      LexTotal(x.name, s[0].name);
      assert InOrder(s[0], x);
      InsertKeepsSorted(x, s[1..]);
      var rest := Insert(x, s[1..]);
      forall y | y in rest
        ensures InOrder(s[0], y)
      {
        assert y in multiset(rest);
        if y != x {
          assert y in s[1..];
        }
      }
      assert Sorted([s[0]] + rest) by {
        forall i, j | 0 <= i < j < |rest| + 1
          ensures InOrder(([s[0]] + rest)[i], ([s[0]] + rest)[j])
        {
          if i == 0 {
            assert rest[j - 1] in rest;
          }
        }
      }
    }
  }

  lemma {:induction false} SortIssuesSorts(s: seq<AggregatedPerfIssue>)
    ensures Sorted(SortIssues(s))
  {
    if |s| > 0 {
      SortIssuesSorts(s[1..]);
      InsertKeepsSorted(s[0], SortIssues(s[1..]));
    }
  }

  predicate DistinctIssueNames(s: seq<AggregatedPerfIssue>)
  {
    forall i, j :: 0 <= i < j < |s| ==> s[i].name != s[j].name
  }

  /** Sorting keeps the names distinct if they were (x's name is new to s). */
  lemma {:induction false} InsertKeepsDistinctNames(x: AggregatedPerfIssue, s: seq<AggregatedPerfIssue>)
    requires DistinctIssueNames(s)
    requires forall y :: y in s ==> y.name != x.name
    ensures DistinctIssueNames(Insert(x, s))
  {
    if |s| > 0 && !InOrder(x, s[0]) {
      InsertKeepsDistinctNames(x, s[1..]);
      var rest := Insert(x, s[1..]);
      forall y | y in rest
        ensures y.name != s[0].name
      {
        assert y in multiset(rest);
        if y != x {
          assert y in s[1..];
          var k :| 0 <= k < |s[1..]| && s[1..][k] == y;
          assert s[k + 1] == y;
        }
      }
      forall i, j | 0 <= i < j < |rest| + 1
        ensures ([s[0]] + rest)[i].name != ([s[0]] + rest)[j].name
      {
        if i == 0 {
          assert rest[j - 1] in rest;
        }
      }
    }
  }

  lemma {:induction false} SortKeepsDistinctNames(s: seq<AggregatedPerfIssue>)
    requires DistinctIssueNames(s)
    ensures DistinctIssueNames(SortIssues(s))
  {
    if |s| > 0 {
      SortKeepsDistinctNames(s[1..]);
      var sorted := SortIssues(s[1..]);
      forall y | y in sorted
        ensures y.name != s[0].name
      {
        assert y in multiset(sorted);
        var k :| 0 <= k < |s[1..]| && s[1..][k] == y;
        assert s[k + 1] == y;
      }
      InsertKeepsDistinctNames(s[0], sorted);
    }
  }

  function SumCounts(s: seq<AggregatedPerfIssue>): nat
  {
    if |s| == 0 then 0 else s[0].count + SumCounts(s[1..])
  }

  lemma {:induction false} InsertKeepsSum(x: AggregatedPerfIssue, s: seq<AggregatedPerfIssue>)
    ensures SumCounts(Insert(x, s)) == x.count + SumCounts(s)
  {
    if |s| > 0 && !InOrder(x, s[0]) {
      InsertKeepsSum(x, s[1..]);
      assert ([s[0]] + Insert(x, s[1..]))[1..] == Insert(x, s[1..]);
    } else if |s| > 0 {
      assert ([x] + s)[1..] == s;
    }
  }

  lemma {:induction false} SortKeepsSum(s: seq<AggregatedPerfIssue>)
    ensures SumCounts(SortIssues(s)) == SumCounts(s)
  {
    if |s| > 0 {
      SortKeepsSum(s[1..]);
      InsertKeepsSum(s[0], SortIssues(s[1..]));
    }
  }

  // ---------------------------------------------------------------------------
  // From groups to issues

  function ToIssue(g: Group): AggregatedPerfIssue
  {
    AggregatedPerfIssue(g.metadata.name, g.metadata.description, SeverityOrDefault(g.metadata.severity),
                        g.metadata.learnMoreUrl, g.events, |g.events|)
  }

  function IssuesOf(groups: seq<Group>): (r: seq<AggregatedPerfIssue>)
    ensures |r| == |groups| && forall k :: 0 <= k < |groups| ==> r[k] == ToIssue(groups[k])
  {
    seq(|groups|, k requires 0 <= k < |groups| => ToIssue(groups[k]))
  }

  /** What `#updatePerfIssues` leaves in `#perfIssues`. */
  function AggregatedIssues(trace: Option<ParsedTrace>, parse: Parser): seq<AggregatedPerfIssue>
  {
    match trace
    case None => []
    case Some(t) => SortIssues(IssuesOf(Grouped(t.entries, parse, t.traceStartMs)))
  }

  function GroupEventCount(groups: seq<Group>): nat
  {
    if |groups| == 0 then 0 else |groups[0].events| + GroupEventCount(groups[1..])
  }

  lemma {:induction false} IssuesCountGroupEvents(groups: seq<Group>)
    ensures SumCounts(IssuesOf(groups)) == GroupEventCount(groups)
  {
    if |groups| > 0 {
      IssuesCountGroupEvents(groups[1..]);
      assert IssuesOf(groups)[1..] == IssuesOf(groups[1..]);
    }
  }

  lemma {:induction false} AddingAnEventCountsOne(groups: seq<Group>, k: nat, ev: PerfIssueEvent)
    requires k < |groups|
    ensures GroupEventCount(groups[k := groups[k].(events := groups[k].events + [ev])]) == GroupEventCount(groups) + 1
  {
    if k > 0 {
      AddingAnEventCountsOne(groups[1..], k - 1, ev);
      assert groups[k := groups[k].(events := groups[k].events + [ev])][1..]
          == groups[1..][k - 1 := groups[k].(events := groups[k].events + [ev])];
    }
  }

  lemma {:induction false} AppendingAGroupCounts(groups: seq<Group>, g: Group)
    ensures GroupEventCount(groups + [g]) == GroupEventCount(groups) + |g.events|
  {
    if |groups| > 0 {
      AppendingAGroupCounts(groups[1..], g);
      assert (groups + [g])[1..] == groups[1..] + [g];
    }
  }

  lemma {:induction false} GroupsHoldEveryQualifyingEntry(entries: seq<TraceEntry>, parse: Parser, start: int)
    ensures GroupEventCount(Grouped(entries, parse, start)) == QualifyingCount(entries, parse)
  {
    if |entries| > 0 {
      var front := entries[..|entries| - 1];
      var last := entries[|entries| - 1];
      GroupsHoldEveryQualifyingEntry(front, parse, start);
      var g := Grouped(front, parse, start);
      match QualifyingDetail(last, parse)
      case None =>
      case Some(d) =>
        match FindGroup(g, d.name, 0)
        case Some(k) => AddingAnEventCountsOne(g, k, IssueEvent(last, start));
        case None => AppendingAGroupCounts(g, Group(d, [IssueEvent(last, start)]));
    }
  }

  lemma {:induction false} NamesExistExactlyWhenSomeEntryQualifies(entries: seq<TraceEntry>, parse: Parser)
    ensures |Names(entries, parse)| > 0 <==> QualifyingCount(entries, parse) > 0
  {
    if |entries| > 0 {
      NamesExistExactlyWhenSomeEntryQualifies(entries[..|entries| - 1], parse);
    }
  }

  /** The issues before sorting, one per group in map order. */
  lemma UnsortedIssuesCharacterised(es: seq<TraceEntry>, parse: Parser, start: int)
    ensures var u := IssuesOf(Grouped(es, parse, start));
      && (forall k :: 0 <= k < |u| ==> IssueFor(es, parse, start, u[k].name) == Some(u[k]))
      && (forall m :: FirstDetail(es, parse, m).Some? <==> exists k :: 0 <= k < |u| && u[k].name == m)
      && DistinctIssueNames(u)
      && SumCounts(u) == QualifyingCount(es, parse)
  {
    GroupedMatchesReference(es, parse, start);
    var g := Grouped(es, parse, start);
    var ns := Names(es, parse);
    var u := IssuesOf(g);
    forall k | 0 <= k < |u|
      ensures u[k].name == ns[k] && IssueFor(es, parse, start, u[k].name) == Some(u[k])
    {
    }
    forall m | FirstDetail(es, parse, m).Some?
      ensures exists k :: 0 <= k < |u| && u[k].name == m
    {
      var k :| 0 <= k < |ns| && ns[k] == m;
      assert u[k].name == m;
    }
    IssuesCountGroupEvents(g);
    GroupsHoldEveryQualifyingEntry(es, parse, start);
  }

  /** Two sequences with the same multiset hold the same elements. */
  lemma SameElements(u: seq<AggregatedPerfIssue>, r: seq<AggregatedPerfIssue>)
    requires multiset(u) == multiset(r)
    ensures forall x :: x in u <==> x in r
  {
    forall x
      ensures x in u <==> x in r
    {
      assert x in u <==> x in multiset(u);
      assert x in r <==> x in multiset(r);
    }
  }

  /** The aggregated list: one issue per distinct name of a qualifying entry, each
      described by its first entry and holding all of that name's events in order,
      sorted by severity then name, with counts that add up to the number of
      qualifying entries. */
  lemma AggregatedIssuesCharacterised(t: ParsedTrace, parse: Parser)
    ensures var r := AggregatedIssues(Some(t), parse);
      && (forall i :: 0 <= i < |r| ==> IssueFor(t.entries, parse, t.traceStartMs, r[i].name) == Some(r[i]))
      && (forall m :: FirstDetail(t.entries, parse, m).Some? <==> exists i :: 0 <= i < |r| && r[i].name == m)
      && DistinctIssueNames(r)
      && Sorted(r)
      && SumCounts(r) == QualifyingCount(t.entries, parse)
  {
    var es, start := t.entries, t.traceStartMs;
    var u := IssuesOf(Grouped(es, parse, start));
    var r := SortIssues(u);
    assert r == AggregatedIssues(Some(t), parse);
    UnsortedIssuesCharacterised(es, parse, start);
    SameElements(u, r);
    forall i | 0 <= i < |r|
      ensures IssueFor(es, parse, start, r[i].name) == Some(r[i])
    {
      assert r[i] in u;
    }
    forall m
      ensures FirstDetail(es, parse, m).Some? <==> exists i :: 0 <= i < |r| && r[i].name == m
    {
      if FirstDetail(es, parse, m).Some? {
        var k :| 0 <= k < |u| && u[k].name == m;
        assert u[k] in r;
      }
      if exists i :: 0 <= i < |r| && r[i].name == m {
        var i :| 0 <= i < |r| && r[i].name == m;
        assert r[i] in u;
      }
    }
    SortKeepsDistinctNames(u);
    SortIssuesSorts(u);
    SortKeepsSum(u);
  }

  /** hasIssues() after an update is true exactly when some entry qualifies. */
  lemma HasIssuesExactlyWhenSomeEntryQualifies(trace: Option<ParsedTrace>, parse: Parser)
    ensures |AggregatedIssues(trace, parse)| > 0 <==> trace.Some? && QualifyingCount(trace.value.entries, parse) > 0
  {
    if trace.Some? {
      GroupedMatchesReference(trace.value.entries, parse, trace.value.traceStartMs);
      NamesExistExactlyWhenSomeEntryQualifies(trace.value.entries, parse);
    }
  }

  // ---------------------------------------------------------------------------
  // The component

  class SidebarRNPerfIssuesTab {
    var parsedTrace: Option<ParsedTrace>
    var perfIssues: seq<AggregatedPerfIssue>

    constructor ()
      ensures parsedTrace == None && perfIssues == []
    {
      parsedTrace := None;
      perfIssues := [];
    }

    predicate HasIssues()
      reads this
    {
      |perfIssues| > 0
    }

    /** The `parsedTrace` setter: assigning the same trace again does nothing. */
    method SetParsedTrace(data: Option<ParsedTrace>, parse: Parser)
      modifies this
      ensures data == old(parsedTrace) ==> parsedTrace == old(parsedTrace) && perfIssues == old(perfIssues)
      ensures data != old(parsedTrace) ==> parsedTrace == data && perfIssues == AggregatedIssues(data, parse)
    {
      if data == parsedTrace {
        return;
      }
      parsedTrace := data;
      UpdatePerfIssues(parse);
    }

    /** #updatePerfIssues */
    method UpdatePerfIssues(parse: Parser)
      modifies this
      ensures parsedTrace == old(parsedTrace)
      ensures perfIssues == AggregatedIssues(parsedTrace, parse)
    {
      perfIssues := [];
      if parsedTrace.None? {
        return;
      }
      var trace := parsedTrace.value;
      var start := trace.traceStartMs;
      var groups: seq<Group> := [];
      for i := 0 to |trace.entries|
        invariant groups == Grouped(trace.entries[..i], parse, start)
      {
        assert trace.entries[..i + 1][..i] == trace.entries[..i];
        var entry := trace.entries[i];
        var detail := QualifyingDetail(entry, parse);
        if detail.None? {
          continue;
        }
        groups := AddToGroups(groups, detail.value, IssueEvent(entry, start));
      }
      assert trace.entries[..|trace.entries|] == trace.entries;
      var issues: seq<AggregatedPerfIssue> := [];
      for j := 0 to |groups|
        invariant issues == IssuesOf(groups[..j])
      {
        issues := issues + [ToIssue(groups[j])];
      }
      assert groups[..|groups|] == groups;
      perfIssues := SortIssues(issues);
    }
  }
}
