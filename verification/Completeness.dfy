/**
 The verdict on a context and the diagnostics that explain it. The facts are read from one project
 revision; the assessor turns them into flags, one verdict and a sorted list of issues.
 */
module Completeness {
  import opened Prelude
  import opened Ordering

  datatype Freshness = Fresh | Stale | Unavailable

  datatype Status = Draft | Planned | ReadyToWork | Claimed | InProgress | Blocked | Completed | Cancelled | Unknown

  datatype Project = Project(id: string, key: string, revision: nat)

  datatype Source = Source(id: string, domain: string, locator: string, freshness: Freshness, minimal: bool)

  datatype Work = Work(
    project: string, revision: nat, key: string, source: Source,
    acceptance: seq<string>, status: Status, nextAction: string, blocker: Option<string>)

  datatype Gap = Gap(key: string, reasons: seq<string>)

  datatype Hard = Hard(project: string, revision: nat, work: string, branch: Option<string>, unresolved: seq<Gap>)

  datatype Dependency = Dependency(
    key: string, source: string, freshness: Freshness, status: Status, nextAction: string, blocker: Option<string>)

  /** `unavailable` and `edges` hold edge ids and the sources of edges. */
  datatype Related = Related(
    project: string, revision: nat, work: string, branch: Option<string>,
    unavailable: seq<string>, missing: seq<string>, cycles: seq<string>,
    unresolved: seq<Dependency>, resolved: seq<Dependency>, edges: seq<string>, uncertain: seq<Gap>)

  datatype Problem = Problem(mapping: string, locator: Option<string>, code: string, message: string)

  datatype Refresh = Refresh(project: string, revision: nat, ok: bool, pending: nat, issues: seq<Problem>)

  datatype Facts = Facts(
    project: Project, branch: Option<string>, key: string, work: Option<Work>,
    hard: Option<Hard>, related: Option<Related>, sources: seq<Source>, refresh: Option<Refresh>)

  /** The report field a diagnostic is about. */
  datatype Field = OfSources | OfWork | OfWorkState | OfAcceptance | OfRules | OfDependencies | OfDecisions

  datatype Code =
    | RefreshMissing | RefreshFailed | ProjectionPending | SourceNotFresh | WorkNotFound | AcceptanceMissing
    | StateIncomplete | RulesMissing | RuleUnresolved | DependencyUnavailable | DependencyMissing | DependencyCycle
    | DependencyUndescribed | DependencySourceNotFresh | DecisionUnresolved | DecisionSourceNotFresh | WorkstreamInactive

  /** `reason` is empty for the codes that always carry the same sentence. */
  datatype Issue = Issue(field: Field, code: Code, reference: string, reason: string)

  datatype Report = Report(
    sourceFresh: bool, workFound: bool, workState: bool, acceptance: bool, rules: bool,
    dependencies: bool, decisions: bool, unresolved: seq<string>, issues: seq<Issue>, complete: bool)

  datatype Refusal = ForeignRefresh | RevisionConflict(expected: nat, actual: nat) | DifferentSubject

  datatype Outcome = Assessed(report: Report) | Refused(refusal: Refusal)

  // ---------------------------------------------------------------- order

  function FieldName(f: Field): string {
    match f
    case OfSources => "source_fresh"
    case OfWork => "work_item_found"
    case OfWorkState => "work_state_complete"
    case OfAcceptance => "acceptance_complete"
    case OfRules => "rules_complete"
    case OfDependencies => "dependencies_complete"
    case OfDecisions => "decision_context_complete"
  }

  function CodeName(c: Code): string {
    match c
    case RefreshMissing => "source_refresh_missing"
    case RefreshFailed => "source_refresh_failed"
    case ProjectionPending => "source_projection_pending"
    case SourceNotFresh => "source_not_fresh"
    case WorkNotFound => "work_item_not_found"
    case AcceptanceMissing => "acceptance_missing_or_stale"
    case StateIncomplete => "work_state_incomplete"
    case RulesMissing => "rules_source_missing"
    case RuleUnresolved => "hard_rule_unresolved"
    case DependencyUnavailable => "required_dependency_unavailable"
    case DependencyMissing => "required_dependency_missing"
    case DependencyCycle => "dependency_cycle"
    case DependencyUndescribed => "required_dependency_state_incomplete"
    case DependencySourceNotFresh => "dependency_source_not_fresh"
    case DecisionUnresolved => "decision_unresolved"
    case DecisionSourceNotFresh => "decision_source_not_fresh"
    case WorkstreamInactive => "workstream_inactive"
  }

  /** Issues are ordered by the names of field and code, then reference and reason. */
  predicate IssueBefore(a: Issue, b: Issue) {
    || Before(FieldName(a.field), FieldName(b.field))
    || (a.field == b.field && Before(CodeName(a.code), CodeName(b.code)))
    || (a.field == b.field && a.code == b.code && Before(a.reference, b.reference))
    || (a.field == b.field && a.code == b.code && a.reference == b.reference && Before(a.reason, b.reason))
  }

  /** Length, first and fifth letter tell the names apart. */
  function Mark(name: string): (nat, char, char)
    requires |name| > 4
  {
    (|name|, name[0], name[4])
  }

  function CodeMark(c: Code): (nat, char, char) {
    match c
    case RefreshMissing => (22, 's', 'c')
    case RefreshFailed => (21, 's', 'c')
    case ProjectionPending => (25, 's', 'c')
    case SourceNotFresh => (16, 's', 'c')
    case WorkNotFound => (19, 'w', '_')
    case AcceptanceMissing => (27, 'a', 'p')
    case StateIncomplete => (21, 'w', '_')
    case RulesMissing => (20, 'r', 's')
    case RuleUnresolved => (20, 'h', '_')
    case DependencyUnavailable => (31, 'r', 'i')
    case DependencyMissing => (27, 'r', 'i')
    case DependencyCycle => (16, 'd', 'n')
    case DependencyUndescribed => (36, 'r', 'i')
    case DependencySourceNotFresh => (27, 'd', 'n')
    case DecisionUnresolved => (19, 'd', 's')
    case DecisionSourceNotFresh => (25, 'd', 's')
    case WorkstreamInactive => (19, 'w', 's')
  }

  lemma CodeMarked(c: Code)
    ensures |CodeName(c)| > 4 && Mark(CodeName(c)) == CodeMark(c)
  {
    match c
    case RefreshMissing =>
    case RefreshFailed =>
    case ProjectionPending =>
    case SourceNotFresh =>
    case WorkNotFound =>
    case AcceptanceMissing =>
    case StateIncomplete =>
    case RulesMissing =>
    case RuleUnresolved =>
    case DependencyUnavailable =>
    case DependencyMissing =>
    case DependencyCycle =>
    case DependencyUndescribed =>
    case DependencySourceNotFresh =>
    case DecisionUnresolved =>
    case DecisionSourceNotFresh =>
    case WorkstreamInactive =>
  }

  lemma CodeNamesDiffer(a: Code, b: Code)
    ensures CodeName(a) == CodeName(b) ==> a == b
  {
    CodeMarked(a);
    CodeMarked(b);
    if CodeName(a) == CodeName(b) {
    }
  }

  lemma IssuesTotal()
    ensures Total(IssueBefore)
  {
    forall a: Issue, b: Issue
      ensures (a == b || IssueBefore(a, b) || IssueBefore(b, a)) && !(IssueBefore(a, b) && IssueBefore(b, a))
    {
      IssuesComparable(a, b);
    }
    forall a, b, c | IssueBefore(a, b) && IssueBefore(b, c)
      ensures IssueBefore(a, c)
    {
      IssuesTransitive(a, b, c);
    }
  }

  lemma IssuesComparable(a: Issue, b: Issue)
    ensures (a == b || IssueBefore(a, b) || IssueBefore(b, a)) && !(IssueBefore(a, b) && IssueBefore(b, a))
  {
    BeforeTotal(FieldName(a.field), FieldName(b.field));
    BeforeTotal(CodeName(a.code), CodeName(b.code));
    BeforeTotal(a.reference, b.reference);
    BeforeTotal(a.reason, b.reason);
    CodeNamesDiffer(a.code, b.code);
  }

  lemma IssuesTransitive(a: Issue, b: Issue, c: Issue)
    requires IssueBefore(a, b) && IssueBefore(b, c)
    ensures IssueBefore(a, c)
  {
    if Before(FieldName(a.field), FieldName(b.field)) && Before(FieldName(b.field), FieldName(c.field)) {
      BeforeTransitive(FieldName(a.field), FieldName(b.field), FieldName(c.field));
    } else if a.field == b.field == c.field {
      if Before(CodeName(a.code), CodeName(b.code)) && Before(CodeName(b.code), CodeName(c.code)) {
        BeforeTransitive(CodeName(a.code), CodeName(b.code), CodeName(c.code));
      } else if a.code == b.code == c.code {
        if Before(a.reference, b.reference) && Before(b.reference, c.reference) {
          BeforeTransitive(a.reference, b.reference, c.reference);
        } else if a.reference == b.reference == c.reference {
          BeforeTransitive(a.reason, b.reason, c.reason);
        }
      }
    }
  }

  // ---------------------------------------------------------------- text

  /** Unicode white space. */
  predicate IsSpace(c: char) {
    || '\U{9}' <= c <= '\U{D}' || c == ' ' || c == '\U{85}' || c == '\U{A0}' || c == '\U{1680}'
    || '\U{2000}' <= c <= '\U{200A}' || c == '\U{2028}' || c == '\U{2029}' || c == '\U{202F}'
    || c == '\U{205F}' || c == '\U{3000}'
  }

  predicate Blank(s: string) {
    forall c <- s :: IsSpace(c)
  }

  /** The part of a mapping before its first bar. */
  function DomainOf(mapping: string): string {
    if mapping == [] || mapping[0] == '|' then [] else [mapping[0]] + DomainOf(mapping[1..])
  }

  function FreshnessName(f: Freshness): string {
    match f
    case Fresh => "Fresh"
    case Stale => "Stale"
    case Unavailable => "Unavailable"
  }

  function Joined(reasons: seq<string>): string {
    if reasons == [] then "" else if |reasons| == 1 then reasons[0] else reasons[0] + "; " + Joined(reasons[1..])
  }

  // ---------------------------------------------------------------- what the facts say

  predicate DomainFailed(f: Facts, domain: string) {
    f.refresh.Some? && exists p <- f.refresh.value.issues :: DomainOf(p.mapping) == domain
  }

  predicate SourceFresh(f: Facts) {
    && f.refresh.Some? && f.refresh.value.ok && f.refresh.value.pending == 0
    && forall s <- f.sources :: s.freshness.Fresh?
  }

  predicate WorkFresh(f: Facts, w: Work) {
    !DomainFailed(f, w.source.domain) && w.source.freshness.Fresh?
  }

  predicate AcceptanceComplete(f: Facts) {
    f.work.Some? && WorkFresh(f, f.work.value) && f.work.value.acceptance != [] && forall a <- f.work.value.acceptance :: !Blank(a)
  }

  predicate Described(status: Status, nextAction: string, blocker: Option<string>) {
    !status.Unknown? && !Blank(nextAction) && (status.Blocked? ==> blocker.Some? && !Blank(blocker.value))
  }

  predicate WorkStateComplete(f: Facts) {
    f.work.Some? && WorkFresh(f, f.work.value) && Described(f.work.value.status, f.work.value.nextAction, f.work.value.blocker)
  }

  predicate Minimal(f: Facts) {
    f.sources != [] && forall s <- f.sources :: s.minimal
  }

  predicate RulesDefined(f: Facts) {
    (exists s <- f.sources :: s.domain == "rules") || Minimal(f)
  }

  predicate RulesComplete(f: Facts) {
    && f.hard.Some? && f.hard.value.unresolved == [] && RulesDefined(f) && !DomainFailed(f, "rules")
    && forall s <- f.sources :: s.domain == "rules" ==> s.freshness.Fresh?
  }

  predicate Known(d: Dependency) {
    d.freshness.Fresh? && Described(d.status, d.nextAction, d.blocker)
  }

  /** The authorities of the work, its required edges and its dependencies. */
  function Sources(ds: seq<Dependency>): seq<string> {
    seq(|ds|, i requires 0 <= i < |ds| => ds[i].source)
  }

  function DependencySources(f: Facts, r: Related): seq<string> {
    SortUnique((if f.work.Some? then [f.work.value.source.id] else []) + r.edges + Sources(r.resolved) + Sources(r.unresolved), Before)
  }

  predicate Authoritative(f: Facts, id: string) {
    exists s <- f.sources :: s.id == id && s.freshness.Fresh? && !DomainFailed(f, s.domain)
  }

  predicate DependenciesComplete(f: Facts) {
    f.related.Some? &&
    var r := f.related.value;
    && r.unavailable == [] && r.missing == [] && r.cycles == []
    && (forall d <- r.unresolved :: Known(d)) && forall id <- DependencySources(f, r) :: Authoritative(f, id)
  }

  predicate DecisionsFresh(f: Facts) {
    !DomainFailed(f, "decisions") && forall s <- f.sources :: s.domain == "decisions" ==> s.freshness.Fresh?
  }

  predicate DecisionsComplete(f: Facts) {
    f.related.Some? && f.related.value.uncertain == [] && DecisionsFresh(f)
  }

  // ---------------------------------------------------------------- the diagnostics

  function ProblemIssues(ps: seq<Problem>): (r: seq<Issue>)
    ensures r == [] <==> ps == []
  {
    if ps == [] then []
    else
      var p := ps[|ps| - 1];
      ProblemIssues(ps[..|ps| - 1]) + [Issue(OfSources, RefreshFailed,
        if p.locator.Some? then p.locator.value else p.mapping, p.code + ": " + p.message)]
  }

  function RefreshIssues(f: Facts): seq<Issue> {
    if f.refresh.None? then
      [Issue(OfSources, RefreshMissing, f.project.key, "")]
    else
      var r := f.refresh.value;
      ProblemIssues(r.issues)
      + (if r.pending > 0 then
           [Issue(OfSources, ProjectionPending, f.project.key, Decimal(r.pending) + " sources await projection")]
         else [])
      + (if !r.ok && r.issues == [] then
           [Issue(OfSources, RefreshFailed, f.project.key, "")]
         else [])
  }

  function StaleIssues(ss: seq<Source>): (r: seq<Issue>)
    ensures r == [] <==> forall s <- ss :: s.freshness.Fresh?
  {
    if ss == [] then []
    else
      var s := ss[|ss| - 1];
      assert forall x <- ss :: x in ss[..|ss| - 1] || x == s;
      StaleIssues(ss[..|ss| - 1])
      + (if s.freshness.Fresh? then []
         else [Issue(OfSources, SourceNotFresh, s.id, s.locator + " is " + FreshnessName(s.freshness))])
  }

  function NotFound(f: Facts): Issue {
    Issue(OfWork, WorkNotFound, f.key, "")
  }

  function NoAcceptance(f: Facts): Issue {
    Issue(OfAcceptance, AcceptanceMissing, f.key,
      "")
  }

  function NoState(f: Facts): Issue {
    Issue(OfWorkState, StateIncomplete, f.key,
      "")
  }

  function Unless(holds: bool, issue: Issue): (r: seq<Issue>)
    ensures (r == [] <==> holds) && (issue in r <==> !holds)
    ensures forall x <- r :: x == issue
  {
    if holds then [] else [issue]
  }

  function WorkIssues(f: Facts): (r: seq<Issue>)
    ensures r == [] <==> f.work.Some? && AcceptanceComplete(f) && WorkStateComplete(f)
  {
    if f.work.None? then [NotFound(f)]
    else Unless(AcceptanceComplete(f), NoAcceptance(f)) + Unless(WorkStateComplete(f), NoState(f))
  }

  function GapIssues(field: Field, code: Code, gaps: seq<Gap>): (r: seq<Issue>)
    ensures r == [] <==> gaps == []
  {
    if gaps == [] then []
    else
      var g := gaps[|gaps| - 1];
      GapIssues(field, code, gaps[..|gaps| - 1]) + [Issue(field, code, g.key, Joined(g.reasons))]
  }

  function RuleIssues(f: Facts): seq<Issue> {
    (if RulesDefined(f) then []
     else [Issue(OfRules, RulesMissing, f.project.key, "")])
    + (if f.hard.Some? then GapIssues(OfRules, RuleUnresolved, f.hard.value.unresolved) else [])
  }

  function Each(code: Code, prefix: string, keys: seq<string>): (r: seq<Issue>)
    ensures r == [] <==> keys == []
  {
    if keys == [] then []
    else Each(code, prefix, keys[..|keys| - 1])
         + [Issue(OfDependencies, code, prefix + keys[|keys| - 1], "")]
  }

  function UnknownIssues(ds: seq<Dependency>): (r: seq<Issue>)
    ensures r == [] <==> forall d <- ds :: Known(d)
  {
    if ds == [] then []
    else
      var d := ds[|ds| - 1];
      assert forall x <- ds :: x in ds[..|ds| - 1] || x == d;
      UnknownIssues(ds[..|ds| - 1])
      + (if Known(d) then []
         else [Issue(OfDependencies, DependencyUndescribed, d.key, "")])
  }

  function AuthorityIssues(f: Facts, ids: seq<string>): (r: seq<Issue>)
    ensures r == [] <==> forall id <- ids :: Authoritative(f, id)
    decreases |ids|
  {
    if ids == [] then []
    else
      var id := ids[|ids| - 1];
      assert forall x <- ids :: x in ids[..|ids| - 1] || x == id;
      AuthorityIssues(f, ids[..|ids| - 1])
      + (if Authoritative(f, id) then []
         else [Issue(OfDependencies, DependencySourceNotFresh, id, "")])
  }

  function DependencyIssues(f: Facts, r: Related): seq<Issue> {
    Each(DependencyUnavailable, "dependency:", r.unavailable)
    + Each(DependencyMissing, "", r.missing)
    + Each(DependencyCycle, "", r.cycles)
    + UnknownIssues(r.unresolved) + AuthorityIssues(f, DependencySources(f, r))
  }

  function DecisionIssues(f: Facts): seq<Issue> {
    if DecisionsFresh(f) then []
    else [Issue(OfDecisions, DecisionSourceNotFresh, f.project.key,
                "")]
  }

  function RelatedIssues(f: Facts): seq<Issue> {
    if f.related.None? then []
    else DependencyIssues(f, f.related.value)
         + GapIssues(OfDecisions, DecisionUnresolved, f.related.value.uncertain)
  }

  /** Every diagnostic, in the order it is pushed. */
  function Pushed(f: Facts): seq<Issue> {
    RefreshIssues(f) + StaleIssues(f.sources) + WorkIssues(f) + RuleIssues(f) + RelatedIssues(f) + DecisionIssues(f)
  }

  function Prefixed(prefix: string, keys: seq<string>): seq<string> {
    seq(|keys|, i requires 0 <= i < |keys| => prefix + keys[i])
  }

  function Keys(ds: seq<Dependency>): seq<string> {
    seq(|ds|, i requires 0 <= i < |ds| => ds[i].key)
  }

  function Unresolved(f: Facts): seq<string> {
    if f.related.None? then [] else Prefixed("dependency:", f.related.value.unavailable) + Keys(f.related.value.unresolved)
  }

  // ---------------------------------------------------------------- the assessment

  /** Facts that do not belong to this project, revision, work and branch are refused. */
  function Mismatch(f: Facts): Option<Refusal> {
    var p := f.project;
    if f.refresh.Some? && f.refresh.value.project != p.id then Some(ForeignRefresh)
    else if f.refresh.Some? && f.refresh.value.revision != p.revision then Some(RevisionConflict(f.refresh.value.revision, p.revision))
    else if f.work.Some? && f.work.value.revision != p.revision then Some(RevisionConflict(p.revision, f.work.value.revision))
    else if f.hard.Some? && f.hard.value.revision != p.revision then Some(RevisionConflict(p.revision, f.hard.value.revision))
    else if f.related.Some? && f.related.value.revision != p.revision then Some(RevisionConflict(p.revision, f.related.value.revision))
    else if (f.work.Some? && (f.work.value.project != p.id || f.work.value.key != f.key))
         || (f.hard.Some? && (f.hard.value.project != p.id || f.hard.value.work != f.key || f.hard.value.branch != f.branch))
         || (f.related.Some? && (f.related.value.project != p.id || f.related.value.work != f.key || f.related.value.branch != f.branch))
    then Some(DifferentSubject)
    else None
  }

  predicate Complete(f: Facts) {
    && SourceFresh(f) && f.work.Some? && WorkStateComplete(f) && AcceptanceComplete(f)
    && RulesComplete(f) && DependenciesComplete(f) && DecisionsComplete(f)
  }

  function Assessment(f: Facts): Outcome {
    if Mismatch(f).Some? then Refused(Mismatch(f).value)
    else Assessed(Report(
      SourceFresh(f), f.work.Some?, WorkStateComplete(f), AcceptanceComplete(f), RulesComplete(f),
      DependenciesComplete(f), DecisionsComplete(f), SortUnique(Unresolved(f), Before),
      SortUnique(Pushed(f), IssueBefore), Complete(f)))
  }

  // ---------------------------------------------------------------- the verdict and the diagnostics

  /** The final list is ascending without repeats and holds exactly what was pushed. */
  lemma IssuesAreSorted(f: Facts)
    requires Assessment(f).Assessed?
    ensures var issues := Assessment(f).report.issues;
      Ascending(issues, IssueBefore) && (forall x :: x in issues <==> x in Pushed(f)) && (issues == [] <==> Pushed(f) == [])
  {
    IssuesTotal();
    SortUniqueSorts(Pushed(f), IssueBefore);
    var issues := Assessment(f).report.issues;
    assert issues != [] ==> issues[0] in Pushed(f);
    assert Pushed(f) != [] ==> Pushed(f)[0] in issues;
  }

  /** What the indexer and the reader guarantee: rule and dependency facts exist with the work; a good refresh has no problems. */
  predicate Coupled(f: Facts) {
    && (f.hard.Some? <==> f.work.Some?) && (f.related.Some? <==> f.work.Some?)
    && (f.refresh.Some? && f.refresh.value.ok ==> f.refresh.value.issues == [])
  }

  lemma NoIssuesMeansComplete(f: Facts)
    requires Pushed(f) == [] && f.hard.Some? && f.related.Some?
    ensures Complete(f)
  {
  }

  /** The verdict is `complete` exactly when there is nothing to report. */
  lemma VerdictAgreesWithIssues(f: Facts)
    requires Assessment(f).Assessed? && Coupled(f)
    ensures Assessment(f).report.complete <==> Assessment(f).report.issues == []
  {
    VerdictGap(f);
    IssuesAreSorted(f);
    if Pushed(f) == [] {
    }
  }

  /**
   Without the coupling, for all facts: a complete context reports something exactly when its refresh,
   though good, lists problems; a silent report is incomplete exactly when rule or dependency facts are absent.
   */
  lemma VerdictGap(f: Facts)
    requires Assessment(f).Assessed?
    ensures var r := Assessment(f).report;
      && (r.complete ==> (r.issues == [] <==> f.refresh.value.issues == []))
      && (r.issues == [] ==> (r.complete <==> f.hard.Some? && f.related.Some?))
  {
    IssuesAreSorted(f);
    PushedGap(f);
  }

  lemma PushedGap(f: Facts)
    ensures Complete(f) ==> (Pushed(f) == [] <==> f.refresh.value.issues == [])
    ensures Pushed(f) == [] ==> (Complete(f) <==> f.hard.Some? && f.related.Some?)
  {
    if Complete(f) {
      assert f.hard.Some? && f.related.Some?;
    } else if Pushed(f) == [] && f.hard.Some? && f.related.Some? {
      NoIssuesMeansComplete(f);
    }
  }

  // ---------------------------------------------------------------- field by field

  lemma {:induction false} ProblemFields(ps: seq<Problem>)
    ensures forall x <- ProblemIssues(ps) :: x.field == OfSources
  {
    if ps != [] {
      ProblemFields(ps[..|ps| - 1]);
    }
  }

  lemma {:induction false} StaleFields(ss: seq<Source>)
    ensures forall x <- StaleIssues(ss) :: x.field == OfSources
  {
    if ss != [] {
      StaleFields(ss[..|ss| - 1]);
    }
  }

  /** A source field that is not set has its reason first in what is pushed, and only then is there one. */
  lemma SourceFieldAgrees(f: Facts)
    requires f.refresh.Some? && f.refresh.value.ok ==> f.refresh.value.issues == []
    ensures SourceFresh(f) <==> RefreshIssues(f) + StaleIssues(f.sources) == []
    ensures !SourceFresh(f) ==> (RefreshIssues(f) + StaleIssues(f.sources))[0].field == OfSources
  {
    if RefreshIssues(f) == [] {
      if StaleIssues(f.sources) == [] {
      } else {
        StaleFields(f.sources);
        assert StaleIssues(f.sources)[0] in StaleIssues(f.sources);
      }
    } else {
      RefreshFields(f);
      assert RefreshIssues(f)[0] in RefreshIssues(f);
    }
  }

  lemma RefreshFields(f: Facts)
    ensures forall x <- RefreshIssues(f) :: x.field == OfSources
  {
    if f.refresh.Some? {
      ProblemFields(f.refresh.value.issues);
    }
  }

  lemma WorkFieldsAgree(f: Facts)
    requires f.work.Some?
    ensures !AcceptanceComplete(f) <==> NoAcceptance(f) in WorkIssues(f)
    ensures !WorkStateComplete(f) <==> NoState(f) in WorkIssues(f)
  {
    assert NoAcceptance(f) != NoState(f);
  }

  lemma DependencyFieldAgrees(f: Facts)
    requires f.related.Some?
    ensures !DependenciesComplete(f) <==> DependencyIssues(f, f.related.value) != []
  {
    var r := f.related.value;
  }

  lemma DecisionFieldAgrees(f: Facts)
    requires f.related.Some?
    ensures !DecisionsComplete(f) <==>
      GapIssues(OfDecisions, DecisionUnresolved, f.related.value.uncertain) + DecisionIssues(f) != []
  {
  }

  /** Rules can be incomplete with no rule diagnostic: then their sources were not refreshed, which is reported there. */
  lemma RuleFieldAgrees(f: Facts)
    requires f.hard.Some?
    ensures RulesComplete(f)
       <==> RuleIssues(f) == [] && !DomainFailed(f, "rules") && forall s <- f.sources :: s.domain == "rules" ==> s.freshness.Fresh?
    ensures !RulesComplete(f) ==> RuleIssues(f) + RefreshIssues(f) + StaleIssues(f.sources) != []
  {
    if !RulesComplete(f) && RuleIssues(f) == [] && StaleIssues(f.sources) == [] {
      assert f.refresh.value.issues != [];
      assert ProblemIssues(f.refresh.value.issues) != [];
    }
  }

  // ---------------------------------------------------------------- inspecting a work item

  /** The extra diagnostic of a work item whose workstream is not active. */
  function InactiveIssue(key: string): Issue {
    Issue(OfWorkState, WorkstreamInactive, key, "")
  }

  /** Rule and dependency facts are read only for a work item that was found. */
  function FactsRead(project: Project, branch: Option<string>, key: string, work: Option<Work>, hard: Hard, related: Related,
                     sources: seq<Source>, refresh: Option<Refresh>): Facts {
    Facts(project, branch, key, work, if work.Some? then Some(hard) else None, if work.Some? then Some(related) else None, sources, refresh)
  }

  /** `inactive`: the work item's workstream is paused or archived. The issue is appended after the others were sorted. */
  function Inspection(f: Facts, inactive: bool): Outcome {
    var o := Assessment(f);
    if o.Refused? || !inactive then o
    else Assessed(o.report.(workState := false, complete := false, issues := o.report.issues + [InactiveIssue(f.key)]))
  }

  /** Not about the work item itself. */
  predicate Low(x: Issue) {
    x.field != OfWork && x.field != OfWorkState
  }

  lemma {:induction false} ProblemsLow(ps: seq<Problem>)
    ensures forall x <- ProblemIssues(ps) :: Low(x)
  {
    if ps != [] {
      ProblemsLow(ps[..|ps| - 1]);
    }
  }

  lemma {:induction false} GapsLow(field: Field, code: Code, gaps: seq<Gap>)
    requires field != OfWork && field != OfWorkState
    ensures forall x <- GapIssues(field, code, gaps) :: Low(x)
  {
    if gaps != [] {
      GapsLow(field, code, gaps[..|gaps| - 1]);
    }
  }

  lemma {:induction false} EachLow(code: Code, prefix: string, keys: seq<string>)
    ensures forall x <- Each(code, prefix, keys) :: Low(x)
  {
    if keys != [] {
      EachLow(code, prefix, keys[..|keys| - 1]);
    }
  }

  lemma {:induction false} UnknownLow(ds: seq<Dependency>)
    ensures forall x <- UnknownIssues(ds) :: Low(x)
  {
    if ds != [] {
      UnknownLow(ds[..|ds| - 1]);
    }
  }

  lemma {:induction false} AuthorityLow(f: Facts, ids: seq<string>)
    ensures forall x <- AuthorityIssues(f, ids) :: Low(x)
    decreases |ids|
  {
    if ids != [] {
      AuthorityLow(f, ids[..|ids| - 1]);
    }
  }

  lemma RelatedLow(f: Facts)
    ensures forall x <- RelatedIssues(f) :: Low(x)
  {
    if f.related.Some? {
      var r := f.related.value;
      EachLow(DependencyUnavailable, "dependency:", r.unavailable);
      EachLow(DependencyMissing, "", r.missing);
      EachLow(DependencyCycle, "", r.cycles);
      UnknownLow(r.unresolved);
      AuthorityLow(f, DependencySources(f, r));
      GapsLow(OfDecisions, DecisionUnresolved, r.uncertain);
    }
  }

  lemma RefreshLow(f: Facts)
    ensures forall x <- RefreshIssues(f) + StaleIssues(f.sources) :: Low(x)
  {
    RefreshFields(f);
    StaleFields(f.sources);
  }

  lemma RulesLow(f: Facts)
    ensures forall x <- RuleIssues(f) + DecisionIssues(f) :: Low(x)
  {
    if f.hard.Some? {
      GapsLow(OfRules, RuleUnresolved, f.hard.value.unresolved);
    }
  }

  lemma FieldsBeforeState(f: Field)
    requires f != OfWorkState
    ensures Before(FieldName(f), FieldName(OfWorkState))
  {
    if f.OfWork? {
      FirstDifference(FieldName(f), FieldName(OfWorkState), 5);
    } else {
      assert FieldName(f)[0] < FieldName(OfWorkState)[0];
    }
  }

  lemma IncompleteBeforeInactive()
    ensures Before(CodeName(StateIncomplete), CodeName(WorkstreamInactive))
  {
    FirstDifference(CodeName(StateIncomplete), CodeName(WorkstreamInactive), 4);
  }

  lemma WorkIssuesFirst(f: Facts, x: Issue, key: string)
    requires x in WorkIssues(f)
    ensures IssueBefore(x, InactiveIssue(key))
  {
    if x == NoState(f) {
      IncompleteBeforeInactive();
    } else {
      FieldsBeforeState(x.field);
    }
  }

  /** The appended issue comes after every other one in the order of the sort, so the list stays sorted. */
  lemma InactiveIsLast(f: Facts, x: Issue)
    requires x in Pushed(f)
    ensures IssueBefore(x, InactiveIssue(f.key))
  {
    RefreshLow(f);
    RulesLow(f);
    RelatedLow(f);
    if x in WorkIssues(f) {
      WorkIssuesFirst(f, x, f.key);
    } else {
      assert Low(x);
      FieldsBeforeState(x.field);
    }
  }

  lemma AppendAscending(issues: seq<Issue>, last: Issue)
    requires Ascending(issues, IssueBefore) && forall x <- issues :: IssueBefore(x, last)
    ensures Ascending(issues + [last], IssueBefore)
  {
  }

  lemma InspectionIsSorted(f: Facts, inactive: bool)
    requires Inspection(f, inactive).Assessed?
    ensures Ascending(Inspection(f, inactive).report.issues, IssueBefore)
  {
    IssuesAreSorted(f);
    var issues := Assessment(f).report.issues;
    if inactive {
      forall x | x in issues
        ensures IssueBefore(x, InactiveIssue(f.key))
      {
        InactiveIsLast(f, x);
      }
      AppendAscending(issues, InactiveIssue(f.key));
    }
  }

  /** For facts as they are read, and a refresh report as the indexer writes it, verdict and issues agree. */
  lemma InspectionAgrees(project: Project, branch: Option<string>, key: string, work: Option<Work>, hard: Hard, related: Related,
                         sources: seq<Source>, refresh: Option<Refresh>, inactive: bool)
    requires refresh.Some? && refresh.value.ok ==> refresh.value.issues == []
    requires var f := FactsRead(project, branch, key, work, hard, related, sources, refresh); Inspection(f, inactive).Assessed?
    ensures var r := Inspection(FactsRead(project, branch, key, work, hard, related, sources, refresh), inactive).report;
      r.complete <==> r.issues == []
  {
    VerdictAgreesWithIssues(FactsRead(project, branch, key, work, hard, related, sources, refresh));
  }

  // ---------------------------------------------------------------- both parts of the coupling are needed

  /** Facts with nothing missing. */
  function Sample(hard: Option<Hard>, problems: seq<Problem>): Facts {
    var source := Source("s", "rules", "rules.md", Fresh, false);
    Facts(Project("p", "p", 0), None, "w", Some(Work("p", 0, "w", source, ["a"], Planned, "n", None)), hard,
          Some(Related("p", 0, "w", None, [], [], [], [], [], [], [])), [source], Some(Refresh("p", 0, true, 0, problems)))
  }

  lemma SampleParts(hard: Option<Hard>, problems: seq<Problem>)
    requires forall p <- problems :: DomainOf(p.mapping) != "rules" && DomainOf(p.mapping) != "decisions"
    ensures var f := Sample(hard, problems);
      SourceFresh(f) && AcceptanceComplete(f) && WorkStateComplete(f) && DependenciesComplete(f) && DecisionsComplete(f)
  {
    var f := Sample(hard, problems);
    var source := Source("s", "rules", "rules.md", Fresh, false);
    assert source in f.sources;
    assert 'a' in "a" && 'n' in "n" && !Blank("a") && !Blank("n");
    assert SortUnique(["s"], Before) == ["s"] by {
      assert ["s"][1..] == [];
    }
    assert Sources([]) == [];
    assert DependencySources(f, f.related.value) == ["s"] by {
      assert ["s"] + [] + Sources([]) + Sources([]) == ["s"];
    }
  }

  /** A good refresh that lists a problem: complete, and yet something is reported. */
  lemma CompleteWithIssues(p: Problem)
    requires DomainOf(p.mapping) != "rules" && DomainOf(p.mapping) != "decisions"
    ensures var o := Assessment(Sample(Some(Hard("p", 0, "w", None, [])), [p]));
      o.Assessed? && o.report.complete && o.report.issues != []
  {
    var f := Sample(Some(Hard("p", 0, "w", None, [])), [p]);
    SampleParts(f.hard, [p]);
    assert f.sources[0].domain == "rules";
    VerdictGap(f);
  }

  /** No rule facts for a work item that exists: incomplete, and yet nothing is reported. */
  lemma IncompleteWithoutIssues()
    ensures var o := Assessment(Sample(None, []));
      o.Assessed? && !o.report.complete && o.report.issues == []
  {
    var f := Sample(None, []);
    SampleParts(None, []);
    assert f.sources[0].domain == "rules";
    OnlyFresh(f.sources);
    assert Pushed(f) == [];
  }

  lemma OnlyFresh(ss: seq<Source>)
    requires forall s <- ss :: s.freshness.Fresh?
    ensures StaleIssues(ss) == []
  {
  }

  // ---------------------------------------------------------------- the assessor

  method AssessRefresh(f: Facts) returns (issues: seq<Issue>, current: bool)
    ensures issues == RefreshIssues(f) + StaleIssues(f.sources) && current == SourceFresh(f)
  {
    issues := [];
    current := f.refresh.Some?;
    if f.refresh.None? {
      issues := [Issue(OfSources, RefreshMissing, f.project.key, "")];
    } else {
      var r := f.refresh.value;
      current := r.ok && r.pending == 0;
      for i := 0 to |r.issues|
        invariant issues == ProblemIssues(r.issues[..i])
      {
        var p := r.issues[i];
        issues := issues + [Issue(OfSources, RefreshFailed,
          if p.locator.Some? then p.locator.value else p.mapping, p.code + ": " + p.message)];
        assert r.issues[..i + 1][..i] == r.issues[..i];
      }
      assert r.issues[..|r.issues|] == r.issues;
      if r.pending > 0 {
        issues := issues + [Issue(OfSources, ProjectionPending, f.project.key, Decimal(r.pending) + " sources await projection")];
      }
      if !r.ok && r.issues == [] {
        issues := issues + [Issue(OfSources, RefreshFailed, f.project.key, "")];
      }
    }
    var stale := PushStale(f.sources);
    issues := issues + stale;
    current := current && stale == [];
  }

  method PushStale(sources: seq<Source>) returns (issues: seq<Issue>)
    ensures issues == StaleIssues(sources)
  {
    issues := [];
    for i := 0 to |sources|
      invariant issues == StaleIssues(sources[..i])
    {
      if !sources[i].freshness.Fresh? {
        issues := issues + [Issue(OfSources, SourceNotFresh, sources[i].id,
                                  sources[i].locator + " is " + FreshnessName(sources[i].freshness))];
      }
      assert sources[..i + 1][..i] == sources[..i];
    }
    assert sources[..|sources|] == sources;
  }

  method PushGaps(field: Field, code: Code, gaps: seq<Gap>) returns (issues: seq<Issue>)
    ensures issues == GapIssues(field, code, gaps)
  {
    issues := [];
    for i := 0 to |gaps|
      invariant issues == GapIssues(field, code, gaps[..i])
    {
      issues := issues + [Issue(field, code, gaps[i].key, Joined(gaps[i].reasons))];
      assert gaps[..i + 1][..i] == gaps[..i];
    }
    assert gaps[..|gaps|] == gaps;
  }

  method PushEach(code: Code, prefix: string, keys: seq<string>) returns (issues: seq<Issue>)
    ensures issues == Each(code, prefix, keys)
  {
    issues := [];
    for i := 0 to |keys|
      invariant issues == Each(code, prefix, keys[..i])
    {
      issues := issues + [Issue(OfDependencies, code, prefix + keys[i], "")];
      assert keys[..i + 1][..i] == keys[..i];
    }
    assert keys[..|keys|] == keys;
  }

  /** Every dependency is listed; one that is not fully described is also reported. */
  method PushUnknown(ds: seq<Dependency>) returns (keys: seq<string>, issues: seq<Issue>)
    ensures issues == UnknownIssues(ds) && keys == Keys(ds)
  {
    keys, issues := [], [];
    for i := 0 to |ds|
      invariant issues == UnknownIssues(ds[..i]) && keys == Keys(ds[..i])
    {
      keys := keys + [ds[i].key];
      if !Known(ds[i]) {
        issues := issues + [Issue(OfDependencies, DependencyUndescribed, ds[i].key, "")];
      }
      assert ds[..i + 1][..i] == ds[..i];
    }
    assert ds[..|ds|] == ds;
  }

  method PushAuthorities(f: Facts, ids: seq<string>) returns (issues: seq<Issue>)
    ensures issues == AuthorityIssues(f, ids)
  {
    issues := [];
    for i := 0 to |ids|
      invariant issues == AuthorityIssues(f, ids[..i])
    {
      if !Authoritative(f, ids[i]) {
        issues := issues + [Issue(OfDependencies, DependencySourceNotFresh, ids[i], "")];
      }
      assert ids[..i + 1][..i] == ids[..i];
    }
    assert ids[..|ids|] == ids;
  }

  /** The flag falls with the first diagnostic. */
  method AssessDependencies(f: Facts, r: Related) returns (issues: seq<Issue>, unresolved: seq<string>, complete: bool)
    requires f.related == Some(r)
    ensures issues == DependencyIssues(f, r) && complete == DependenciesComplete(f) && unresolved == Unresolved(f)
  {
    var unavailable := PushEach(DependencyUnavailable, "dependency:", r.unavailable);
    var missing := PushEach(DependencyMissing, "", r.missing);
    var cycles := PushEach(DependencyCycle, "", r.cycles);
    var keys, unknown := PushUnknown(r.unresolved);
    var authorities := PushAuthorities(f, DependencySources(f, r));
    issues := unavailable + missing + cycles + unknown + authorities;
    complete := issues == [];
    unresolved := Prefixed("dependency:", r.unavailable) + keys;
    DependencyFieldAgrees(f);
  }

  method AssessWork(f: Facts) returns (issues: seq<Issue>, acceptance: bool, state: bool)
    ensures issues == WorkIssues(f) && acceptance == AcceptanceComplete(f) && state == WorkStateComplete(f)
  {
    issues, acceptance, state := [], false, false;
    if f.work.None? {
      issues := [NotFound(f)];
    } else {
      var w := f.work.value;
      acceptance := WorkFresh(f, w) && w.acceptance != [] && forall a <- w.acceptance :: !Blank(a);
      issues := Unless(acceptance, NoAcceptance(f));
      state := WorkFresh(f, w) && Described(w.status, w.nextAction, w.blocker);
      issues := issues + Unless(state, NoState(f));
    }
  }

  method AssessRules(f: Facts) returns (issues: seq<Issue>, complete: bool)
    ensures issues == RuleIssues(f) && complete == RulesComplete(f)
  {
    issues := [];
    if !RulesDefined(f) {
      issues := [Issue(OfRules, RulesMissing, f.project.key, "")];
    }
    if f.hard.Some? {
      var unresolved := PushGaps(OfRules, RuleUnresolved, f.hard.value.unresolved);
      issues := issues + unresolved;
    }
    complete := f.hard.Some? && f.hard.value.unresolved == [] && RulesDefined(f) && !DomainFailed(f, "rules")
                && forall s <- f.sources :: s.domain == "rules" ==> s.freshness.Fresh?;
  }

  method AssessRelated(f: Facts) returns (issues: seq<Issue>, unresolved: seq<string>, dependencies: bool, decisions: bool)
    ensures issues == RelatedIssues(f) + DecisionIssues(f) && unresolved == Unresolved(f)
    ensures dependencies == DependenciesComplete(f) && decisions == DecisionsComplete(f)
  {
    issues, unresolved, dependencies, decisions := [], [], false, f.related.Some?;
    if f.related.Some? {
      issues, unresolved, dependencies := AssessDependencies(f, f.related.value);
      var uncertain := PushGaps(OfDecisions, DecisionUnresolved, f.related.value.uncertain);
      issues := issues + uncertain;
      decisions := f.related.value.uncertain == [];
    }
    if !DecisionsFresh(f) {
      decisions := false;
      issues := issues + [Issue(OfDecisions, DecisionSourceNotFresh, f.project.key,
                                "")];
    }
  }

  /** All diagnostics in the order they are pushed, and the flags with the verdict. */
  method Collect(f: Facts) returns (pushed: seq<Issue>, flags: Report)
    ensures pushed == Pushed(f)
    ensures flags == Report(SourceFresh(f), f.work.Some?, WorkStateComplete(f), AcceptanceComplete(f), RulesComplete(f),
                            DependenciesComplete(f), DecisionsComplete(f), Unresolved(f), [], Complete(f))
  {
    var refresh, current := AssessRefresh(f);
    var work, acceptance, state := AssessWork(f);
    var rules, rulesComplete := AssessRules(f);
    var related, unresolved, dependencies, decisions := AssessRelated(f);
    Regroup(RefreshIssues(f), StaleIssues(f.sources), work, rules, RelatedIssues(f), DecisionIssues(f));
    pushed := refresh + work + rules + related;
    var complete := current && f.work.Some? && state && acceptance && rulesComplete && dependencies && decisions;
    flags := Report(current, f.work.Some?, state, acceptance, rulesComplete, dependencies, decisions, unresolved, [], complete);
  }

  method Assess(f: Facts) returns (o: Outcome)
    ensures o == Assessment(f)
  {
    var refusal := Mismatch(f);
    if refusal.Some? {
      return Refused(refusal.value);
    }
    var pushed, r := Collect(f);
    r := r.(unresolved := SortUnique(r.unresolved, Before));
    r := r.(issues := SortUnique(pushed, IssueBefore));
    o := Assessed(r);
  }

  lemma Regroup(a: seq<Issue>, b: seq<Issue>, c: seq<Issue>, d: seq<Issue>, e: seq<Issue>, g: seq<Issue>)
    ensures (a + b) + c + d + (e + g) == a + b + c + d + e + g
  {
  }

  method Inspect(f: Facts, inactive: bool) returns (o: Outcome)
    ensures o == Inspection(f, inactive)
  {
    o := Assess(f);
    if o.Assessed? && inactive {
      var r := o.report;
      r := r.(workState := false);
      r := r.(complete := false);
      r := r.(issues := r.issues + [InactiveIssue(f.key)]);
      o := Assessed(r);
    }
  }
}
