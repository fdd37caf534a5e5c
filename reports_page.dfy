/** The reports page (app/reports/page.tsx): search and filters over the
    report list, and the status and score colours. */
module ReportsPage {
  import opened Collections
  import opened Text

  /** A report; a report still in progress has no score yet. */
  datatype Report = Report(
    id: string,
    title: string,
    kind: string,
    status: string,
    created: string,
    domain: string,
    summary: string,
    score: Option<real>,
    issues: Option<int>,
    recommendations: Option<int>)

  /** The test of `filteredReports` on one report. */
  predicate Matches(r: Report, searchTerm: string, statusFilter: string, typeFilter: string)
  {
    && (IncludesIgnoringCase(r.title, searchTerm) || IncludesIgnoringCase(r.domain, searchTerm))
    && (statusFilter == "all" || r.status == statusFilter)
    && (typeFilter == "all" || Lower(r.kind) == typeFilter)
  }

  function Keeps(searchTerm: string, statusFilter: string, typeFilter: string): Report -> bool
  {
    (r: Report) => Matches(r, searchTerm, statusFilter, typeFilter)
  }

  /** `filteredReports`. */
  function FilterReports(reports: seq<Report>, searchTerm: string, statusFilter: string, typeFilter: string): seq<Report>
  {
    Filter(reports, Keeps(searchTerm, statusFilter, typeFilter))
  }

  /** A report is listed exactly when it matches the search and both
      filters, and the listed reports keep their order. */
  lemma FilterReportsKeeps(reports: seq<Report>, searchTerm: string, statusFilter: string, typeFilter: string)
    ensures var shown := FilterReports(reports, searchTerm, statusFilter, typeFilter);
      && (forall r :: r in shown <==> r in reports && Matches(r, searchTerm, statusFilter, typeFilter))
      && IsSubsequence(shown, reports)
  {
    FilterMembers(reports, Keeps(searchTerm, statusFilter, typeFilter));
    FilterIsSubsequence(reports, Keeps(searchTerm, statusFilter, typeFilter));
  }

  /** With no search and both filters on 'all' every report is listed. */
  lemma NoFilterKeepsAll(reports: seq<Report>)
    ensures FilterReports(reports, "", "all", "all") == reports
  {
    forall k | 0 <= k < |reports|
      ensures Keeps("", "all", "all")(reports[k])
    {
      IncludesIgnoringCaseFacts(reports[k].title, "");
    }
    FilterKeepsAll(reports, Keeps("", "all", "all"));
  }

  /** `getStatusColor`. */
  function StatusColor(status: string): string
  {
    match status
    case "completed" => "default"
    case "processing" => "secondary"
    case "failed" => "destructive"
    case _ => "outline"
  }

  /** Each known status has its own badge variant; any other is outlined. */
  lemma StatusColors(status: string)
    ensures StatusColor(status) == "default" <==> status == "completed"
    ensures StatusColor(status) == "secondary" <==> status == "processing"
    ensures StatusColor(status) == "destructive" <==> status == "failed"
    ensures StatusColor(status) == "outline" <==> status !in {"completed", "processing", "failed"}
  {
  }

  /** `getScoreColor`. */
  function ScoreColor(score: Option<real>): string
  {
    if score.None? then "text-muted-foreground"
    else if score.value >= 90.0 then "text-green-600"
    else if score.value >= 80.0 then "text-blue-600"
    else if score.value >= 70.0 then "text-yellow-600"
    else "text-red-600"
  }

  /** The score colour's bands: none, at least 90, 80 to 90, 70 to 80,
      below 70. */
  lemma ScoreColorBands(score: Option<real>)
    ensures ScoreColor(score) == "text-muted-foreground" <==> score.None?
    ensures ScoreColor(score) == "text-green-600" <==> score.Some? && score.value >= 90.0
    ensures ScoreColor(score) == "text-blue-600" <==> score.Some? && 80.0 <= score.value < 90.0
    ensures ScoreColor(score) == "text-yellow-600" <==> score.Some? && 70.0 <= score.value < 80.0
    ensures ScoreColor(score) == "text-red-600" <==> score.Some? && score.value < 70.0
  {
  }
}
