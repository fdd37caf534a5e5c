/** The audit history page (app/audits/page.tsx): the score label and
    colour of an audit, and the score-band filter over the audit list. */
module AuditHistory {
  import opened Collections

  /** An audit as the history endpoint returns it; the score is a
      JavaScript number. */
  datatype Audit = Audit(
    id: int,
    url: string,
    domain: string,
    overallScore: real,
    pageCount: int,
    createdAt: string,
    brandId: Option<int>,
    brandName: Option<string>)

  datatype ScoreFilter = All | High | Medium | Low

  /** `getScoreColor`. */
  function ScoreColor(score: real): string
  {
    if score >= 75.0 then "text-green-600"
    else if score >= 50.0 then "text-yellow-600"
    else "text-red-600"
  }

  /** `getScoreLabel`. */
  function ScoreLabel(score: real): string
  {
    if score >= 75.0 then "Excellent"
    else if score >= 50.0 then "Good"
    else "Needs Work"
  }

  /** The label's bands: at least 75, from 50 below 75, below 50. */
  lemma LabelBands(score: real)
    ensures ScoreLabel(score) == "Excellent" <==> score >= 75.0
    ensures ScoreLabel(score) == "Good" <==> 50.0 <= score < 75.0
    ensures ScoreLabel(score) == "Needs Work" <==> score < 50.0
  {
  }

  /** The colour follows the label. */
  lemma ColorFollowsLabel(score: real)
    ensures ScoreColor(score) == "text-green-600" <==> ScoreLabel(score) == "Excellent"
    ensures ScoreColor(score) == "text-yellow-600" <==> ScoreLabel(score) == "Good"
    ensures ScoreColor(score) == "text-red-600" <==> ScoreLabel(score) == "Needs Work"
  {
  }

  /** The filter's test on one audit. */
  predicate InBand(filter: ScoreFilter, score: real)
  {
    match filter
    case All => true
    case High => score >= 75.0
    case Medium => score >= 50.0 && score < 75.0
    case Low => score < 50.0
  }

  function Keeps(filter: ScoreFilter): Audit -> bool
  {
    (a: Audit) => InBand(filter, a.overallScore)
  }

  /** `filteredAudits`. */
  function FilterAudits(audits: seq<Audit>, filter: ScoreFilter): seq<Audit>
  {
    Filter(audits, Keeps(filter))
  }

  /** Each score is in exactly one of the high, medium and low bands, and
      that band is the one its label names. */
  lemma BandsMatchLabel(score: real)
    ensures InBand(High, score) <==> ScoreLabel(score) == "Excellent"
    ensures InBand(Medium, score) <==> ScoreLabel(score) == "Good"
    ensures InBand(Low, score) <==> ScoreLabel(score) == "Needs Work"
    ensures (if InBand(High, score) then 1 else 0) + (if InBand(Medium, score) then 1 else 0)
            + (if InBand(Low, score) then 1 else 0) == 1
  {
  }

  /** The filtered list keeps exactly the audits in the band, in their
      order; 'all' keeps the list as it is. */
  lemma FilterAuditsKeeps(audits: seq<Audit>, filter: ScoreFilter)
    ensures forall a :: a in FilterAudits(audits, filter) <==> a in audits && InBand(filter, a.overallScore)
    ensures IsSubsequence(FilterAudits(audits, filter), audits)
    ensures filter == All ==> FilterAudits(audits, filter) == audits
  {
    FilterMembers(audits, Keeps(filter));
    FilterIsSubsequence(audits, Keeps(filter));
    if filter == All {
      FilterKeepsAll(audits, Keeps(filter));
    }
  }

  /** The high, medium and low lists split the audit list between them. */
  lemma {:induction false} BandsPartition(audits: seq<Audit>)
    ensures |FilterAudits(audits, High)| + |FilterAudits(audits, Medium)| + |FilterAudits(audits, Low)| == |audits|
    decreases |audits|
  {
    if audits != [] {
      BandsPartition(audits[1..]);
      BandsMatchLabel(audits[0].overallScore);
    }
  }
}
