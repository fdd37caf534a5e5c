/** The citations page (citations/page.tsx): search and type filter over
    the citation list, and the relevance colour. */
module CitationsPage {
  import opened Collections
  import opened Text

  datatype Citation = Citation(
    id: string,
    title: string,
    source: string,
    url: string,
    kind: string,
    relevance: real,
    date: string,
    snippet: string)

  /** The test of `filteredCitations` on one citation. */
  predicate Matches(c: Citation, searchTerm: string, filterType: string)
  {
    && (IncludesIgnoringCase(c.title, searchTerm) || IncludesIgnoringCase(c.snippet, searchTerm))
    && (filterType == "all" || Lower(c.kind) == filterType)
  }

  function Keeps(searchTerm: string, filterType: string): Citation -> bool
  {
    (c: Citation) => Matches(c, searchTerm, filterType)
  }

  /** `filteredCitations`. */
  function FilterCitations(citations: seq<Citation>, searchTerm: string, filterType: string): seq<Citation>
  {
    Filter(citations, Keeps(searchTerm, filterType))
  }

  /** A citation is listed exactly when it matches the search and the
      type filter, and the listed citations keep their order. */
  lemma FilterCitationsKeeps(citations: seq<Citation>, searchTerm: string, filterType: string)
    ensures var shown := FilterCitations(citations, searchTerm, filterType);
      && (forall c :: c in shown <==> c in citations && Matches(c, searchTerm, filterType))
      && IsSubsequence(shown, citations)
  {
    FilterMembers(citations, Keeps(searchTerm, filterType));
    FilterIsSubsequence(citations, Keeps(searchTerm, filterType));
  }

  /** With no search and the filter on 'all' every citation is listed. */
  lemma NoFilterKeepsAll(citations: seq<Citation>)
    ensures FilterCitations(citations, "", "all") == citations
  {
    forall k | 0 <= k < |citations|
      ensures Keeps("", "all")(citations[k])
    {
      IncludesIgnoringCaseFacts(citations[k].title, "");
    }
    FilterKeepsAll(citations, Keeps("", "all"));
  }

  /** `getRelevanceColor`. */
  function RelevanceColor(relevance: real): string
  {
    if relevance >= 90.0 then "bg-green-500"
    else if relevance >= 80.0 then "bg-blue-500"
    else if relevance >= 70.0 then "bg-yellow-500"
    else "bg-gray-500"
  }

  /** The relevance colour's bands: at least 90, 80 to 90, 70 to 80,
      below 70. */
  lemma RelevanceColorBands(relevance: real)
    ensures RelevanceColor(relevance) == "bg-green-500" <==> relevance >= 90.0
    ensures RelevanceColor(relevance) == "bg-blue-500" <==> 80.0 <= relevance < 90.0
    ensures RelevanceColor(relevance) == "bg-yellow-500" <==> 70.0 <= relevance < 80.0
    ensures RelevanceColor(relevance) == "bg-gray-500" <==> relevance < 70.0
  {
  }
}
