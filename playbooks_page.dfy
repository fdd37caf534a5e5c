/** The playbooks page (playbooks/page.tsx): search and category filter
    over the playbook list, and the difficulty and status colours. */
module PlaybooksPage {
  import opened Collections
  import opened Text

  datatype Playbook = Playbook(
    id: string,
    title: string,
    description: string,
    category: string,
    steps: int,
    estimatedTime: string,
    difficulty: string,
    status: string,
    tags: seq<string>,
    lastUsed: string)

  /** The test of `filteredPlaybooks` on one playbook. */
  predicate Matches(p: Playbook, searchTerm: string, selectedCategory: string)
  {
    && (IncludesIgnoringCase(p.title, searchTerm) || IncludesIgnoringCase(p.description, searchTerm))
    && (selectedCategory == "all" || Lower(p.category) == selectedCategory)
  }

  function Keeps(searchTerm: string, selectedCategory: string): Playbook -> bool
  {
    (p: Playbook) => Matches(p, searchTerm, selectedCategory)
  }

  /** `filteredPlaybooks`. */
  function FilterPlaybooks(playbooks: seq<Playbook>, searchTerm: string, selectedCategory: string): seq<Playbook>
  {
    Filter(playbooks, Keeps(searchTerm, selectedCategory))
  }

  /** A playbook is listed exactly when it matches the search and the
      category, and the listed playbooks keep their order. */
  lemma FilterPlaybooksKeeps(playbooks: seq<Playbook>, searchTerm: string, selectedCategory: string)
    ensures var shown := FilterPlaybooks(playbooks, searchTerm, selectedCategory);
      && (forall p :: p in shown <==> p in playbooks && Matches(p, searchTerm, selectedCategory))
      && IsSubsequence(shown, playbooks)
  {
    FilterMembers(playbooks, Keeps(searchTerm, selectedCategory));
    FilterIsSubsequence(playbooks, Keeps(searchTerm, selectedCategory));
  }

  /** With no search and the category on 'all' every playbook is listed. */
  lemma NoFilterKeepsAll(playbooks: seq<Playbook>)
    ensures FilterPlaybooks(playbooks, "", "all") == playbooks
  {
    forall k | 0 <= k < |playbooks|
      ensures Keeps("", "all")(playbooks[k])
    {
      IncludesIgnoringCaseFacts(playbooks[k].title, "");
    }
    FilterKeepsAll(playbooks, Keeps("", "all"));
  }

  /** `getDifficultyColor`. */
  function DifficultyColor(difficulty: string): string
  {
    match difficulty
    case "Beginner" => "bg-green-500"
    case "Intermediate" => "bg-yellow-500"
    case "Advanced" => "bg-red-500"
    case _ => "bg-gray-500"
  }

  /** Each difficulty level has its own colour; anything else is grey. */
  lemma DifficultyColors(difficulty: string)
    ensures DifficultyColor(difficulty) == "bg-green-500" <==> difficulty == "Beginner"
    ensures DifficultyColor(difficulty) == "bg-yellow-500" <==> difficulty == "Intermediate"
    ensures DifficultyColor(difficulty) == "bg-red-500" <==> difficulty == "Advanced"
    ensures DifficultyColor(difficulty) == "bg-gray-500" <==> difficulty !in {"Beginner", "Intermediate", "Advanced"}
  {
  }

  /** `getStatusColor`. */
  function StatusColor(status: string): string
  {
    match status
    case "active" => "default"
    case "completed" => "secondary"
    case "draft" => "outline"
    case _ => "secondary"
  }

  /** Active playbooks get the default badge and drafts the outlined one;
      completed and unknown statuses share the secondary badge. */
  lemma StatusColors(status: string)
    ensures StatusColor(status) == "default" <==> status == "active"
    ensures StatusColor(status) == "outline" <==> status == "draft"
    ensures StatusColor(status) == "secondary" <==> status !in {"active", "draft"}
  {
  }
}
