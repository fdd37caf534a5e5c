/** The mention extractor of the AI-visibility engine: a keyword
    sentiment heuristic and the case-insensitive search for a brand and its
    competitors in one engine answer (lib/aiVisibility.ts). */
module AiMentions {
  import opened Collections
  import opened Text

  datatype Sentiment = Positive | Neutral | Negative

  datatype EntityType = BrandEntity | CompetitorEntity

  /** A mention found in an answer, before it is stored. */
  datatype MentionDraft = MentionDraft(
    entityType: EntityType,
    entityName: string,
    sentiment: Sentiment,
    isRecommendation: bool)

  const PositiveWords: seq<string> := ["love", "excellent", "leading", "top choice", "robust"]
  const NegativeWords: seq<string> := ["expensive", "slow", "hard", "bad"]

  predicate HasAnyWord(sentence: string, words: seq<string>)
  {
    exists k :: 0 <= k < |words| && Contains(sentence, words[k])
  }

  /** `parts.find(s => s.includes(sub))`, as the index of the part found. */
  function FindContaining(parts: seq<string>, sub: string): (r: Option<nat>)
    ensures r.Some? ==> r.value < |parts|
    decreases |parts|
  {
    if parts == [] then None
    else if Contains(parts[0], sub) then Some(0)
    else match FindContaining(parts[1..], sub)
      case None => None
      case Some(k) => Some(k + 1)
  }

  /** `find` yields the first part containing `sub`, or nothing when no
      part does. */
  lemma {:induction false} FindContainingFirst(parts: seq<string>, sub: string)
    ensures var r := FindContaining(parts, sub);
      && (r.Some? ==> Contains(parts[r.value], sub) && forall k :: 0 <= k < r.value ==> !Contains(parts[k], sub))
      && (r.None? ==> forall k :: 0 <= k < |parts| ==> !Contains(parts[k], sub))
    decreases |parts|
  {
    if parts != [] {
      FindContainingFirst(parts[1..], sub);
      forall k | 0 < k < |parts| ensures parts[k] == parts[1..][k - 1] {
      }
    }
  }

  /** The text the heuristic inspects: the first `.`-separated segment of
      the lowercased text that contains the lowercased entity, or the whole
      lowercased text when none does. A segment found empty is falsy in
      JavaScript, so `|| lowerText` falls back to the whole text then too. */
  function Sentence(text: string, entity: string): string
  {
    var lowerText := Lower(text);
    var parts := Split(lowerText, '.');
    match FindContaining(parts, Lower(entity))
    case Some(k) => if parts[k] != [] then parts[k] else lowerText
    case None => lowerText
  }

  /** The keyword rule: a positive word wins over a negative one. */
  function InferSentiment(text: string, entity: string): Sentiment
  {
    var sentence := Sentence(text, entity);
    if HasAnyWord(sentence, PositiveWords) then Positive
    else if HasAnyWord(sentence, NegativeWords) then Negative
    else Neutral
  }

  /** The sentence is the first segment that mentions the entity, unless
      that segment is empty; it is the whole lowercased text when the
      segment found is empty or no segment mentions the entity. */
  lemma SentenceChoice(text: string, entity: string)
    ensures var parts := Split(Lower(text), '.');
      forall k :: 0 <= k < |parts| && IsFirstMatch(parts, k, Lower(entity)) ==>
        Sentence(text, entity) == if parts[k] != [] then parts[k] else Lower(text)
    ensures var parts := Split(Lower(text), '.');
      (forall k :: 0 <= k < |parts| ==> !Contains(parts[k], Lower(entity))) ==>
        Sentence(text, entity) == Lower(text)
  {
    var parts := Split(Lower(text), '.');
    FindContainingFirst(parts, Lower(entity));
    match FindContaining(parts, Lower(entity))
    case Some(m) =>
      forall k | 0 <= k < |parts| && IsFirstMatch(parts, k, Lower(entity))
        ensures k == m
      {
        assert Contains(parts[k], Lower(entity)) && Contains(parts[m], Lower(entity));
      }
    case None =>
  }

  /** The keyword rule: positive when a positive word occurs in the
      sentence, negative when only a negative word does, neutral when
      neither does. */
  lemma SentimentRule(text: string, entity: string)
    ensures var sentence := Sentence(text, entity);
      && (InferSentiment(text, entity) == Positive <==> HasAnyWord(sentence, PositiveWords))
      && (InferSentiment(text, entity) == Negative <==>
            !HasAnyWord(sentence, PositiveWords) && HasAnyWord(sentence, NegativeWords))
      && (InferSentiment(text, entity) == Neutral <==>
            !HasAnyWord(sentence, PositiveWords) && !HasAnyWord(sentence, NegativeWords))
  {
  }

  /** `parts[k]` is the first part containing `sub`. */
  ghost predicate IsFirstMatch(parts: seq<string>, k: nat, sub: string)
    requires k < |parts|
  {
    Contains(parts[k], sub) && forall j :: 0 <= j < k ==> !Contains(parts[j], sub)
  }

  lemma LowerKeepsPeriods(s: string)
    ensures '.' in Lower(s) <==> '.' in s
  {
    if '.' in Lower(s) {
      var i :| 0 <= i < |s| && Lower(s)[i] == '.';
      assert s[i] == '.';
    }
    if '.' in s {
      var i :| 0 <= i < |s| && s[i] == '.';
      assert Lower(s)[i] == '.';
    }
  }

  /** Text without a period is inspected whole. */
  lemma SentenceWithoutPeriod(text: string, entity: string)
    requires '.' !in text
    ensures Sentence(text, entity) == Lower(text)
  {
    LowerKeepsPeriods(text);
    SplitWithout(Lower(text), '.');
  }

  /** Only the first segment mentioning the entity matters: whatever
      follows the period after it is ignored. */
  lemma SentenceIgnoresLaterText(first: string, rest: string, entity: string)
    requires '.' !in first && first != []
    requires Contains(Lower(first), Lower(entity))
    ensures Sentence(first + "." + rest, entity) == Lower(first)
    ensures InferSentiment(first + "." + rest, entity) == InferSentiment(first, entity)
  {
    LowerKeepsPeriods(first);
    LowerConcat(first + ".", rest);
    LowerConcat(first, ".");
    assert Lower(".") == ".";
    SplitAfterPiece(Lower(first), '.', Lower(rest));
    SentenceWithoutPeriod(first, entity);
  }

  /** An answer mentions a name when its lowercase form contains the
      lowercased name. */
  predicate Mentioned(raw: string, name: string)
  {
    IncludesIgnoringCase(raw, name)
  }

  function MentionedIn(raw: string): string -> bool
  {
    name => Mentioned(raw, name)
  }

  /** The brand is flagged as recommended by "recommend <brand>" anywhere in
      the lowercased answer, or by a case-sensitive "top choice". */
  function BrandDraft(raw: string, brand: string): MentionDraft
  {
    MentionDraft(BrandEntity, brand, InferSentiment(raw, brand),
      Contains(Lower(raw), "recommend " + Lower(brand)) || Contains(raw, "top choice"))
  }

  /** A competitor is flagged only by "recommend <competitor>". */
  function CompetitorDraft(raw: string, competitor: string): MentionDraft
  {
    MentionDraft(CompetitorEntity, competitor, InferSentiment(raw, competitor),
      Contains(Lower(raw), "recommend " + Lower(competitor)))
  }

  /** The competitor mentions of an answer, in the order the competitors
      are supplied. */
  function CompetitorMentions(raw: string, competitors: seq<string>): seq<MentionDraft>
    decreases |competitors|
  {
    if competitors == [] then []
    else
      var last := competitors[|competitors| - 1];
      CompetitorMentions(raw, competitors[..|competitors| - 1])
        + if Mentioned(raw, last) then [CompetitorDraft(raw, last)] else []
  }

  /** What `extractMentions` returns: the brand mention, if any, first. */
  function Mentions(raw: string, brand: string, competitors: seq<string>): seq<MentionDraft>
  {
    (if Mentioned(raw, brand) then [BrandDraft(raw, brand)] else [])
      + CompetitorMentions(raw, competitors)
  }

  /** `extractMentions`: pushes the brand mention, then one mention per
      competitor found, in a loop. */
  method ExtractMentions(rawAnswer: string, brandName: string, competitorNames: seq<string>)
    returns (mentions: seq<MentionDraft>)
    ensures mentions == Mentions(rawAnswer, brandName, competitorNames)
    ensures |mentions| <= 1 + |competitorNames|
  {
    mentions := [];
    var lowerAnswer := Lower(rawAnswer);
    if Contains(lowerAnswer, Lower(brandName)) {
      mentions := mentions + [BrandDraft(rawAnswer, brandName)];
    }
    ghost var brandPart := mentions;
    var i := 0;
    while i < |competitorNames|
      invariant 0 <= i <= |competitorNames|
      invariant mentions == brandPart + CompetitorMentions(rawAnswer, competitorNames[..i])
    {
      var comp := competitorNames[i];
      assert competitorNames[..i + 1][..i] == competitorNames[..i];
      if Contains(lowerAnswer, Lower(comp)) {
        mentions := mentions + [CompetitorDraft(rawAnswer, comp)];
      }
      i := i + 1;
    }
    assert competitorNames[..i] == competitorNames;
    MentionsShape(rawAnswer, brandName, competitorNames);
  }

  /** The competitor mentions are exactly the competitors the answer
      mentions, each once per occurrence in the list, in the supplied
      order. */
  lemma {:induction false} CompetitorMentionsAreFiltered(raw: string, competitors: seq<string>)
    ensures var found := Filter(competitors, MentionedIn(raw));
      CompetitorMentions(raw, competitors) == seq(|found|, k requires 0 <= k < |found| => CompetitorDraft(raw, found[k]))
    decreases |competitors|
  {
    if competitors != [] {
      var init := competitors[..|competitors| - 1];
      var last := competitors[|competitors| - 1];
      CompetitorMentionsAreFiltered(raw, init);
      assert init + [last] == competitors;
      FilterSnoc(init, last, MentionedIn(raw));
    }
  }

  /** At most one competitor mention per competitor, and all of them of
      competitors. */
  lemma {:induction false} CompetitorMentionsKinds(raw: string, competitors: seq<string>)
    ensures |CompetitorMentions(raw, competitors)| <= |competitors|
    ensures forall k :: 0 <= k < |CompetitorMentions(raw, competitors)| ==>
      CompetitorMentions(raw, competitors)[k].entityType == CompetitorEntity
    decreases |competitors|
  {
    if competitors != [] {
      var init := competitors[..|competitors| - 1];
      CompetitorMentionsKinds(raw, init);
    }
  }

  /** Membership in the competitor mentions, name by name. */
  lemma CompetitorMentionsMembers(raw: string, competitors: seq<string>)
    ensures forall k :: 0 <= k < |CompetitorMentions(raw, competitors)| ==>
      CompetitorMentions(raw, competitors)[k].entityType == CompetitorEntity
    ensures forall c :: CompetitorDraft(raw, c) in CompetitorMentions(raw, competitors) <==>
      c in competitors && Mentioned(raw, c)
  {
    CompetitorMentionsAreFiltered(raw, competitors);
    CompetitorMentionsKinds(raw, competitors);
    var found := Filter(competitors, MentionedIn(raw));
    FilterMembers(competitors, MentionedIn(raw));
    var cs := CompetitorMentions(raw, competitors);
    forall c ensures CompetitorDraft(raw, c) in cs <==> c in found {
      if c in found {
        var k :| 0 <= k < |found| && found[k] == c;
        assert cs[k] == CompetitorDraft(raw, c);
      }
      if CompetitorDraft(raw, c) in cs {
        var k :| 0 <= k < |cs| && cs[k] == CompetitorDraft(raw, c);
        assert found[k] == c;
      }
    }
  }

  /** Shape of the result: at most one mention per entity supplied, the
      brand mention first and only there, every other one a competitor. */
  lemma MentionsShape(raw: string, brand: string, competitors: seq<string>)
    ensures var ms := Mentions(raw, brand, competitors);
      && |ms| <= 1 + |competitors|
      && (Mentioned(raw, brand) <==> exists k :: 0 <= k < |ms| && ms[k].entityType == BrandEntity)
      && (Mentioned(raw, brand) ==> ms[0] == BrandDraft(raw, brand))
      && (forall k :: 0 <= k < |ms| && ms[k].entityType == BrandEntity ==> k == 0)
  {
    CompetitorMentionsKinds(raw, competitors);
    var ms := Mentions(raw, brand, competitors);
    var cs := CompetitorMentions(raw, competitors);
    if Mentioned(raw, brand) {
      assert ms[0].entityType == BrandEntity;
      forall k | 0 < k < |ms| ensures ms[k].entityType == CompetitorEntity {
        assert ms[k] == cs[k - 1];
      }
    } else {
      assert ms == cs;
    }
  }

  /** A competitor gets a mention exactly when the answer mentions it;
      the mention keeps its name as supplied and carries its own sentiment
      and the "recommend" flag. */
  lemma CompetitorMentionIff(raw: string, brand: string, competitors: seq<string>, c: string)
    requires c in competitors
    ensures Mentioned(raw, c) <==> CompetitorDraft(raw, c) in Mentions(raw, brand, competitors)
  {
    CompetitorMentionsMembers(raw, competitors);
    var cs := CompetitorMentions(raw, competitors);
    var bs: seq<MentionDraft> := if Mentioned(raw, brand) then [BrandDraft(raw, brand)] else [];
    assert Mentions(raw, brand, competitors) == bs + cs;
    assert CompetitorDraft(raw, c) !in bs;
  }

  /** Every mention is sound: its entity is one of those supplied, with the
      name exactly as supplied, and the answer does mention it; a name the
      answer does not contain therefore yields nothing. */
  lemma MentionsSound(raw: string, brand: string, competitors: seq<string>)
    ensures forall m :: m in Mentions(raw, brand, competitors) ==>
      && Mentioned(raw, m.entityName)
      && m.sentiment == InferSentiment(raw, m.entityName)
      && (m.entityType == BrandEntity ==> m == BrandDraft(raw, brand))
      && (m.entityType == CompetitorEntity ==> m.entityName in competitors && m == CompetitorDraft(raw, m.entityName))
  {
    CompetitorMentionsAreFiltered(raw, competitors);
    var found := Filter(competitors, MentionedIn(raw));
    FilterMembers(competitors, MentionedIn(raw));
    forall m | m in CompetitorMentions(raw, competitors)
      ensures Mentioned(raw, m.entityName) && m.entityName in competitors && m == CompetitorDraft(raw, m.entityName)
    {
      var k :| 0 <= k < |CompetitorMentions(raw, competitors)| && CompetitorMentions(raw, competitors)[k] == m;
      assert found[k] in found;
    }
  }

  /** The competitors named in the result appear in the supplied order. */
  lemma CompetitorOrderPreserved(raw: string, brand: string, competitors: seq<string>)
    ensures var cs := CompetitorMentions(raw, competitors);
      IsSubsequence(seq(|cs|, k requires 0 <= k < |cs| => cs[k].entityName), competitors)
  {
    CompetitorMentionsAreFiltered(raw, competitors);
    var found := Filter(competitors, MentionedIn(raw));
    var cs := CompetitorMentions(raw, competitors);
    assert seq(|cs|, k requires 0 <= k < |cs| => cs[k].entityName) == found;
    FilterIsSubsequence(competitors, MentionedIn(raw));
  }

  /** No word of `words` occurs in a text lacking one character of each. */
  lemma NoWordOccurs(s: string, words: seq<string>, missing: string)
    requires |missing| == |words|
    requires forall k :: 0 <= k < |words| ==> missing[k] in words[k] && missing[k] !in s
    ensures !HasAnyWord(s, words)
  {
    forall k | 0 <= k < |words|
      ensures !Contains(s, words[k])
    {
      MissingChar(s, words[k], missing[k]);
    }
  }

  /** No word of `words` occurs in `a + [sep] + b` when each word lacks a
      character of `a` and one of `b`, and either lacks `sep` too or lacks
      one character of all three. */
  lemma NoWordAcross(a: string, sep: char, b: string, words: seq<string>, missingA: string, missingB: string)
    requires |missingA| == |words| && |missingB| == |words|
    requires forall k :: 0 <= k < |words| ==> missingA[k] in words[k] && missingA[k] !in a
    requires forall k :: 0 <= k < |words| ==> missingB[k] in words[k] && missingB[k] !in b
    requires forall k :: 0 <= k < |words| ==> sep !in words[k] || (missingA[k] == missingB[k] && missingA[k] != sep)
    ensures !HasAnyWord(a + [sep] + b, words)
  {
    forall k | 0 <= k < |words|
      ensures !Contains(a + [sep] + b, words[k])
    {
      if sep !in words[k] {
        MissingChar(a, words[k], missingA[k]);
        MissingChar(b, words[k], missingB[k]);
        NotAcross(a, sep, b, words[k]);
      } else {
        MissingChar(a + [sep] + b, words[k], missingA[k]);
      }
    }
  }

  // The three sentiment examples of the unit tests. Each literal fact is
  // kept in a small lemma of its own, since the verifier unfolds
  // functions applied to literals eagerly.

  /** A positive word in the sentence naming the brand. */
  lemma PositiveExample()
    ensures InferSentiment("I love Acme Corp, it is excellent.", "Acme Corp") == Positive
  {
    var first := "I love Acme Corp, it is excellent";
    var e := "Acme Corp";
    LowerAcme();
    LowerPositive();
    AcmeInPositive();
    PeriodFreePositive();
    assert "I love Acme Corp, it is excellent." == first + "." + "";
    SentenceIgnoresLaterText(first, "", e);
    SentenceWithoutPeriod(first, e);
    LoveInPositive();
    assert HasAnyWord(Lower(first), PositiveWords) by {
      assert PositiveWords[0] == "love";
    }
  }

  /** Negative words and no positive one. */
  lemma NegativeExample()
    ensures InferSentiment("Acme Corp is too expensive and slow.", "Acme Corp") == Negative
  {
    var first := "Acme Corp is too expensive and slow";
    var e := "Acme Corp";
    LowerAcme();
    LowerNegative();
    AcmeInNegative();
    PeriodFreeNegative();
    assert "Acme Corp is too expensive and slow." == first + "." + "";
    SentenceIgnoresLaterText(first, "", e);
    SentenceWithoutPeriod(first, e);
    NoPositiveInNegative();
    ExpensiveInNegative();
    assert HasAnyWord(Lower(first), NegativeWords) by {
      assert NegativeWords[0] == "expensive";
    }
  }

  /** No keyword at all. */
  lemma NeutralExample()
    ensures InferSentiment("Acme Corp is a company.", "Acme Corp") == Neutral
  {
    var first := "Acme Corp is a company";
    var e := "Acme Corp";
    LowerAcme();
    LowerNeutral();
    AcmeInNeutral();
    PeriodFreeNeutral();
    assert "Acme Corp is a company." == first + "." + "";
    SentenceIgnoresLaterText(first, "", e);
    SentenceWithoutPeriod(first, e);
    NoWordInNeutral();
  }

  lemma LowerAcme()
    ensures Lower("Acme Corp") == "acme corp"
  {
  }

  lemma LowerPositive()
    ensures Lower("I love Acme Corp, it is excellent") == "i love acme corp, it is excellent"
  {
  }

  lemma PeriodFreePositive()
    ensures '.' !in "I love Acme Corp, it is excellent"
  {
  }

  lemma AcmeInPositive()
    ensures Contains("i love acme corp, it is excellent", "acme corp")
  {
    ContainsFrom("i love acme corp, it is excellent", "acme corp", 7);
  }

  lemma LoveInPositive()
    ensures Contains("i love acme corp, it is excellent", "love")
  {
    ContainsFrom("i love acme corp, it is excellent", "love", 2);
  }

  lemma LowerNegative()
    ensures Lower("Acme Corp is too expensive and slow") == "acme corp is too expensive and slow"
  {
  }

  lemma PeriodFreeNegative()
    ensures '.' !in "Acme Corp is too expensive and slow"
  {
  }

  lemma AcmeInNegative()
    ensures Contains("acme corp is too expensive and slow", "acme corp")
  {
    ContainsFrom("acme corp is too expensive and slow", "acme corp", 0);
  }

  lemma ExpensiveInNegative()
    ensures Contains("acme corp is too expensive and slow", "expensive")
  {
    ContainsFrom("acme corp is too expensive and slow", "expensive", 17);
  }

  /** "love" and "excellent" are spelled with letters of the sentence, but
      neither fits in "acme corp is too expensive and" (no 'l') nor in
      "slow"; each other positive word lacks a letter of the sentence. */
  lemma NoPositiveInNegative()
    ensures !HasAnyWord("acme corp is too expensive and slow", PositiveWords)
  {
    SplitNegative();
    NoWordAcross("acme corp is too expensive and", ' ', "slow", PositiveWords, "llghb", "vxghb");
  }

  lemma SplitNegative()
    ensures "acme corp is too expensive and slow" == "acme corp is too expensive and" + [' '] + "slow"
  {
  }

  lemma LowerNeutral()
    ensures Lower("Acme Corp is a company") == "acme corp is a company"
  {
  }

  lemma PeriodFreeNeutral()
    ensures '.' !in "Acme Corp is a company"
  {
  }

  lemma AcmeInNeutral()
    ensures Contains("acme corp is a company", "acme corp")
  {
    ContainsFrom("acme corp is a company", "acme corp", 0);
  }

  /** Every keyword lacks a letter of "acme corp is a company". */
  lemma NoWordInNeutral()
    ensures !HasAnyWord("acme corp is a company", PositiveWords)
    ensures !HasAnyWord("acme corp is a company", NegativeWords)
  {
    NoWordOccurs("acme corp is a company", PositiveWords, "lxltb");
    NoWordOccurs("acme corp is a company", NegativeWords, "xlhb");
  }
}
