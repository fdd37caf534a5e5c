/** The Answer Hub content generator (lib/answerHub/generator.ts): a
    templated answer page for a question, namely its title, a quotable
    headline, sections chosen by the question's intent, four FAQ items and
    two JSON-LD blocks, plus the URL slug of the question. */
module AnswerGenerator {
  import opened Collections
  import opened Text

  datatype Intent = Informational | Commercial | Navigational | Transactional | UnknownIntent

  datatype SectionType = Intro | Faq | StepByStep | Comparison | Summary | OtherSection

  datatype Section = Section(kind: SectionType, heading: string, body: string)

  datatype FaqItem = FaqItem(question: string, answer: string)

  /** A `Question` entry of the FAQPage block. */
  datatype QuestionEntity = QuestionEntity(name: string, acceptedAnswer: string)

  /** The JSON-LD objects, kept as data rather than as their JSON text. */
  datatype JsonLd =
    | FaqPage(context: string, mainEntity: seq<QuestionEntity>)
    | WebPage(context: string, name: string, description: string, url: string, datePublished: int, dateModified: int)

  datatype SchemaBlock = SchemaBlock(schemaType: string, code: JsonLd)

  datatype GenerationInput = GenerationInput(
    brandName: string,
    brandDomain: string,
    question: string,
    existingContentUrl: Option<string>,
    intent: Option<Intent>)

  datatype GeneratedContent = GeneratedContent(
    title: string,
    headlineSnippet: string,
    sections: seq<Section>,
    faqItems: seq<FaqItem>,
    schemaBlocks: seq<SchemaBlock>)

  // ---------------------------------------------------------------------
  // The slug

  /** The characters `[a-z0-9]` keeps. */
  predicate IsSlugChar(c: char)
  {
    'a' <= c <= 'z' || '0' <= c <= '9'
  }

  predicate SlugAlphabet(s: string)
  {
    forall i :: 0 <= i < |s| ==> IsSlugChar(s[i]) || s[i] == '-'
  }

  predicate NoDoubleDash(s: string)
  {
    forall i :: 0 <= i < |s| - 1 ==> !(s[i] == '-' && s[i + 1] == '-')
  }

  /** `s` without its leading run of characters outside `[a-z0-9]`. */
  function SkipRun(s: string): (r: string)
    ensures |r| <= |s| && r == s[|s| - |r|..]
    ensures r == [] || IsSlugChar(r[0])
    decreases |s|
  {
    if s != [] && !IsSlugChar(s[0]) then SkipRun(s[1..]) else s
  }

  /** `replace(/[^a-z0-9]+/g, '-')`: each maximal run of characters
      outside `[a-z0-9]` becomes a single dash. */
  function Dashes(s: string): (r: string)
    ensures |r| <= |s|
    ensures r != [] ==> (r[0] == '-' <==> !IsSlugChar(s[0]))
    decreases |s|
  {
    if s == [] then []
    else if IsSlugChar(s[0]) then [s[0]] + Dashes(s[1..])
    else "-" + Dashes(SkipRun(s[1..]))
  }

  /** The dash replacement leaves only `a-z`, `0-9` and single dashes. */
  lemma {:induction false} DashesShape(s: string)
    ensures SlugAlphabet(Dashes(s)) && NoDoubleDash(Dashes(s))
    decreases |s|
  {
    if s != [] {
      var rest := if IsSlugChar(s[0]) then s[1..] else SkipRun(s[1..]);
      DashesShape(rest);
      var d := Dashes(s);
      assert d[1..] == Dashes(rest);
      forall i | 0 <= i < |d| - 1
        ensures !(d[i] == '-' && d[i + 1] == '-')
      {
        if i > 0 {
          assert d[i] == Dashes(rest)[i - 1] && d[i + 1] == Dashes(rest)[i];
        }
      }
    }
  }

  /** A run skipped before a letter or digit stops there. */
  lemma {:induction false} SkipRunConcat(x: string, b: string)
    requires b == [] || IsSlugChar(b[0])
    ensures SkipRun(x + b) == SkipRun(x) + b
    decreases |x|
  {
    if x == [] {
      assert x + b == b;
    } else {
      assert (x + b)[0] == x[0] && (x + b)[1..] == x[1..] + b;
      if !IsSlugChar(x[0]) {
        SkipRunConcat(x[1..], b);
      }
    }
  }

  /** The dash replacement works piece by piece when the cut falls before
      a letter or digit, so that no run is cut in two. */
  lemma {:induction false} DashesSplit(a: string, b: string)
    requires b == [] || IsSlugChar(b[0])
    ensures Dashes(a + b) == Dashes(a) + Dashes(b)
    decreases |a|
  {
    if a == [] {
      assert a + b == b;
    } else {
      assert (a + b)[0] == a[0] && (a + b)[1..] == a[1..] + b;
      if IsSlugChar(a[0]) {
        DashesSplit(a[1..], b);
      } else {
        SkipRunConcat(a[1..], b);
        DashesSplit(SkipRun(a[1..]), b);
      }
    }
  }

  /** A word followed by a run of other characters: the word is kept and
      the whole run becomes one dash. */
  lemma DashesRun(w: string, sep: string, rest: string)
    requires forall i :: 0 <= i < |w| ==> IsSlugChar(w[i])
    requires sep != [] && forall i :: 0 <= i < |sep| ==> !IsSlugChar(sep[i])
    requires rest == [] || IsSlugChar(rest[0])
    ensures Dashes(w + sep + rest) == w + "-" + Dashes(rest)
  {
    DashesSplit(w + sep, rest);
    DashesOfWord(w, sep);
  }

  lemma {:induction false} DashesOfWord(w: string, sep: string)
    requires forall i :: 0 <= i < |w| ==> IsSlugChar(w[i])
    requires sep != [] && forall i :: 0 <= i < |sep| ==> !IsSlugChar(sep[i])
    ensures Dashes(w + sep) == w + "-"
    decreases |w|
  {
    if w == [] {
      assert w + sep == sep;
      SkipRunOfSeparators(sep[1..]);
    } else {
      assert (w + sep)[1..] == w[1..] + sep;
      DashesOfWord(w[1..], sep);
    }
  }

  lemma {:induction false} SkipRunOfSeparators(sep: string)
    requires forall i :: 0 <= i < |sep| ==> !IsSlugChar(sep[i])
    ensures SkipRun(sep) == []
    decreases |sep|
  {
    if sep != [] {
      SkipRunOfSeparators(sep[1..]);
    }
  }

  function TrimStartDashes(s: string): (r: string)
    ensures |r| <= |s| && r == s[|s| - |r|..]
    ensures r == [] || r[0] != '-'
    decreases |s|
  {
    if s != [] && s[0] == '-' then TrimStartDashes(s[1..]) else s
  }

  function TrimEndDashes(s: string): (r: string)
    ensures |r| <= |s| && r == s[..|r|]
    ensures r == [] || r[|r| - 1] != '-'
    decreases |s|
  {
    if s != [] && s[|s| - 1] == '-' then TrimEndDashes(s[..|s| - 1]) else s
  }

  /** `replace(/^-+|-+$/g, '')`. */
  function StripDashes(s: string): (r: string)
    ensures |r| <= |s|
  {
    TrimEndDashes(TrimStartDashes(s))
  }

  /** The slug before truncation. */
  function FullSlug(question: string): string
  {
    StripDashes(Dashes(Lower(question)))
  }

  const MaxSlugLength := 100

  /** `slugifyQuestion`: lower-case, runs of other characters to one dash,
      dashes stripped from both ends, then `substring(0, 100)`. */
  function Slugify(question: string): string
  {
    var full := FullSlug(question);
    if |full| <= MaxSlugLength then full else full[..MaxSlugLength]
  }

  /** Alphabet and single dashes survive taking a slice. */
  lemma SliceKeepsShape(s: string, i: nat, j: nat)
    requires i <= j <= |s|
    requires SlugAlphabet(s) && NoDoubleDash(s)
    ensures SlugAlphabet(s[i..j]) && NoDoubleDash(s[i..j])
  {
    forall k | 0 <= k < j - i - 1
      ensures !(s[i..j][k] == '-' && s[i..j][k + 1] == '-')
    {
      assert s[i..j][k] == s[i + k] && s[i..j][k + 1] == s[i + k + 1];
    }
  }

  /** The stripped slug has only `a-z`, `0-9` and single dashes, and no
      dash at either end. */
  lemma FullSlugShape(question: string)
    ensures SlugAlphabet(FullSlug(question)) && NoDoubleDash(FullSlug(question))
    ensures FullSlug(question) == [] || (FullSlug(question)[0] != '-' && FullSlug(question)[|FullSlug(question)| - 1] != '-')
  {
    var d := Dashes(Lower(question));
    DashesShape(Lower(question));
    var t := TrimStartDashes(d);
    SliceKeepsShape(d, |d| - |t|, |d|);
    var r := TrimEndDashes(t);
    SliceKeepsShape(t, 0, |r|);
    assert r != [] ==> r[0] == t[0];
  }

  /** What `slugifyQuestion` promises: only `a-z`, `0-9` and `-`, never two
      dashes in a row, no leading dash, at most 100 characters; a trailing
      dash only when truncation cut the slug. */
  lemma SlugShape(question: string)
    ensures var slug := Slugify(question);
      && SlugAlphabet(slug) && NoDoubleDash(slug)
      && |slug| <= MaxSlugLength
      && (slug == [] || slug[0] != '-')
      && (|FullSlug(question)| <= MaxSlugLength ==> slug == [] || slug[|slug| - 1] != '-')
  {
    var full := FullSlug(question);
    FullSlugShape(question);
    if |full| > MaxSlugLength {
      SliceKeepsShape(full, 0, MaxSlugLength);
    }
  }

  /** Skipping a run drops no kept character. */
  lemma {:induction false} SkipRunKeeps(s: string)
    ensures Filter(SkipRun(s), IsSlugChar) == Filter(s, IsSlugChar)
    decreases |s|
  {
    if s != [] && !IsSlugChar(s[0]) {
      SkipRunKeeps(s[1..]);
    }
  }

  /** The dashes replace only separator runs: the letters and digits of the
      input are all kept, in order. */
  lemma {:induction false} DashesKeep(s: string)
    ensures Filter(Dashes(s), IsSlugChar) == Filter(s, IsSlugChar)
    decreases |s|
  {
    if s != [] {
      if IsSlugChar(s[0]) {
        DashesKeep(s[1..]);
        assert ([s[0]] + Dashes(s[1..]))[1..] == Dashes(s[1..]);
      } else {
        var rest := SkipRun(s[1..]);
        DashesKeep(rest);
        SkipRunKeeps(s[1..]);
        assert ("-" + Dashes(rest))[1..] == Dashes(rest);
      }
    }
  }

  /** Dropping a dash keeps the letters and digits. */
  lemma {:induction false} TrimStartDashesKeep(s: string)
    ensures Filter(TrimStartDashes(s), IsSlugChar) == Filter(s, IsSlugChar)
    decreases |s|
  {
    if s != [] && s[0] == '-' {
      TrimStartDashesKeep(s[1..]);
    }
  }

  lemma {:induction false} TrimEndDashesKeep(s: string)
    ensures Filter(TrimEndDashes(s), IsSlugChar) == Filter(s, IsSlugChar)
    decreases |s|
  {
    if s != [] && s[|s| - 1] == '-' {
      var n := |s| - 1;
      TrimEndDashesKeep(s[..n]);
      assert s == s[..n] + [s[n]];
      FilterSnoc(s[..n], s[n], IsSlugChar);
    }
  }

  /** The untruncated slug holds exactly the letters and digits of the
      lower-cased question, in order. */
  lemma SlugKeepsWords(question: string)
    ensures Filter(FullSlug(question), IsSlugChar) == Filter(Lower(question), IsSlugChar)
  {
    var lower := Lower(question);
    var d := Dashes(lower);
    var t := TrimStartDashes(d);
    DashesKeep(lower);
    TrimStartDashesKeep(d);
    TrimEndDashesKeep(t);
    calc {
      Filter(FullSlug(question), IsSlugChar);
      Filter(TrimEndDashes(t), IsSlugChar);
      Filter(t, IsSlugChar);
      Filter(d, IsSlugChar);
      Filter(lower, IsSlugChar);
    }
  }

  /** The slug is the untruncated slug or its first 100 characters. */
  lemma SlugIsPrefix(question: string)
    ensures Slugify(question) <= FullSlug(question)
    ensures |FullSlug(question)| <= MaxSlugLength ==> Slugify(question) == FullSlug(question)
  {
  }

  /** A string already in slug form is its own dash replacement. */
  lemma {:induction false} DashesOfSlug(s: string)
    requires SlugAlphabet(s) && NoDoubleDash(s)
    requires s == [] || s[0] != '-'
    ensures Dashes(s) == s
    decreases |s|
  {
    if s != [] {
      var rest := s[1..];
      assert SlugAlphabet(rest) && NoDoubleDash(rest) by {
        SliceKeepsShape(s, 1, |s|);
      }
      if IsSlugChar(s[0]) {
        if rest != [] && rest[0] == '-' {
          if |rest| > 1 {
            assert s[2] == rest[1];
          }
          SkipDash(rest);
        } else {
          DashesOfSlug(rest);
        }
      }
    }
  }

  /** After a letter or digit, a dash and what follows it reproduce
      themselves. */
  lemma {:induction false} SkipDash(s: string)
    requires SlugAlphabet(s) && NoDoubleDash(s)
    requires s != [] && s[0] == '-'
    ensures Dashes(s) == s
    decreases |s|
  {
    var rest := s[1..];
    SliceKeepsShape(s, 1, |s|);
    if rest != [] {
      assert rest[0] != '-';
      assert IsSlugChar(rest[0]);
      assert SkipRun(rest) == rest;
      DashesOfSlug(rest);
    } else {
      assert SkipRun(rest) == [];
    }
  }

  lemma LowerOfSlug(s: string)
    requires SlugAlphabet(s)
    ensures Lower(s) == s
  {
  }

  /** A slug with no dash at either end and at most 100 characters is
      left as it is. */
  lemma SlugifyOfSlug(s: string)
    requires SlugAlphabet(s) && NoDoubleDash(s) && |s| <= MaxSlugLength
    requires s == [] || (s[0] != '-' && s[|s| - 1] != '-')
    ensures Slugify(s) == s
  {
    LowerOfSlug(s);
    DashesOfSlug(s);
    assert Dashes(Lower(s)) == s;
    assert TrimStartDashes(s) == s;
    assert TrimEndDashes(s) == s;
    assert FullSlug(s) == s;
  }

  /** Slugifying a slug again changes it exactly when truncation left a
      dash at its end. */
  lemma SlugifyTwice(question: string)
    ensures var slug := Slugify(question);
      Slugify(slug) == slug <==> (slug == [] || slug[|slug| - 1] != '-')
  {
    var slug := Slugify(question);
    SlugShape(question);
    if slug == [] || slug[|slug| - 1] != '-' {
      SlugifyOfSlug(slug);
    } else {
      SlugShape(slug);
      assert |FullSlug(slug)| <= |slug|;
    }
  }

  /** A single trailing dash is all that stripping removes from a slug
      that has no dash at either end. */
  lemma StripTrailingDash(a: string, b: string)
    requires a != [] && a[0] != '-' && b != [] && b[|b| - 1] != '-'
    ensures StripDashes(a + b + "-") == a + b
  {
    var s := a + b;
    var t := s + "-";
    assert t[0] == a[0];
    assert TrimStartDashes(t) == t;
    assert t[|t| - 1] == '-' && t[..|t| - 1] == s;
    assert s[|s| - 1] == b[|b| - 1];
    assert TrimEndDashes(s) == s;
  }

  // The slug examples of the unit tests. Each literal fact is kept in a
  // small lemma of its own, since the verifier unfolds functions applied
  // to literals eagerly.

  /** Words separated by spaces, with the question mark dropped. */
  lemma SlugExampleWords()
    ensures Slugify("What are the best running shoes for flat feet?") == "what-are-the-best-running-shoes-for-flat-feet"
  {
    LowerWords();
    WordsDashes();
    WordsStripped();
  }

  lemma LowerWords()
    ensures Lower("What are the best running shoes for flat feet?") == "what are the best running shoes for flat feet?"
  {
    WordsHalves();
    LowerConcat("What are the best ", "running shoes for flat feet?");
    LowerWordsHead();
    LowerWordsTail();
    LowerWordsHalves();
  }

  lemma WordsHalves()
    ensures "What are the best running shoes for flat feet?" == "What are the best " + "running shoes for flat feet?"
  {
  }

  lemma LowerWordsHalves()
    ensures "what are the best running shoes for flat feet?" == "what are the best " + "running shoes for flat feet?"
  {
  }

  lemma LowerWordsHead()
    ensures Lower("What are the best ") == "what are the best "
  {
  }

  lemma LowerWordsTail()
    ensures Lower("running shoes for flat feet?") == "running shoes for flat feet?"
  {
  }

  lemma WordsDashes()
    ensures Dashes("what are the best running shoes for flat feet?") == "what-are-the-best-running-shoes-for-flat-feet" + "-"
  {
    var r8 := "feet" + "?" + "";
    var r7 := "flat" + " " + r8;
    var r6 := "for" + " " + r7;
    var r5 := "shoes" + " " + r6;
    var r4 := "running" + " " + r5;
    var r3 := "best" + " " + r4;
    var r2 := "the" + " " + r3;
    var r1 := "are" + " " + r2;
    WordsPieces();
    assert Dashes(r8) == "feet" + "-" + "" by { DashesRun("feet", "?", ""); }
    assert Dashes(r7) == "flat" + "-" + Dashes(r8) by { DashesRun("flat", " ", r8); }
    assert Dashes(r6) == "for" + "-" + Dashes(r7) by { DashesRun("for", " ", r7); }
    assert Dashes(r5) == "shoes" + "-" + Dashes(r6) by { DashesRun("shoes", " ", r6); }
    assert Dashes(r4) == "running" + "-" + Dashes(r5) by { DashesRun("running", " ", r5); }
    assert Dashes(r3) == "best" + "-" + Dashes(r4) by { DashesRun("best", " ", r4); }
    assert Dashes(r2) == "the" + "-" + Dashes(r3) by { DashesRun("the", " ", r3); }
    assert Dashes(r1) == "are" + "-" + Dashes(r2) by { DashesRun("are", " ", r2); }
    assert Dashes("what" + " " + r1) == "what" + "-" + Dashes(r1) by { DashesRun("what", " ", r1); }
    WordsJoined();
  }

  lemma WordsJoined()
    ensures "what" + "-" + ("are" + "-" + ("the" + "-" + ("best" + "-" + ("running" + "-" + ("shoes" + "-"
        + ("for" + "-" + ("flat" + "-" + ("feet" + "-" + "")))))))) == "what-are-the-best-running-shoes-for-flat-feet" + "-"
  {
    WordsJoinedTail();
    WordsSlugHalves();
  }

  lemma WordsStripped()
    ensures StripDashes("what-are-the-best-running-shoes-for-flat-feet" + "-") == "what-are-the-best-running-shoes-for-flat-feet"
  {
    WordsSlugHalves();
    StripTrailingDash("what-are-the-best-", "running-shoes-for-flat-feet");
  }

  lemma WordsSlugHalves()
    ensures "what-are-the-best-running-shoes-for-flat-feet" == "what-are-the-best-" + "running-shoes-for-flat-feet"
  {
  }

  lemma WordsPieces()
    ensures "what are the best running shoes for flat feet?"
      == "what" + " " + ("are" + " " + ("the" + " " + ("best" + " " + ("running" + " " + ("shoes" + " "
        + ("for" + " " + ("flat" + " " + ("feet" + "?" + ""))))))))
  {
  }

  lemma WordsJoinedTail()
    ensures "running" + "-" + ("shoes" + "-" + ("for" + "-" + ("flat" + "-" + ("feet" + "-" + ""))))
      == "running-shoes-for-flat-feet" + "-"
  {
  }


  /** A run of 150 letters is cut to its first 100. */
  lemma SlugExampleLong()
    ensures Slugify(seq(150, _ => 'a')) == seq(100, _ => 'a')
  {
    var q: string := seq(150, _ => 'a');
    assert SlugAlphabet(q) && NoDoubleDash(q);
    LowerOfSlug(q);
    DashesOfSlug(q);
    assert TrimStartDashes(q) == q;
    assert TrimEndDashes(q) == q;
  }

  /** Separator runs of one or two characters, each becoming one dash. */
  lemma SlugExampleSpecial()
    ensures Slugify("Is Brand X (really) the #1 choice?!") == "is-brand-x-really-the-1-choice"
  {
    LowerSpecial();
    SpecialDashes();
    SpecialStripped();
  }

  lemma LowerSpecial()
    ensures Lower("Is Brand X (really) the #1 choice?!") == "is brand x (really) the #1 choice?!"
  {
  }

  lemma SpecialDashes()
    ensures Dashes("is brand x (really) the #1 choice?!") == "is-brand-x-really-the-1-choice-"
  {
    var r6 := "choice" + "?!" + "";
    var r5 := "1" + " " + r6;
    var r4 := "the" + " #" + r5;
    var r3 := "really" + ") " + r4;
    var r2 := "x" + " (" + r3;
    var r1 := "brand" + " " + r2;
    SpecialPieces();
    assert Dashes(r6) == "choice" + "-" + Dashes("") by { DashesRun("choice", "?!", ""); }
    assert Dashes(r5) == "1" + "-" + Dashes(r6) by { DashesRun("1", " ", r6); }
    assert Dashes(r4) == "the" + "-" + Dashes(r5) by { DashesRun("the", " #", r5); }
    assert Dashes(r3) == "really" + "-" + Dashes(r4) by { DashesRun("really", ") ", r4); }
    assert Dashes(r2) == "x" + "-" + Dashes(r3) by { DashesRun("x", " (", r3); }
    assert Dashes(r1) == "brand" + "-" + Dashes(r2) by { DashesRun("brand", " ", r2); }
    assert Dashes("is" + " " + r1) == "is" + "-" + Dashes(r1) by { DashesRun("is", " ", r1); }
    SpecialJoined();
  }

  lemma SpecialPieces()
    ensures "is brand x (really) the #1 choice?!"
      == "is" + " " + ("brand" + " " + ("x" + " (" + ("really" + ") " + ("the" + " #" + ("1" + " " + ("choice" + "?!" + ""))))))
  {
  }

  lemma SpecialJoined()
    ensures "is" + "-" + ("brand" + "-" + ("x" + "-" + ("really" + "-" + ("the" + "-" + ("1" + "-" + ("choice" + "-" + Dashes("")))))))
      == "is-brand-x-really-the-1-choice-"
  {
  }

  lemma SpecialStripped()
    ensures StripDashes("is-brand-x-really-the-1-choice-") == "is-brand-x-really-the-1-choice"
  {
  }

  // ---------------------------------------------------------------------
  // Title and headline

  /** `question.trim().replace(/\?$/, '')`: one trailing question mark goes. */
  function CleanQuestion(question: string): (clean: string)
    ensures clean <= Trim(question)
    ensures |Trim(question)| - 1 <= |clean|
    ensures |clean| == |Trim(question)| - 1 <==>
      Trim(question) != [] && Trim(question)[|Trim(question)| - 1] == '?'
  {
    var t := Trim(question);
    if t != [] && t[|t| - 1] == '?' then t[..|t| - 1] else t
  }

  /** `generateTitle`: the brand is added unless the cleaned question
      already names it, in any letter case. */
  function Title(question: string, brandName: string): string
  {
    var clean := CleanQuestion(question);
    if Contains(Lower(clean), Lower(brandName)) then clean + " | Expert Answer"
    else clean + " - " + brandName + " Expert Guide"
  }

  /** The title starts with the cleaned question and names the brand, in
      some letter case, either way. */
  lemma TitleNamesBrand(question: string, brandName: string)
    ensures CleanQuestion(question) <= Title(question, brandName)
    ensures Contains(Lower(Title(question, brandName)), Lower(brandName))
  {
    var clean := CleanQuestion(question);
    var title := Title(question, brandName);
    if Contains(Lower(clean), Lower(brandName)) {
      LowerConcat(clean, " | Expert Answer");
      ContainsInConcat(Lower(clean), Lower(" | Expert Answer"), Lower(brandName));
    } else {
      assert title[|clean| + 3..][..|brandName|] == brandName;
      ContainsFrom(title, brandName, |clean| + 3);
      ContainsLower(title, brandName);
    }
  }

  /** The headline templates of the five intents, each the text after the
      brand name. */
  datatype SnippetTemplates = SnippetTemplates(
    informational: string,
    commercial: string,
    navigational: string,
    transactional: string,
    unknown: string)

  const StubSnippets := SnippetTemplates(
    " provides comprehensive solutions for this question. Based on expert analysis and customer feedback, here's what you need to know.",
    " offers industry-leading products that directly address this need. Our solution stands out for quality, reliability, and customer satisfaction.",
    " is the trusted resource for this information. Visit our platform for detailed guidance and expert support.",
    " makes it easy to get started. Our streamlined process ensures you get exactly what you need, when you need it.",
    " has extensive experience with this topic. Here's our expert perspective based on years of industry knowledge.")

  /** `templates[intent]`. */
  function SnippetTail(t: SnippetTemplates, intent: Intent): string
  {
    match intent
    case Informational => t.informational
    case Commercial => t.commercial
    case Navigational => t.navigational
    case Transactional => t.transactional
    case UnknownIntent => t.unknown
  }

  /** `generateHeadlineSnippet`: the intent's template, brand first. */
  function HeadlineSnippet(t: SnippetTemplates, brandName: string, intent: Intent): string
  {
    brandName + SnippetTail(t, intent)
  }

  predicate TailsDiffer(t: SnippetTemplates)
  {
    forall a: Intent, b: Intent :: a != b ==> SnippetTail(t, a) != SnippetTail(t, b)
  }

  /** The five headline templates are five different texts. */
  lemma StubSnippetsDiffer()
    ensures TailsDiffer(StubSnippets)
  {
    assert |StubSnippets.informational| == 130 && |StubSnippets.commercial| == 143;
    assert |StubSnippets.navigational| == 107 && |StubSnippets.transactional| == 111;
    assert |StubSnippets.unknown| == 110;
  }

  /** The snippet begins with the brand, and, for templates that differ,
      different intents give different snippets. */
  lemma HeadlineSnippetDistinct(t: SnippetTemplates, brandName: string, a: Intent, b: Intent)
    requires TailsDiffer(t)
    ensures StartsWith(HeadlineSnippet(t, brandName, a), brandName)
    ensures HeadlineSnippet(t, brandName, a) == HeadlineSnippet(t, brandName, b) <==> a == b
  {
    if a != b {
      var x := HeadlineSnippet(t, brandName, a);
      var y := HeadlineSnippet(t, brandName, b);
      assert x[|brandName|..] == SnippetTail(t, a);
      assert y[|brandName|..] == SnippetTail(t, b);
    }
  }

  // ---------------------------------------------------------------------
  // Sections and FAQ items

  /** The fixed texts of the section templates, between the inserted
      question, brand name and link. */
  datatype SectionWording = SectionWording(
    introOpen: string,
    introMiddle: string,
    introClose: string,
    linkOpen: string,
    comparisonTail: string,
    stepsOpen: string,
    stepsClose: string,
    summaryOpen: string,
    summaryMiddle: string,
    summaryPoints: string,
    summaryClose: string)

  const StubSections := SectionWording(
    "When considering \"",
    "\", it's important to understand the key factors that make a difference. ",
    " has helped thousands of customers navigate this decision, and we've compiled our expertise into this comprehensive guide.\n\n",
    "For more details, visit [our dedicated page](",
    " stands out in several key areas:\n\n- **Quality**: Industry-leading standards and rigorous testing\n- **Support**: 24/7 customer service and expert guidance\n- **Value**: Competitive pricing with transparent costs\n- **Trust**: Thousands of satisfied customers and proven results\n\nOur approach combines innovation with reliability, ensuring you get the best possible outcome.",
    "Here's how to approach this:\n\n1. **Assess Your Needs**: Identify your specific requirements and constraints\n2. **Research Options**: Compare available solutions and their features\n3. **Evaluate Quality**: Look for proven track records and customer reviews\n4. **Make Your Decision**: Choose the option that best fits your situation\n5. **Get Started**: ",
    " makes implementation simple and straightforward",
    "To summarize the answer to \"",
    "\":\n\n- ",
    " offers proven, reliable solutions\n- Our approach is backed by expertise and customer success\n- We provide comprehensive support throughout your journey\n- Getting started is simple and straightforward\n\nWhether you're just exploring options or ready to take action, ",
    " is here to help.")

  /** The link line of the overview: only for a non-empty URL, as the
      template's truthiness test has it. */
  function LinkLine(w: SectionWording, existingUrl: Option<string>): string
  {
    if existingUrl.Some? && existingUrl.value != "" then w.linkOpen + existingUrl.value + ")." else ""
  }

  function IntroSection(w: SectionWording, question: string, brandName: string, existingUrl: Option<string>): Section
  {
    Section(Intro, "Overview", w.introOpen + question + w.introMiddle + brandName + w.introClose + LinkLine(w, existingUrl))
  }

  function ComparisonSection(w: SectionWording, brandName: string): Section
  {
    Section(Comparison, "Why Choose " + brandName, brandName + w.comparisonTail)
  }

  function StepByStepSection(w: SectionWording, brandName: string): Section
  {
    Section(StepByStep, "Step-by-Step Guide", w.stepsOpen + brandName + w.stepsClose)
  }

  function SummarySection(w: SectionWording, question: string, brandName: string): Section
  {
    Section(Summary, "Key Takeaways",
      w.summaryOpen + question + w.summaryMiddle + brandName + w.summaryPoints + brandName + w.summaryClose)
  }

  /** `generateSections`: the overview, then a comparison for commercial
      and transactional questions or a guide for informational ones, then
      the takeaways. */
  function Sections(w: SectionWording, question: string, brandName: string, intent: Intent, existingUrl: Option<string>): seq<Section>
  {
    [IntroSection(w, question, brandName, existingUrl)]
    + (if intent == Commercial || intent == Transactional then [ComparisonSection(w, brandName)] else [])
    + (if intent == Informational then [StepByStepSection(w, brandName)] else [])
    + [SummarySection(w, question, brandName)]
  }

  function Kinds(sections: seq<Section>): (kinds: seq<SectionType>)
    ensures |kinds| == |sections|
  {
    seq(|sections|, i requires 0 <= i < |sections| => sections[i].kind)
  }

  /** The section list rules: overview first, takeaways last, a comparison
      exactly for commercial and transactional intent, a guide exactly for
      informational intent, and three sections with either, two without. */
  lemma SectionRules(w: SectionWording, question: string, brandName: string, intent: Intent, existingUrl: Option<string>)
    ensures var ss := Sections(w, question, brandName, intent, existingUrl);
      && ss[0].kind == Intro && ss[|ss| - 1].kind == Summary
      && (Comparison in Kinds(ss) <==> intent == Commercial || intent == Transactional)
      && (StepByStep in Kinds(ss) <==> intent == Informational)
      && |ss| == (if intent in {Commercial, Transactional, Informational} then 3 else 2)
  {
    var ss := Sections(w, question, brandName, intent, existingUrl);
    if intent == Commercial || intent == Transactional {
      assert Kinds(ss) == [Intro, Comparison, Summary];
    } else if intent == Informational {
      assert Kinds(ss) == [Intro, StepByStep, Summary];
    } else {
      assert Kinds(ss) == [Intro, Summary];
    }
  }

  /** `s` with `brandName` somewhere in it. */
  predicate Names(s: string, brandName: string)
  {
    Contains(s, brandName)
  }

  lemma NamesAt(pre: string, brandName: string, post: string)
    ensures Names(pre + brandName + post, brandName)
  {
    var s := pre + brandName + post;
    assert s[|pre|..][..|brandName|] == brandName;
    ContainsFrom(s, brandName, |pre|);
  }

  /** A text that names the brand still does with more text after it. */
  lemma NamesExtended(s: string, brandName: string, more: string)
    requires Names(s, brandName)
    ensures Names(s + more, brandName)
  {
    ContainsInConcat(s, more, brandName);
  }

  /** A text that starts with the brand names it. */
  lemma NamesFirst(brandName: string, post: string)
    ensures Names(brandName + post, brandName)
  {
    assert brandName <= brandName + post;
  }

  /** Each of the four section templates puts the brand in its body. */
  lemma BodiesNameBrand(w: SectionWording, question: string, brandName: string, existingUrl: Option<string>)
    ensures Names(IntroSection(w, question, brandName, existingUrl).body, brandName)
    ensures Names(ComparisonSection(w, brandName).body, brandName)
    ensures Names(StepByStepSection(w, brandName).body, brandName)
    ensures Names(SummarySection(w, question, brandName).body, brandName)
  {
    NamesAt(w.introOpen + question + w.introMiddle, brandName, w.introClose);
    NamesExtended(w.introOpen + question + w.introMiddle + brandName + w.introClose, brandName, LinkLine(w, existingUrl));
    NamesFirst(brandName, w.comparisonTail);
    NamesAt(w.stepsOpen, brandName, w.stepsClose);
    var summaryHead := w.summaryOpen + question + w.summaryMiddle;
    NamesAt(summaryHead, brandName, w.summaryPoints);
    NamesExtended(summaryHead + brandName + w.summaryPoints, brandName, brandName);
    NamesExtended(summaryHead + brandName + w.summaryPoints + brandName, brandName, w.summaryClose);
  }

  /** Every section body names the brand. */
  lemma SectionsNameBrand(w: SectionWording, question: string, brandName: string, intent: Intent, existingUrl: Option<string>)
    ensures var ss := Sections(w, question, brandName, intent, existingUrl);
      forall i :: 0 <= i < |ss| ==> Names(ss[i].body, brandName)
  {
    BodiesNameBrand(w, question, brandName, existingUrl);
    var ss := Sections(w, question, brandName, intent, existingUrl);
    var intro := IntroSection(w, question, brandName, existingUrl);
    var summary := SummarySection(w, question, brandName);
    if intent == Commercial || intent == Transactional {
      assert ss == [intro, ComparisonSection(w, brandName), summary];
    } else if intent == Informational {
      assert ss == [intro, StepByStepSection(w, brandName), summary];
    } else {
      assert ss == [intro, summary];
    }
  }

  /** The fixed answers of the FAQ, the first and third after the brand
      name. */
  datatype FaqWording = FaqWording(firstTail: string, second: string, thirdTail: string, fourth: string)

  const StubFaq := FaqWording(
    " combines industry expertise with customer-focused solutions. We prioritize quality, transparency, and results, which is why thousands of customers trust us for their needs.",
    "Getting started is quick and easy. Most customers are up and running within 24-48 hours. Our streamlined onboarding process and dedicated support team ensure a smooth experience.",
    " serves a wide range of customers with varying needs. Our flexible solutions can be tailored to your specific requirements. Contact our team for a personalized assessment.",
    "We offer comprehensive support including 24/7 customer service, detailed documentation, video tutorials, and a dedicated account manager for enterprise customers. Your success is our priority.")

  /** `generateFaqItems`: four fixed questions about the brand. */
  function FaqItems(w: FaqWording, brandName: string): seq<FaqItem>
  {
    [ FaqItem("What makes " + brandName + " different?", brandName + w.firstTail),
      FaqItem("How quickly can I get started with " + brandName + "?", w.second),
      FaqItem("Is " + brandName + " suitable for my specific situation?", brandName + w.thirdTail),
      FaqItem("What kind of support does " + brandName + " provide?", w.fourth) ]
  }

  /** Always four items, every question naming the brand. */
  lemma FaqItemsNameBrand(w: FaqWording, brandName: string)
    ensures |FaqItems(w, brandName)| == 4
    ensures forall i :: 0 <= i < 4 ==> Names(FaqItems(w, brandName)[i].question, brandName)
  {
    NamesAt("What makes ", brandName, " different?");
    NamesAt("How quickly can I get started with ", brandName, "?");
    NamesAt("Is ", brandName, " suitable for my specific situation?");
    NamesAt("What kind of support does ", brandName, " provide?");
  }

  // ---------------------------------------------------------------------
  // Schema blocks and the whole page

  const SchemaContext := "https://schema.org"

  /** `https://<domain>/ai-answers/<slug>`. */
  function CanonicalUrl(brandDomain: string, slug: string): string
  {
    "https://" + brandDomain + "/ai-answers/" + slug
  }

  function Questions(items: seq<FaqItem>): (qs: seq<QuestionEntity>)
    ensures |qs| == |items|
  {
    seq(|items|, i requires 0 <= i < |items| => QuestionEntity(items[i].question, items[i].answer))
  }

  /** `generateSchemaBlocks`; `now` stands for `new Date()`. */
  function SchemaBlocks(title: string, headlineSnippet: string, items: seq<FaqItem>, brandDomain: string, slug: string, now: int): seq<SchemaBlock>
  {
    [ SchemaBlock("FAQPage", FaqPage(SchemaContext, Questions(items))),
      SchemaBlock("WebPage", WebPage(SchemaContext, title, headlineSnippet, CanonicalUrl(brandDomain, slug), now, now)) ]
  }

  /** The FAQPage block lists one question per FAQ item, in order, with its
      answer; the WebPage block carries the title, the snippet, the
      canonical URL `https://<domain>/ai-answers/<slug>` and the generation
      time as both dates. */
  lemma SchemaBlocksShape(title: string, headlineSnippet: string, items: seq<FaqItem>, brandDomain: string, slug: string, now: int)
    ensures var bs := SchemaBlocks(title, headlineSnippet, items, brandDomain, slug, now);
      && |bs| == 2
      && bs[0].schemaType == "FAQPage" && bs[0].code.FaqPage?
      && bs[1].schemaType == "WebPage" && bs[1].code.WebPage?
      && |bs[0].code.mainEntity| == |items|
      && (forall i :: 0 <= i < |items| ==>
            bs[0].code.mainEntity[i].name == items[i].question && bs[0].code.mainEntity[i].acceptedAnswer == items[i].answer)
      && bs[1].code.name == title && bs[1].code.description == headlineSnippet
      && bs[1].code.url == "https://" + brandDomain + "/ai-answers/" + slug
      && bs[1].code.datePublished == now && bs[1].code.dateModified == now
  {
  }

  function IntentOrUnknown(intent: Option<Intent>): Intent
  {
    if intent.Some? then intent.value else UnknownIntent
  }

  /** `generateAnswerContent` over given template texts, without its
      artificial delay. */
  function GenerateWith(t: SnippetTemplates, w: SectionWording, f: FaqWording, input: GenerationInput, now: int): GeneratedContent
  {
    var intent := IntentOrUnknown(input.intent);
    var title := Title(input.question, input.brandName);
    var snippet := HeadlineSnippet(t, input.brandName, intent);
    var faq := FaqItems(f, input.brandName);
    GeneratedContent(
      title,
      snippet,
      Sections(w, input.question, input.brandName, intent, input.existingContentUrl),
      faq,
      SchemaBlocks(title, snippet, faq, input.brandDomain, Slugify(input.question), now))
  }

  /** `generateAnswerContent` with the stub generator's own templates. */
  function GenerateAnswerContent(input: GenerationInput, now: int): GeneratedContent
  {
    GenerateWith(StubSnippets, StubSections, StubFaq, input, now)
  }

  /** A generated page names the brand in its snippet and, in some letter
      case, in its title, has four FAQ items, and its web page block points
      at the question's slug under the brand's domain. */
  lemma GeneratedContentShape(t: SnippetTemplates, w: SectionWording, f: FaqWording, input: GenerationInput, now: int)
    ensures var c := GenerateWith(t, w, f, input, now);
      && Names(c.headlineSnippet, input.brandName)
      && Contains(Lower(c.title), Lower(input.brandName))
      && |c.faqItems| == 4 && |c.schemaBlocks| == 2
      && c.schemaBlocks[1].code.WebPage?
      && c.schemaBlocks[1].code.url == CanonicalUrl(input.brandDomain, Slugify(input.question))
  {
    var c := GenerateWith(t, w, f, input, now);
    var tail := SnippetTail(t, IntentOrUnknown(input.intent));
    assert c.headlineSnippet == HeadlineSnippet(t, input.brandName, IntentOrUnknown(input.intent));
    NamesFirst(input.brandName, tail);
    assert c.title == Title(input.question, input.brandName);
    TitleNamesBrand(input.question, input.brandName);
    assert c.schemaBlocks == SchemaBlocks(c.title, c.headlineSnippet, c.faqItems, input.brandDomain, Slugify(input.question), now);
  }

  /** An informational and a commercial page for the same question differ
      in their snippet and in their second section. */
  lemma IntentsGiveDifferentPages(t: SnippetTemplates, w: SectionWording, f: FaqWording, input: GenerationInput, now: int)
    requires TailsDiffer(t)
    ensures var info := GenerateWith(t, w, f, input.(intent := Some(Informational)), now);
      var comm := GenerateWith(t, w, f, input.(intent := Some(Commercial)), now);
      && info.headlineSnippet != comm.headlineSnippet
      && info.sections[1].kind != comm.sections[1].kind
  {
    var q := input.question;
    var b := input.brandName;
    var u := input.existingContentUrl;
    HeadlineSnippetDistinct(t, b, Informational, Commercial);
    SectionRules(w, q, b, Informational, u);
    SectionRules(w, q, b, Commercial, u);
    assert Sections(w, q, b, Informational, u)[1] == StepByStepSection(w, b);
    assert Sections(w, q, b, Commercial, u)[1] == ComparisonSection(w, b);
  }
}
