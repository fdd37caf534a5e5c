/** The Answer Hub service (lib/answerHub/service.ts): answer prompts of a
    brand, the answer page generated for each prompt with its sections, FAQ
    items and JSON-LD blocks, and the publish, unpublish and edit
    operations on a page. The database is an object whose tables are
    fields; a row's id is its position in its table. */
module AnswerHubService {
  import opened Collections
  import opened AnswerGenerator
  import AiVisibility

  type Id = nat

  datatype PromptStatus = Draft | Generated | Published

  datatype AnswerPrompt = AnswerPrompt(
    brandId: Id,
    question: string,
    slug: string,
    status: PromptStatus,
    intent: Intent,
    priority: int)

  datatype AnswerPage = AnswerPage(
    brandId: Id,
    answerPromptId: Id,
    title: string,
    slug: string,
    urlPath: string,
    headlineSnippet: string,
    metaDescription: Option<string>,
    isPublished: bool,
    publishedAt: Option<int>,
    lastGeneratedAt: int,
    lastEditedAt: Option<int>)

  datatype SectionRow = SectionRow(answerPageId: Id, order: int, heading: string, body: string, kind: string)

  datatype FaqRow = FaqRow(answerPageId: Id, question: string, answer: string)

  datatype SchemaRow = SchemaRow(answerPageId: Id, schemaType: string, code: JsonLd, generatedAt: int)

  datatype HubError = DuplicateSlug | BrandNotFound | PromptNotFound | PageNotFound | WrongBrand

  /** The content generator, from its input and the current time. The
      service calls a templated stub meant to be replaced by a model call,
      so the store takes it as a parameter. */
  type Generator = (GenerationInput, int) -> GeneratedContent

  /** An edited section as the page editor sends it. */
  datatype SectionInput = SectionInput(order: int, heading: string, body: string, kind: string)

  // ---------------------------------------------------------------------
  // Queries and row helpers

  /** A prompt of the brand already has this slug. */
  predicate SlugTaken(prompts: seq<AnswerPrompt>, brandId: Id, slug: string)
  {
    exists i :: 0 <= i < |prompts| && prompts[i].brandId == brandId && prompts[i].slug == slug
  }

  /** The unique constraint on (brand, slug). */
  ghost predicate SlugsUnique(prompts: seq<AnswerPrompt>)
  {
    forall i, j :: 0 <= i < j < |prompts| ==> !(prompts[i].brandId == prompts[j].brandId && prompts[i].slug == prompts[j].slug)
  }

  /** A new prompt with a free slug keeps slugs unique. */
  lemma AddPromptKeepsSlugsUnique(prompts: seq<AnswerPrompt>, p: AnswerPrompt)
    requires SlugsUnique(prompts)
    ensures SlugsUnique(prompts + [p]) <==> !SlugTaken(prompts, p.brandId, p.slug)
  {
    var all := prompts + [p];
    if SlugTaken(prompts, p.brandId, p.slug) {
      var i :| 0 <= i < |prompts| && prompts[i].brandId == p.brandId && prompts[i].slug == p.slug;
      assert all[i] == prompts[i] && all[|prompts|] == p;
    }
  }

  /** Changing a prompt's status keeps slugs unique. */
  lemma StatusChangeKeepsSlugsUnique(prompts: seq<AnswerPrompt>, i: nat, s: PromptStatus)
    requires i < |prompts| && SlugsUnique(prompts)
    ensures SlugsUnique(prompts[i := prompts[i].(status := s)])
  {
    var after := prompts[i := prompts[i].(status := s)];
    forall a, b | 0 <= a < b < |after|
      ensures !(after[a].brandId == after[b].brandId && after[a].slug == after[b].slug)
    {
      assert after[a].brandId == prompts[a].brandId && after[a].slug == prompts[a].slug;
      assert after[b].brandId == prompts[b].brandId && after[b].slug == prompts[b].slug;
    }
  }

  /** `findUnique({ where: { answerPromptId } })`: the page of a prompt. */
  function PageOf(pages: seq<AnswerPage>, promptId: Id): (r: Option<Id>)
    ensures r.Some? ==> r.value < |pages| && pages[r.value].answerPromptId == promptId
    ensures r.None? ==> forall p :: 0 <= p < |pages| ==> pages[p].answerPromptId != promptId
    decreases |pages|
  {
    if pages == [] then None
    else if pages[|pages| - 1].answerPromptId == promptId then Some(|pages| - 1)
    else PageOf(pages[..|pages| - 1], promptId)
  }

  /** Each prompt has at most one page. */
  ghost predicate OnePagePerPrompt(pages: seq<AnswerPage>)
  {
    forall p, q :: 0 <= p < q < |pages| ==> pages[p].answerPromptId != pages[q].answerPromptId
  }

  function UrlPath(slug: string): string
  {
    "/ai-answers/" + slug
  }

  /** A page belongs to an existing prompt of its brand and carries that
      prompt's slug in its URL. */
  ghost predicate PageFits(page: AnswerPage, prompts: seq<AnswerPrompt>)
  {
    && page.answerPromptId < |prompts|
    && page.brandId == prompts[page.answerPromptId].brandId
    && page.slug == prompts[page.answerPromptId].slug
    && page.urlPath == UrlPath(page.slug)
  }

  ghost predicate AllFit(pages: seq<AnswerPage>, prompts: seq<AnswerPrompt>)
  {
    forall p :: 0 <= p < |pages| ==> PageFits(pages[p], prompts)
  }

  function OnPage<T>(pageOf: T -> Id, p: Id): T -> bool
  {
    (r: T) => pageOf(r) == p
  }

  function OffPage<T>(pageOf: T -> Id, p: Id): T -> bool
  {
    (r: T) => pageOf(r) != p
  }

  /** The rows of page `p`, in table order. */
  function RowsOf<T>(rows: seq<T>, pageOf: T -> Id, p: Id): seq<T>
  {
    Filter(rows, OnPage(pageOf, p))
  }

  /** `deleteMany({ where: { answerPageId: p } })`. */
  function Without<T>(rows: seq<T>, pageOf: T -> Id, p: Id): seq<T>
  {
    Filter(rows, OffPage(pageOf, p))
  }

  ghost predicate AllOnPage<T>(rows: seq<T>, pageOf: T -> Id, p: Id)
  {
    forall k :: 0 <= k < |rows| ==> pageOf(rows[k]) == p
  }

  ghost predicate RowsBelow<T>(rows: seq<T>, pageOf: T -> Id, n: nat)
  {
    forall k :: 0 <= k < |rows| ==> pageOf(rows[k]) < n
  }

  /** Rows of page `q` are untouched by deleting the rows of page `p`. */
  lemma {:induction false} WithoutKeepsOthers<T(!new)>(rows: seq<T>, pageOf: T -> Id, p: Id, q: Id)
    requires p != q
    ensures RowsOf(Without(rows, pageOf, p), pageOf, q) == RowsOf(rows, pageOf, q)
    ensures RowsOf(Without(rows, pageOf, p), pageOf, p) == []
    decreases |rows|
  {
    if rows != [] {
      var rest := rows[1..];
      WithoutKeepsOthers(rest, pageOf, p, q);
      var head := if pageOf(rows[0]) != p then [rows[0]] else [];
      assert Without(rows, pageOf, p) == head + Without(rest, pageOf, p);
      FilterConcat(head, Without(rest, pageOf, p), OnPage(pageOf, q));
      FilterConcat(head, Without(rest, pageOf, p), OnPage(pageOf, p));
      if head != [] {
        FilterSingle(rows[0], OnPage(pageOf, q));
        FilterSingle(rows[0], OnPage(pageOf, p));
      }
      assert RowsOf(rows, pageOf, q) == (if pageOf(rows[0]) == q then [rows[0]] else []) + RowsOf(rest, pageOf, q);
    }
  }

  /** Replacing a page's rows: the page then has exactly the new rows, in
      order, and every other page keeps its rows. */
  lemma ReplaceRows<T(!new)>(rows: seq<T>, pageOf: T -> Id, p: Id, added: seq<T>)
    requires AllOnPage(added, pageOf, p)
    ensures RowsOf(Without(rows, pageOf, p) + added, pageOf, p) == added
    ensures forall q :: q != p ==> RowsOf(Without(rows, pageOf, p) + added, pageOf, q) == RowsOf(rows, pageOf, q)
  {
    var kept := Without(rows, pageOf, p);
    FilterConcat(kept, added, OnPage(pageOf, p));
    FilterKeepsAll(added, OnPage(pageOf, p));
    if p + 1 != p {
      WithoutKeepsOthers(rows, pageOf, p, p + 1);
    }
    forall q | q != p
      ensures RowsOf(kept + added, pageOf, q) == RowsOf(rows, pageOf, q)
    {
      FilterConcat(kept, added, OnPage(pageOf, q));
      WithoutKeepsOthers(rows, pageOf, p, q);
      NoneOnPage(added, pageOf, p, q);
    }
  }

  lemma {:induction false} NoneOnPage<T>(rows: seq<T>, pageOf: T -> Id, p: Id, q: Id)
    requires AllOnPage(rows, pageOf, p) && p != q
    ensures RowsOf(rows, pageOf, q) == []
    decreases |rows|
  {
    if rows != [] {
      NoneOnPage(rows[1..], pageOf, p, q);
    }
  }

  /** A page id no row uses has no rows to delete. */
  lemma {:induction false} WithoutFresh<T>(rows: seq<T>, pageOf: T -> Id, n: nat)
    requires RowsBelow(rows, pageOf, n)
    ensures Without(rows, pageOf, n) == rows
    ensures RowsOf(rows, pageOf, n) == []
    decreases |rows|
  {
    if rows != [] {
      WithoutFresh(rows[1..], pageOf, n);
    }
  }

  /** Deleting rows keeps the remaining ones on existing pages. */
  lemma {:induction false} WithoutBelow<T>(rows: seq<T>, pageOf: T -> Id, p: Id, n: nat)
    requires RowsBelow(rows, pageOf, n)
    ensures RowsBelow(Without(rows, pageOf, p), pageOf, n)
    decreases |rows|
  {
    if rows != [] {
      WithoutBelow(rows[1..], pageOf, p, n);
      var head := if pageOf(rows[0]) != p then [rows[0]] else [];
      assert Without(rows, pageOf, p) == head + Without(rows[1..], pageOf, p);
    }
  }

  /** Deleting and appending rows of an existing page keeps every row on
      an existing page. */
  lemma RowsBelowAfter<T>(rows: seq<T>, pageOf: T -> Id, p: Id, added: seq<T>, n: nat)
    requires RowsBelow(rows, pageOf, n) && AllOnPage(added, pageOf, p) && p < n
    ensures RowsBelow(Without(rows, pageOf, p) + added, pageOf, n)
    ensures RowsBelow(rows + added, pageOf, n)
  {
    WithoutBelow(rows, pageOf, p, n);
  }

  lemma RowsBelowGrow<T>(rows: seq<T>, pageOf: T -> Id, n: nat, m: nat)
    requires RowsBelow(rows, pageOf, n) && n <= m
    ensures RowsBelow(rows, pageOf, m)
  {
  }

  function SectionPage(r: SectionRow): Id { r.answerPageId }

  function FaqPageId(r: FaqRow): Id { r.answerPageId }

  function SchemaPage(r: SchemaRow): Id { r.answerPageId }

  /** The stored name of a section type. */
  function TypeName(t: SectionType): string
  {
    match t
    case Intro => "INTRO"
    case Faq => "FAQ"
    case StepByStep => "STEP_BY_STEP"
    case Comparison => "COMPARISON"
    case Summary => "SUMMARY"
    case OtherSection => "OTHER"
  }

  /** The rows created for generated sections: `order` is the position. */
  function GeneratedSectionRows(pageId: Id, sections: seq<Section>): (rows: seq<SectionRow>)
    ensures |rows| == |sections|
    ensures AllOnPage(rows, SectionPage, pageId)
  {
    seq(|sections|, i requires 0 <= i < |sections| =>
      SectionRow(pageId, i, sections[i].heading, sections[i].body, TypeName(sections[i].kind)))
  }

  /** The rows created for FAQ items, generated or edited alike. */
  function FaqRows(pageId: Id, items: seq<FaqItem>): (rows: seq<FaqRow>)
    ensures |rows| == |items|
    ensures AllOnPage(rows, FaqPageId, pageId)
  {
    seq(|items|, i requires 0 <= i < |items| => FaqRow(pageId, items[i].question, items[i].answer))
  }

  function GeneratedSchemaRows(pageId: Id, blocks: seq<SchemaBlock>, now: int): (rows: seq<SchemaRow>)
    ensures |rows| == |blocks|
    ensures AllOnPage(rows, SchemaPage, pageId)
  {
    seq(|blocks|, i requires 0 <= i < |blocks| => SchemaRow(pageId, blocks[i].schemaType, blocks[i].code, now))
  }

  /** The rows created for edited sections keep the editor's `order`. */
  function EditedSectionRows(pageId: Id, sections: seq<SectionInput>): (rows: seq<SectionRow>)
    ensures |rows| == |sections|
    ensures AllOnPage(rows, SectionPage, pageId)
  {
    seq(|sections|, i requires 0 <= i < |sections| =>
      SectionRow(pageId, sections[i].order, sections[i].heading, sections[i].body, sections[i].kind))
  }

  /** The stored sections of a generated page list the generated sections
      in order, each with its position as `order`. */
  lemma GeneratedSectionsInOrder(pageId: Id, sections: seq<Section>)
    ensures var rows := GeneratedSectionRows(pageId, sections);
      forall i :: 0 <= i < |rows| ==>
        rows[i].order == i && rows[i].heading == sections[i].heading && rows[i].body == sections[i].body
        && rows[i].kind == TypeName(sections[i].kind)
  {
  }

  /** With any section wording, a generated page's stored sections run
      from an INTRO row to a SUMMARY row, with a COMPARISON row exactly for
      commercial and transactional prompts. */
  lemma GeneratedPageSections(w: SectionWording, pageId: Id, question: string, brandName: string, intent: Intent)
    ensures var rows := GeneratedSectionRows(pageId, Sections(w, question, brandName, intent, None));
      && rows[0].kind == "INTRO" && rows[|rows| - 1].kind == "SUMMARY"
      && rows[0].order == 0 && rows[|rows| - 1].order == |rows| - 1
      && ((exists i :: 0 <= i < |rows| && rows[i].kind == "COMPARISON") <==> intent == Commercial || intent == Transactional)
  {
    var ss := Sections(w, question, brandName, intent, None);
    var rows := GeneratedSectionRows(pageId, ss);
    SectionRules(w, question, brandName, intent, None);
    if exists i :: 0 <= i < |rows| && rows[i].kind == "COMPARISON" {
      var i :| 0 <= i < |rows| && rows[i].kind == "COMPARISON";
      assert TypeName(ss[i].kind) == "COMPARISON";
      assert ss[i].kind == Comparison;
      assert Kinds(ss)[i] == Comparison;
    }
    if intent == Commercial || intent == Transactional {
      var i :| 0 <= i < |Kinds(ss)| && Kinds(ss)[i] == Comparison;
      assert rows[i].kind == "COMPARISON";
    }
  }

  /** What a generation run does to the prompt's status. */
  function AfterGeneration(s: PromptStatus): PromptStatus
  {
    if s == Draft then Generated else s
  }

  /** Generation moves a draft on and never takes a prompt back: afterwards
      it is not a draft, and a generated or published prompt keeps its
      status. */
  lemma AfterGenerationStatus(s: PromptStatus)
    ensures AfterGeneration(s) != Draft
    ensures s != Draft ==> AfterGeneration(s) == s
    ensures AfterGeneration(AfterGeneration(s)) == AfterGeneration(s)
  {
  }

  /** The basic-field part of `updateAnswerPage`: title and snippet change
      only for a non-empty value, the description for any given value, and
      the edit time always. */
  function Edited(page: AnswerPage, title: Option<string>, headlineSnippet: Option<string>, metaDescription: Option<string>, now: int): (r: AnswerPage)
  {
    page.(
      title := if title.Some? && title.value != "" then title.value else page.title,
      headlineSnippet := if headlineSnippet.Some? && headlineSnippet.value != "" then headlineSnippet.value else page.headlineSnippet,
      metaDescription := if metaDescription.Some? then metaDescription else page.metaDescription,
      lastEditedAt := Some(now))
  }

  /** An edit touches only the edited fields, and repeating it changes
      nothing more. */
  lemma EditedFields(page: AnswerPage, title: Option<string>, headlineSnippet: Option<string>, metaDescription: Option<string>, now: int)
    ensures var r := Edited(page, title, headlineSnippet, metaDescription, now);
      && (r.title != page.title ==> title == Some(r.title) && r.title != "")
      && (r.headlineSnippet != page.headlineSnippet ==> headlineSnippet == Some(r.headlineSnippet) && r.headlineSnippet != "")
      && (metaDescription.Some? ==> r.metaDescription == metaDescription)
      && (metaDescription.None? ==> r.metaDescription == page.metaDescription)
      && r.lastEditedAt == Some(now)
      && r.(title := page.title, headlineSnippet := page.headlineSnippet, metaDescription := page.metaDescription, lastEditedAt := page.lastEditedAt) == page
      && Edited(r, title, headlineSnippet, metaDescription, now) == r
  {
  }

  /** The generator's input for a prompt of a brand. */
  function InputFor(brand: AiVisibility.Brand, prompt: AnswerPrompt): GenerationInput
  {
    GenerationInput(brand.name, brand.primaryDomain, prompt.question, None, Some(prompt.intent))
  }

  // ---------------------------------------------------------------------
  // The store

  class AnswerHubStore {
    var brands: map<Id, AiVisibility.Brand>
    var prompts: seq<AnswerPrompt>
    var pages: seq<AnswerPage>
    var sections: seq<SectionRow>
    var faqItems: seq<FaqRow>
    var schemaBlocks: seq<SchemaRow>

    ghost predicate Valid()
      reads this
    {
      PromptsValid() && PagesValid() && RowsValid()
    }

    /** Every prompt is of a known brand, and slugs are unique per brand. */
    ghost predicate PromptsValid()
      reads this`brands, this`prompts
    {
      (forall i :: 0 <= i < |prompts| ==> prompts[i].brandId in brands) && SlugsUnique(prompts)
    }

    /** Every page fits its prompt, and no prompt has two pages. */
    ghost predicate PagesValid()
      reads this`prompts, this`pages
    {
      AllFit(pages, prompts) && OnePagePerPrompt(pages)
    }

    /** Every section, FAQ item and schema block is of an existing page. */
    ghost predicate RowsValid()
      reads this`pages, this`sections, this`faqItems, this`schemaBlocks
    {
      && RowsBelow(sections, SectionPage, |pages|)
      && RowsBelow(faqItems, FaqPageId, |pages|)
      && RowsBelow(schemaBlocks, SchemaPage, |pages|)
    }

    constructor (brands: map<Id, AiVisibility.Brand>)
      ensures Valid()
      ensures this.brands == brands
      ensures prompts == [] && pages == [] && sections == [] && faqItems == [] && schemaBlocks == []
    {
      this.brands := brands;
      prompts := [];
      pages := [];
      sections := [];
      faqItems := [];
      schemaBlocks := [];
    }

    /** `createAnswerPromptForBrand`: refuses a question whose slug the
        brand already uses; otherwise adds a draft prompt, of unknown intent
        and priority 0 unless given. */
    method CreatePrompt(brandId: Id, question: string, intent: Option<Intent>, priority: Option<int>) returns (r: Result<Id, HubError>)
      requires Valid()
      modifies this`prompts
      ensures Valid()
      ensures SlugTaken(old(prompts), brandId, Slugify(question)) ==> r == Err(DuplicateSlug) && prompts == old(prompts)
      ensures !SlugTaken(old(prompts), brandId, Slugify(question)) && brandId !in brands ==> r == Err(BrandNotFound) && prompts == old(prompts)
      ensures !SlugTaken(old(prompts), brandId, Slugify(question)) && brandId in brands ==>
        && r == Ok(|old(prompts)|)
        && prompts == old(prompts) + [AnswerPrompt(brandId, question, Slugify(question), Draft,
                                                   IntentOrUnknown(intent), if priority.Some? then priority.value else 0)]
    {
      var slug := Slugify(question);
      if SlugTaken(prompts, brandId, slug) {
        return Err(DuplicateSlug);
      }
      if brandId !in brands {
        return Err(BrandNotFound);
      }
      var p := AnswerPrompt(brandId, question, slug, Draft, IntentOrUnknown(intent), if priority.Some? then priority.value else 0);
      AddPromptKeepsSlugsUnique(prompts, p);
      AddPromptKeepsFit(pages, prompts, p);
      prompts := prompts + [p];
      r := Ok(|prompts| - 1);
    }

    /** `generateOrRegenerateAnswerPageForPrompt`: fails before any write
        when the prompt is missing or of another brand; otherwise generates
        the content, creates the page or updates its title, snippet and
        generation time, replaces its sections, FAQ items and schema blocks
        by the generated ones, and moves a draft prompt to GENERATED. */
    method GeneratePage(brandId: Id, promptId: Id, generate: Generator, now: int) returns (r: Result<Id, HubError>)
      requires Valid()
      modifies this`prompts, this`pages, this`sections, this`faqItems, this`schemaBlocks
      ensures Valid()
      ensures promptId >= |old(prompts)| ==> r == Err(PromptNotFound) && unchanged(this)
      ensures promptId < |old(prompts)| && old(prompts)[promptId].brandId != brandId ==> r == Err(WrongBrand) && unchanged(this)
      ensures promptId < |old(prompts)| && old(prompts)[promptId].brandId == brandId ==>
        var prompt := old(prompts)[promptId];
        var content := generate(InputFor(old(brands)[brandId], prompt), now);
        var existing := PageOf(old(pages), promptId);
        && r.Ok?
        && r.value == (if existing.Some? then existing.value else |old(pages)|)
        && r.value < |pages|
        && pages[r.value].title == content.title
        && pages[r.value].headlineSnippet == content.headlineSnippet
        && pages[r.value].lastGeneratedAt == now
        && (existing.Some? ==> pages == old(pages)[r.value := old(pages)[r.value].(title := content.title, headlineSnippet := content.headlineSnippet, lastGeneratedAt := now)])
        && (existing.None? ==> pages == old(pages) + [AnswerPage(brandId, promptId, content.title, prompt.slug, UrlPath(prompt.slug),
                                                                content.headlineSnippet, None, false, None, now, None)])
        && sections == Without(old(sections), SectionPage, r.value) + GeneratedSectionRows(r.value, content.sections)
        && faqItems == Without(old(faqItems), FaqPageId, r.value) + FaqRows(r.value, content.faqItems)
        && schemaBlocks == Without(old(schemaBlocks), SchemaPage, r.value) + GeneratedSchemaRows(r.value, content.schemaBlocks, now)
        && prompts == old(prompts)[promptId := prompt.(status := AfterGeneration(prompt.status))]
    {
      if promptId >= |prompts| {
        return Err(PromptNotFound);
      }
      var prompt := prompts[promptId];
      if prompt.brandId != brandId {
        return Err(WrongBrand);
      }
      var content := generate(InputFor(brands[brandId], prompt), now);
      var existing := PageOf(pages, promptId);
      var pageId: Id;
      var prompts' := prompts[promptId := prompt.(status := AfterGeneration(prompt.status))];
      StatusChangeKeepsSlugsUnique(prompts, promptId, AfterGeneration(prompt.status));
      StatusKeepsFit(pages, prompts, promptId, AfterGeneration(prompt.status));
      if existing.Some? {
        pageId := existing.value;
        var updated := pages[pageId].(title := content.title, headlineSnippet := content.headlineSnippet, lastGeneratedAt := now);
        PageFieldsKeepFit(pages, pageId, updated, prompts');
        pages := pages[pageId := updated];
      } else {
        pageId := |pages|;
        var created := AnswerPage(brandId, promptId, content.title, prompt.slug, UrlPath(prompt.slug),
                                  content.headlineSnippet, None, false, None, now, None);
        AddPageKeepsFit(pages, created, prompts');
        RowsBelowGrow(sections, SectionPage, |pages|, |pages| + 1);
        RowsBelowGrow(faqItems, FaqPageId, |pages|, |pages| + 1);
        RowsBelowGrow(schemaBlocks, SchemaPage, |pages|, |pages| + 1);
        pages := pages + [created];
      }
      prompts := prompts';
      ReplaceContent(pageId, content, now);
      r := Ok(pageId);
    }

    /** Deletes a page's sections, FAQ items and schema blocks and stores
        the generated ones in their place. */
    method ReplaceContent(pageId: Id, content: GeneratedContent, now: int)
      requires RowsValid() && pageId < |pages|
      modifies this`sections, this`faqItems, this`schemaBlocks
      ensures RowsValid()
      ensures sections == Without(old(sections), SectionPage, pageId) + GeneratedSectionRows(pageId, content.sections)
      ensures faqItems == Without(old(faqItems), FaqPageId, pageId) + FaqRows(pageId, content.faqItems)
      ensures schemaBlocks == Without(old(schemaBlocks), SchemaPage, pageId) + GeneratedSchemaRows(pageId, content.schemaBlocks, now)
    {
      RowsBelowAfter(sections, SectionPage, pageId, GeneratedSectionRows(pageId, content.sections), |pages|);
      RowsBelowAfter(faqItems, FaqPageId, pageId, FaqRows(pageId, content.faqItems), |pages|);
      RowsBelowAfter(schemaBlocks, SchemaPage, pageId, GeneratedSchemaRows(pageId, content.schemaBlocks, now), |pages|);
      sections := Without(sections, SectionPage, pageId) + GeneratedSectionRows(pageId, content.sections);
      faqItems := Without(faqItems, FaqPageId, pageId) + FaqRows(pageId, content.faqItems);
      schemaBlocks := Without(schemaBlocks, SchemaPage, pageId) + GeneratedSchemaRows(pageId, content.schemaBlocks, now);
    }

    /** `publishAnswerPage`: fails on a missing page or another brand's
        page; otherwise marks the page published at `now` and its prompt
        PUBLISHED, and returns the page. */
    method Publish(brandId: Id, pageId: Id, now: int) returns (r: Result<AnswerPage, HubError>)
      requires Valid()
      modifies this`pages, this`prompts
      ensures Valid()
      ensures pageId >= |old(pages)| ==> r == Err(PageNotFound) && unchanged(this)
      ensures pageId < |old(pages)| && old(pages)[pageId].brandId != brandId ==> r == Err(WrongBrand) && unchanged(this)
      ensures pageId < |old(pages)| && old(pages)[pageId].brandId == brandId ==>
        var page := old(pages)[pageId];
        && r == Ok(page.(isPublished := true, publishedAt := Some(now)))
        && pages == old(pages)[pageId := r.value]
        && prompts == old(prompts)[page.answerPromptId := old(prompts)[page.answerPromptId].(status := Published)]
    {
      if pageId >= |pages| {
        return Err(PageNotFound);
      }
      var page := pages[pageId];
      if page.brandId != brandId {
        return Err(WrongBrand);
      }
      var updated := page.(isPublished := true, publishedAt := Some(now));
      StatusChangeKeepsSlugsUnique(prompts, page.answerPromptId, Published);
      StatusKeepsFit(pages, prompts, page.answerPromptId, Published);
      prompts := prompts[page.answerPromptId := prompts[page.answerPromptId].(status := Published)];
      PageFieldsKeepFit(pages, pageId, updated, prompts);
      pages := pages[pageId := updated];
      r := Ok(updated);
    }

    /** `unpublishAnswerPage`: fails on a missing page or another brand's
        page; otherwise marks the page unpublished and its prompt back to
        GENERATED, and returns the page. */
    method Unpublish(brandId: Id, pageId: Id) returns (r: Result<AnswerPage, HubError>)
      requires Valid()
      modifies this`pages, this`prompts
      ensures Valid()
      ensures pageId >= |old(pages)| ==> r == Err(PageNotFound) && unchanged(this)
      ensures pageId < |old(pages)| && old(pages)[pageId].brandId != brandId ==> r == Err(WrongBrand) && unchanged(this)
      ensures pageId < |old(pages)| && old(pages)[pageId].brandId == brandId ==>
        var page := old(pages)[pageId];
        && r == Ok(page.(isPublished := false))
        && pages == old(pages)[pageId := r.value]
        && prompts == old(prompts)[page.answerPromptId := old(prompts)[page.answerPromptId].(status := Generated)]
    {
      if pageId >= |pages| {
        return Err(PageNotFound);
      }
      var page := pages[pageId];
      if page.brandId != brandId {
        return Err(WrongBrand);
      }
      var updated := page.(isPublished := false);
      StatusChangeKeepsSlugsUnique(prompts, page.answerPromptId, Generated);
      StatusKeepsFit(pages, prompts, page.answerPromptId, Generated);
      prompts := prompts[page.answerPromptId := prompts[page.answerPromptId].(status := Generated)];
      PageFieldsKeepFit(pages, pageId, updated, prompts);
      pages := pages[pageId := updated];
      r := Ok(updated);
    }

    /** `updateAnswerPage`: fails on a missing page or another brand's
        page; otherwise applies the basic-field edit and, for each list
        given (an empty list included), replaces the page's sections or
        FAQ items by it; returns the edited page. */
    method UpdatePage(brandId: Id, pageId: Id, title: Option<string>, headlineSnippet: Option<string>, metaDescription: Option<string>,
                      newSections: Option<seq<SectionInput>>, newFaqItems: Option<seq<FaqItem>>, now: int)
      returns (r: Result<AnswerPage, HubError>)
      requires Valid()
      modifies this`pages, this`sections, this`faqItems
      ensures Valid()
      ensures pageId >= |old(pages)| ==> r == Err(PageNotFound) && unchanged(this)
      ensures pageId < |old(pages)| && old(pages)[pageId].brandId != brandId ==> r == Err(WrongBrand) && unchanged(this)
      ensures pageId < |old(pages)| && old(pages)[pageId].brandId == brandId ==>
        && r == Ok(Edited(old(pages)[pageId], title, headlineSnippet, metaDescription, now))
        && pages == old(pages)[pageId := r.value]
        && sections == (if newSections.Some? then Without(old(sections), SectionPage, pageId) + EditedSectionRows(pageId, newSections.value) else old(sections))
        && faqItems == (if newFaqItems.Some? then Without(old(faqItems), FaqPageId, pageId) + FaqRows(pageId, newFaqItems.value) else old(faqItems))
    {
      if pageId >= |pages| {
        return Err(PageNotFound);
      }
      var page := pages[pageId];
      if page.brandId != brandId {
        return Err(WrongBrand);
      }
      var updated := Edited(page, title, headlineSnippet, metaDescription, now);
      PageFieldsKeepFit(pages, pageId, updated, prompts);
      pages := pages[pageId := updated];
      if newSections.Some? {
        RowsBelowAfter(sections, SectionPage, pageId, EditedSectionRows(pageId, newSections.value), |pages|);
        sections := Without(sections, SectionPage, pageId) + EditedSectionRows(pageId, newSections.value);
      }
      if newFaqItems.Some? {
        RowsBelowAfter(faqItems, FaqPageId, pageId, FaqRows(pageId, newFaqItems.value), |pages|);
        faqItems := Without(faqItems, FaqPageId, pageId) + FaqRows(pageId, newFaqItems.value);
      }
      r := Ok(updated);
    }
  }

  /** Changing a prompt's status keeps every page fitting its prompt. */
  lemma StatusKeepsFit(pages: seq<AnswerPage>, prompts: seq<AnswerPrompt>, i: nat, s: PromptStatus)
    requires i < |prompts| && AllFit(pages, prompts)
    ensures AllFit(pages, prompts[i := prompts[i].(status := s)])
  {
    var after := prompts[i := prompts[i].(status := s)];
    forall p | 0 <= p < |pages|
      ensures PageFits(pages[p], after)
    {
      assert PageFits(pages[p], prompts);
      var j := pages[p].answerPromptId;
      assert after[j].brandId == prompts[j].brandId && after[j].slug == prompts[j].slug;
    }
  }

  /** A new prompt leaves every page fitting its prompt. */
  lemma AddPromptKeepsFit(pages: seq<AnswerPage>, prompts: seq<AnswerPrompt>, p: AnswerPrompt)
    requires AllFit(pages, prompts)
    ensures AllFit(pages, prompts + [p])
  {
    forall q | 0 <= q < |pages|
      ensures PageFits(pages[q], prompts + [p])
    {
      assert PageFits(pages[q], prompts);
      assert (prompts + [p])[pages[q].answerPromptId] == prompts[pages[q].answerPromptId];
    }
  }

  /** Replacing one page by a copy with the same prompt, brand, slug and
      path keeps every page fitting its prompt and one page per prompt. */
  lemma PageFieldsKeepFit(pages: seq<AnswerPage>, p: nat, page: AnswerPage, prompts: seq<AnswerPrompt>)
    requires p < |pages| && AllFit(pages, prompts) && OnePagePerPrompt(pages)
    requires page.answerPromptId == pages[p].answerPromptId && page.brandId == pages[p].brandId
    requires page.slug == pages[p].slug && page.urlPath == pages[p].urlPath
    ensures AllFit(pages[p := page], prompts)
    ensures OnePagePerPrompt(pages[p := page])
  {
    var after := pages[p := page];
    forall q | 0 <= q < |after|
      ensures PageFits(after[q], prompts)
    {
      assert PageFits(pages[q], prompts);
    }
    forall a, b | 0 <= a < b < |after|
      ensures after[a].answerPromptId != after[b].answerPromptId
    {
      assert after[a].answerPromptId == pages[a].answerPromptId;
      assert after[b].answerPromptId == pages[b].answerPromptId;
    }
  }

  /** A new page for a prompt that has none keeps the page invariant
      exactly when it fits its prompt. */
  lemma AddPageKeepsFit(pages: seq<AnswerPage>, page: AnswerPage, prompts: seq<AnswerPrompt>)
    requires AllFit(pages, prompts) && OnePagePerPrompt(pages)
    requires PageOf(pages, page.answerPromptId).None?
    ensures AllFit(pages + [page], prompts) <==> PageFits(page, prompts)
    ensures OnePagePerPrompt(pages + [page])
  {
    var after := pages + [page];
    assert after[|pages|] == page;
    if PageFits(page, prompts) {
      forall q | 0 <= q < |after|
        ensures PageFits(after[q], prompts)
      {
        if q < |pages| {
          assert after[q] == pages[q];
        }
      }
    }
    forall a, b | 0 <= a < b < |after|
      ensures after[a].answerPromptId != after[b].answerPromptId
    {
      assert after[a] == pages[a];
      if b < |pages| {
        assert after[b] == pages[b];
      }
    }
  }

  /** After a generation run the page has exactly the generated sections,
      FAQ items and schema blocks, and every other page keeps its own. */
  lemma RegeneratedPageRows(sections: seq<SectionRow>, faqItems: seq<FaqRow>, schemaBlocks: seq<SchemaRow>, pageId: Id, content: GeneratedContent, now: int)
    ensures var s := Without(sections, SectionPage, pageId) + GeneratedSectionRows(pageId, content.sections);
      && RowsOf(s, SectionPage, pageId) == GeneratedSectionRows(pageId, content.sections)
      && forall q :: q != pageId ==> RowsOf(s, SectionPage, q) == RowsOf(sections, SectionPage, q)
    ensures var f := Without(faqItems, FaqPageId, pageId) + FaqRows(pageId, content.faqItems);
      && RowsOf(f, FaqPageId, pageId) == FaqRows(pageId, content.faqItems)
      && forall q :: q != pageId ==> RowsOf(f, FaqPageId, q) == RowsOf(faqItems, FaqPageId, q)
    ensures var b := Without(schemaBlocks, SchemaPage, pageId) + GeneratedSchemaRows(pageId, content.schemaBlocks, now);
      && RowsOf(b, SchemaPage, pageId) == GeneratedSchemaRows(pageId, content.schemaBlocks, now)
      && forall q :: q != pageId ==> RowsOf(b, SchemaPage, q) == RowsOf(schemaBlocks, SchemaPage, q)
  {
    ReplaceRows(sections, SectionPage, pageId, GeneratedSectionRows(pageId, content.sections));
    ReplaceRows(faqItems, FaqPageId, pageId, FaqRows(pageId, content.faqItems));
    ReplaceRows(schemaBlocks, SchemaPage, pageId, GeneratedSchemaRows(pageId, content.schemaBlocks, now));
  }
}
