# AI-visibility dashboard: a verified model of its core

This project models the logic of an AI-visibility dashboard, a web
application that keeps track of how often AI engines mention a brand and
that writes "answer pages" meant to be quoted by those engines. The model
covers three library modules and the small pure helpers of five pages.

- **AI-visibility engine** (`lib/aiVisibility.ts`):
  - the keyword sentiment heuristic and the mention extractor (module `AiMentions`);
  - the poll over every active prompt and every engine, and the daily snapshot rollup (module `AiVisibility`). Both are methods of a class `VisibilityStore` whose fields are the database tables: brands, competitors, prompts, engines, answers, mentions and snapshots;
  - the 30-day overview (module `VisibilityOverview`).
- **Answer Hub generator** (`lib/answerHub/generator.ts`, module `AnswerGenerator`): the slug, the title, the headline snippet, the section list, the four FAQ items and the two JSON-LD blocks. The template texts are held in wording records. Every template property is proved for any wording, and the stub generator's own templates are the records `StubSnippets`, `StubSections` and `StubFaq`.
- **Answer Hub service** (`lib/answerHub/service.ts`, module `AnswerHubService`): a class `AnswerHubStore` with tables of prompts, pages, sections, FAQ items and schema blocks. Its methods create a prompt, generate or regenerate a page, publish, unpublish and edit it.
- **Page helpers:**
  - `formatUrl` and the submit guard of the quick scan (`QuickScan`);
  - the score label, colour and bucket filter of the audit history (`AuditHistory`);
  - the search filters and colour maps of the reports, citations and playbooks pages (`ReportsPage`, `CitationsPage`, `PlaybooksPage`).

Two shared modules hold the building blocks:

- `Collections`: `Option`, `Result`, the order-preserving `Filter`, subsequences and the sum of a counter map.
- `Text`: ASCII lowercasing, substring search, whitespace trimming, and splitting on a character.

How the database is represented:

- Each table is a field of type `seq` or `map`.
- A row's id is its position in its table, as an auto-increment key would be.
- Snapshot rows are a map keyed by (brand, engine, day), so an upsert is a map update.
- The engine fetcher and the content generator are function parameters.
- The current time and the current day are integer parameters.

## Model

| member | source | states |
|---|---|---|
| AiMentions.FindContainingFirst | lib/aiVisibility.ts:48 | `find` yields the index of the first part that contains the term, or nothing when no part contains it |
| AiMentions.SentenceChoice | lib/aiVisibility.ts:44-48 | the inspected sentence is the first `.`-segment of the lowercased text that contains the lowercased entity; it is the whole lowercased text when that segment is empty or no segment contains the entity |
| AiMentions.SentimentRule | lib/aiVisibility.ts:50-56 | positive exactly when a positive word occurs in the sentence, negative exactly when no positive word and some negative word occurs, neutral exactly when neither occurs |
| AiMentions.PositiveExample | lib/aiVisibility.test.ts:10-12 | "I love Acme Corp, it is excellent." is positive about "Acme Corp" |
| AiMentions.NegativeExample | lib/aiVisibility.test.ts:14-16 | "Acme Corp is too expensive and slow." is negative about "Acme Corp" |
| AiMentions.NeutralExample | lib/aiVisibility.test.ts:18-20 | "Acme Corp is a company." is neutral about "Acme Corp" |
| AiMentions.SentenceWithoutPeriod | lib/aiVisibility.ts:44-48 | a text without a period is inspected whole |
| AiMentions.SentenceIgnoresLaterText | lib/aiVisibility.ts:47-56 | when the first segment mentions the entity, the sentence and the sentiment ignore everything after the first period |
| AiMentions.ExtractMentions | lib/aiVisibility.ts:62-89 | the loop returns the brand mention if any, then one mention per competitor found, in order; at most 1 + the number of competitors |
| AiMentions.CompetitorMentionsAreFiltered | lib/aiVisibility.ts:77-86 | the competitor mentions are exactly the competitors the answer mentions, in the supplied order, as drafts |
| AiMentions.CompetitorMentionsKinds | lib/aiVisibility.ts:77-86 | at most one competitor mention per competitor, each of kind competitor |
| AiMentions.CompetitorMentionsMembers | lib/aiVisibility.ts:77-86 | a competitor's draft is in the result iff that competitor is supplied and mentioned in the answer |
| AiMentions.MentionsShape | lib/aiVisibility.ts:63-88 | a brand mention exists iff the answer contains the brand, and then it comes first; every other mention is a competitor; at most 1 + the number of competitors |
| AiMentions.CompetitorMentionIff | lib/aiVisibility.ts:78-84 | a supplied competitor gets its mention, flagged only by "recommend <name>", iff the lowercased answer contains its lowercased name |
| AiMentions.MentionsSound | lib/aiVisibility.ts:67-86 | every mention names an entity the answer contains, carries the heuristic's sentiment for it, and is the brand's mention or that of a supplied competitor, the name kept as given |
| AiMentions.CompetitorOrderPreserved | lib/aiVisibility.ts:77 | the competitors named in the result are a subsequence of the supplied list |
| AiVisibility.CompetitorNames | lib/aiVisibility.ts:105 | a name is listed iff the brand has a competitor of that name |
| AiVisibility.VisibilityStore.RunPoll | lib/aiVisibility.ts:94-145 | a missing brand fails before any write; otherwise the store gains one answer per (active prompt, engine) pair, prompt-outer and engine-inner, plus the mention rows of those answers; the rollup runs over every engine, the count of answers is returned and the store invariant is kept |
| AiVisibility.VisibilityStore.AskPrompts | lib/aiVisibility.ts:109-139 | the outer loop appends exactly the poll's answers and their mention rows and counts the answers |
| AiVisibility.VisibilityStore.AskEngines | lib/aiVisibility.ts:110-138 | the inner loop appends one answer per engine and its mention rows, and adds the number of engines to the count |
| AiVisibility.VisibilityStore.RecordAnswer | lib/aiVisibility.ts:115-137 | stores the answer, then one mention row per extracted mention, each pointing at that answer |
| AiVisibility.VisibilityStore.RollupEngine | lib/aiVisibility.ts:154-180 | the counters computed over the answers since today and their mentions are the engine's snapshot row, or nothing when it has no answers |
| AiVisibility.VisibilityStore.UpdateDailySnapshot | lib/aiVisibility.ts:147-210 | the snapshot table becomes the per-engine upsert over all engines in order; the store invariant is kept |
| AiVisibility.CountMentions | lib/aiVisibility.ts:169-177 | the loop adds the brand count, the competitor count and the per-competitor tally of the mentions to the running counters |
| AiVisibility.AnswersSinceExact | lib/aiVisibility.ts:154-161 | the answer query returns exactly the ids of the brand's answers from that engine since today, in table order |
| AiVisibility.ShareOfVoiceBounds | lib/aiVisibility.ts:179-180 | the share of voice lies between 0 and 1, is 0 without mentions, and otherwise times all mentions equals the brand's mentions |
| AiVisibility.ApplyRollupAt | lib/aiVisibility.ts:183-208 | after the rollup, a key is present iff it was present before or one of the engines rolled it; rolled keys hold that engine's row and every other row is unchanged |
| AiVisibility.RolledSnoc | lib/aiVisibility.ts:153 | rolling one more engine adds at most that engine's key for today |
| AiVisibility.RollupIdempotent | lib/aiVisibility.ts:183-207 | running the rollup a second time over unchanged answers and mentions leaves the snapshot table unchanged: the upsert overwrites and does not accumulate |
| AiVisibility.RollupKeepsOtherRows | lib/aiVisibility.ts:183-189 | rows of other brands or other days are untouched |
| AiVisibility.RollupSkipsSilentEngines | lib/aiVisibility.ts:163 | an engine gets no row iff it has no answer for the brand since today |
| AiVisibility.CountsCoverAll | lib/aiVisibility.ts:169-177 | every mention is counted as either the brand or a competitor |
| AiVisibility.TallySum | lib/aiVisibility.ts:169-177 | the per-competitor counts add up to the competitor mention count |
| AiVisibility.TallyKeys | lib/aiVisibility.ts:172-175 | the tally has a key exactly for each competitor that was mentioned |
| AiVisibility.SnapshotForSound | lib/aiVisibility.ts:163-200 | a written row counts at least one answer, its tally sums to its competitor count, and its share of voice is the brand's fraction |
| AiVisibility.PollCount | lib/aiVisibility.ts:109-110 | a poll asks \|prompts\| × \|engines\| questions |
| AiVisibility.PollOrder | lib/aiVisibility.ts:109-110 | answer number i × \|engines\| + j is prompt i asked of engine j |
| AiVisibility.EngineStep | lib/aiVisibility.ts:110 | asking one more engine appends its answer |
| AiVisibility.PromptStep | lib/aiVisibility.ts:109 | asking one more prompt appends its answers |
| AiVisibility.RowsOfOne | lib/aiVisibility.ts:126-137 | the rows of one answer are its extracted mentions, numbered with its id |
| AiVisibility.MentionRowsConcat | lib/aiVisibility.ts:126-137 | the rows of two runs of answers stored one after the other are the two runs' rows, the second numbered after the first |
| AiVisibility.MentionRowsReferToTheirAnswer | lib/aiVisibility.ts:128-134 | every stored row points at an answer of the run, among whose mentions it was found |
| AiVisibility.AppendedRowsLinked | lib/aiVisibility.ts:115-137 | rows appended by a poll point below the new end of the answers table |
| AiVisibility.MentionRowsInAnswerOrder | lib/aiVisibility.ts:109-139 | the answer ids of the stored rows never decrease |
| AiVisibility.MentionRowsGrounded | lib/aiVisibility.ts:126-137 | every row names an entity that the answer it points at mentions |
| VisibilityOverview.FindEngine | lib/aiVisibility.ts:225-226 | the engine joined to a snapshot row is registered and has that row's engine id |
| VisibilityOverview.WindowRowsInDateOrder | lib/aiVisibility.ts:220-227 | the query yields one row per snapshot of the brand in the window, all dated since the window start, in date order |
| VisibilityOverview.PercentBounds | lib/aiVisibility.ts:257-271 | a percentage lies between 0 and 100, is 0 for an empty whole, and times the whole equals the part times 100 |
| VisibilityOverview.RoundBounds | lib/aiVisibility.ts:285 | `Math.round` of a percentage lies between 0 and 100 and is within one half of it |
| VisibilityOverview.PromptStats | lib/aiVisibility.ts:278-281 | one entry per active prompt of the brand |
| VisibilityOverview.GetVisibilityOverview | lib/aiVisibility.ts:215-297 | the loop's totals and accumulators give the overview of the window's rows, the tracked competitors and the prompt statistics |
| VisibilityOverview.OverviewWellFormed | lib/aiVisibility.ts:240-287 | every share of voice is a percentage; the headline is 0 without mentions; the chart has one point per distinct engine name and the trend one per distinct day present, each listed once |
| VisibilityOverview.TrendInDateOrder | lib/aiVisibility.ts:262-265 | rows in date order give a trend whose dates strictly increase |
| VisibilityOverview.OverviewTrendOrdered | lib/aiVisibility.ts:220-265 | the overview's trend runs in strictly increasing date order from the window start on |
| VisibilityOverview.OverviewTotals | lib/aiVisibility.ts:240-259 | both the per-engine and the per-day mention totals add up to the window's totals |
| AnswerGenerator.SkipRun | lib/answerHub/generator.ts:239 | the rest after a run of separators is a suffix that starts with a letter or a digit |
| AnswerGenerator.DashesShape | lib/answerHub/generator.ts:239 | the dash replacement leaves only `a-z`, `0-9` and single dashes |
| AnswerGenerator.TrimStartDashes | lib/answerHub/generator.ts:240 | a suffix that does not start with a dash |
| AnswerGenerator.TrimEndDashes | lib/answerHub/generator.ts:240 | a prefix that does not end with a dash |
| AnswerGenerator.FullSlugShape | lib/answerHub/generator.ts:237-240 | the untruncated slug has only `a-z`, `0-9` and single dashes, with no dash at either end |
| AnswerGenerator.SlugShape | lib/answerHub/generator.ts:236-242 | the slug has only `a-z`, `0-9` and `-`, never two dashes in a row, no leading dash, at most 100 characters, and a trailing dash only when truncation cut it |
| AnswerGenerator.DashesKeep | lib/answerHub/generator.ts:239 | the dash replacement keeps every letter and digit, in order |
| AnswerGenerator.DashesSplit | lib/answerHub/generator.ts:239 | the dash replacement of a concatenation cut before a letter or digit is the concatenation of the two replacements |
| AnswerGenerator.DashesRun | lib/answerHub/generator.ts:239 | a word followed by a maximal run of other characters becomes the word and one dash |
| AnswerGenerator.SlugExampleWords | tests/answerHub/generator.test.ts:8-12 | "What are the best running shoes for flat feet?" becomes "what-are-the-best-running-shoes-for-flat-feet" |
| AnswerGenerator.SlugExampleSpecial | tests/answerHub/generator.test.ts:14-18 | "Is Brand X (really) the #1 choice?!" becomes "is-brand-x-really-the-1-choice" |
| AnswerGenerator.SlugExampleLong | tests/answerHub/generator.test.ts:20-24 | 150 letters `a` become the first 100 of them |
| AnswerGenerator.SlugKeepsWords | lib/answerHub/generator.ts:237-240 | the untruncated slug holds exactly the letters and digits of the lowercased question, in order |
| AnswerGenerator.SlugIsPrefix | lib/answerHub/generator.ts:241 | the slug is a prefix of the untruncated slug, and equals it when that has at most 100 characters |
| AnswerGenerator.SlugifyOfSlug | lib/answerHub/generator.ts:236-242 | a string already in slug form, with at most 100 characters, is its own slug |
| AnswerGenerator.SlugifyTwice | lib/answerHub/generator.ts:236-242 | slugifying a slug again changes it exactly when truncation left a trailing dash |
| AnswerGenerator.CleanQuestion | lib/answerHub/generator.ts:84 | the cleaned question is a prefix of the trimmed question and at most one character shorter, and it is one shorter exactly when the trimmed question ends with `?` |
| AnswerGenerator.TitleNamesBrand | lib/answerHub/generator.ts:82-92 | the title starts with the cleaned question and contains the brand case-insensitively |
| AnswerGenerator.StubSnippetsDiffer | lib/answerHub/generator.ts:98-104 | the five headline templates are five different texts |
| AnswerGenerator.HeadlineSnippetDistinct | lib/answerHub/generator.ts:97-107 | the snippet starts with the brand; two intents give the same snippet iff they are the same intent |
| AnswerGenerator.SectionRules | lib/answerHub/generator.ts:112-152 | INTRO first and SUMMARY last; COMPARISON iff commercial or transactional; STEP_BY_STEP iff informational; three sections for those intents and two otherwise |
| AnswerGenerator.BodiesNameBrand | lib/answerHub/generator.ts:120-149 | each of the four section templates puts the brand in its body |
| AnswerGenerator.SectionsNameBrand | lib/answerHub/generator.ts:112-152 | every generated section body names the brand |
| AnswerGenerator.FaqItemsNameBrand | lib/answerHub/generator.ts:157-182 | always four FAQ items, each question naming the brand |
| AnswerGenerator.SchemaBlocksShape | lib/answerHub/generator.ts:187-231 | two blocks, FAQPage then WebPage; one Question per FAQ item in order with its answer; the WebPage has the title, the snippet, exactly the URL `https://<domain>/ai-answers/<slug>`, and the generation time as both dates |
| AnswerGenerator.GeneratedContentShape | lib/answerHub/generator.ts:38-77 | the generated content names the brand in its snippet and its title, has four FAQ items and two schema blocks, and its web page points at the question's slug |
| AnswerGenerator.IntentsGiveDifferentPages | lib/answerHub/generator.ts:97-152 | informational and commercial pages for one question differ in snippet and in their second section |
| AnswerHubService.AddPromptKeepsSlugsUnique | lib/answerHub/service.ts:24-48 | adding a prompt keeps (brand, slug) unique iff its slug was not yet taken for its brand |
| AnswerHubService.StatusChangeKeepsSlugsUnique | lib/answerHub/service.ts:175-180 | a status change keeps (brand, slug) unique |
| AnswerHubService.PageOf | lib/answerHub/service.ts:89-91 | the page found belongs to the prompt; when none is found, no page belongs to it |
| AnswerHubService.WithoutKeepsOthers | lib/answerHub/service.ts:96-106 | deleting a page's rows leaves the rows of every other page as they were, and the page with none |
| AnswerHubService.ReplaceRows | lib/answerHub/service.ts:96-172 | after delete-then-append the page has exactly the appended rows, and every other page keeps its rows |
| AnswerHubService.WithoutFresh | lib/answerHub/service.ts:119-129 | a new page has no rows to delete |
| AnswerHubService.GeneratedSectionRows | lib/answerHub/service.ts:133-145 | one row per generated section, all on the page |
| AnswerHubService.GeneratedSectionsInOrder | lib/answerHub/service.ts:133-145 | the stored section rows list the generated sections in order, with `order` equal to the index |
| AnswerHubService.GeneratedPageSections | lib/answerHub/service.ts:133-145 | a generated page's rows start with INTRO at order 0 and end with SUMMARY; a COMPARISON row exists iff the intent is commercial or transactional |
| AnswerHubService.AfterGenerationStatus | lib/answerHub/service.ts:175-180 | after generation the status is never DRAFT; a non-draft status is kept; repeating has no further effect |
| AnswerHubService.EditedFields | lib/answerHub/service.ts:307-316 | title and snippet change only to a non-empty value; the meta description changes whenever given; the edit time is always set; nothing else changes; repeating the edit changes nothing more |
| AnswerHubService.AnswerHubStore.CreatePrompt | lib/answerHub/service.ts:13-51 | a slug taken for the brand fails with no write; otherwise a DRAFT prompt is appended with the slugified question, intent UNKNOWN unless given and priority 0 unless given |
| AnswerHubService.AnswerHubStore.GeneratePage | lib/answerHub/service.ts:56-183 | a missing or foreign prompt fails with no write; otherwise the page is updated or created with URL `/ai-answers/<slug>`, its rows are replaced by the generated ones, and the status moves from DRAFT to GENERATED |
| AnswerHubService.AnswerHubStore.ReplaceContent | lib/answerHub/service.ts:96-172 | the page's sections, FAQ items and schema blocks are deleted and the generated ones appended |
| AnswerHubService.AnswerHubStore.Publish | lib/answerHub/service.ts:188-227 | a missing or foreign page fails with no write; otherwise the page is published at that time and its prompt becomes PUBLISHED |
| AnswerHubService.AnswerHubStore.Unpublish | lib/answerHub/service.ts:232-267 | a missing or foreign page fails with no write; otherwise the page is unpublished and its prompt goes back to GENERATED |
| AnswerHubService.AnswerHubStore.UpdatePage | lib/answerHub/service.ts:272-363 | a missing or foreign page fails with no write; otherwise the basic fields are edited, and sections or FAQ items are replaced wholesale only when given |
| AnswerHubService.StatusKeepsFit | lib/answerHub/service.ts:175-180 | a status change keeps every page fitting its prompt |
| AnswerHubService.AddPromptKeepsFit | lib/answerHub/service.ts:39-48 | a new prompt keeps every page fitting its prompt |
| AnswerHubService.PageFieldsKeepFit | lib/answerHub/service.ts:108-116 | updating a page's own fields keeps every page fitting and one page per prompt |
| AnswerHubService.AddPageKeepsFit | lib/answerHub/service.ts:119-129 | a first page for a prompt keeps one page per prompt, and the pages fit iff the new one does |
| AnswerHubService.RegeneratedPageRows | lib/answerHub/service.ts:96-172 | after regeneration the page has exactly the generated sections, FAQ items and schema blocks, and other pages keep theirs |
| QuickScan.FormatUrlCases | app/audit/components/quick-scan.tsx:173-180 | blank input gives ""; input with a scheme is returned trimmed; anything else gets `https://` before the trimmed text |
| QuickScan.FormatUrlShape | app/audit/components/quick-scan.tsx:173-180 | every non-empty result starts with `http://` or `https://` in any case and has no surrounding whitespace |
| QuickScan.FormatUrlIdempotent | app/audit/components/quick-scan.tsx:173-180 | formatting twice gives the same result as formatting once |
| QuickScan.BareDomainExample | __tests__/quick-scan.test.tsx:35-38 | `example.com` becomes `https://example.com` |
| QuickScan.FullUrlExample | app/audit/components/quick-scan.tsx:176-179 | a full `https://` URL is left as it is |
| QuickScan.SubmitGuard | app/audit/components/quick-scan.tsx:26 | submit does nothing iff the input is blank; otherwise it submits the formatted URL, which has a scheme |
| AuditHistory.LabelBands | app/audits/page.tsx:54-58 | Excellent iff the score is at least 75, Good iff at least 50 and below 75, Needs Work iff below 50 |
| AuditHistory.ColorFollowsLabel | app/audits/page.tsx:48-58 | green, yellow and red exactly for Excellent, Good and Needs Work |
| AuditHistory.BandsMatchLabel | app/audits/page.tsx:54-64 | high, medium and low exactly for Excellent, Good and Needs Work; each score is in exactly one bucket |
| AuditHistory.FilterAuditsKeeps | app/audits/page.tsx:60-66 | the filter keeps exactly the audits in the bucket, as an order-preserving subsequence; 'all' keeps every audit |
| AuditHistory.BandsPartition | app/audits/page.tsx:62-64 | the three buckets together have as many audits as the input |
| ReportsPage.FilterReportsKeeps | app/reports/page.tsx:69-75 | a report is shown iff title or domain contains the search term case-insensitively and both filters accept it; the result is an order-preserving subsequence |
| ReportsPage.NoFilterKeepsAll | app/reports/page.tsx:70-73 | an empty search with both filters 'all' shows every report |
| ReportsPage.StatusColors | app/reports/page.tsx:77-84 | completed, processing and failed map to default, secondary and destructive; anything else to outline |
| ReportsPage.ScoreColorBands | app/reports/page.tsx:95-101 | no score maps to muted; at least 90, 80 and 70 map to green, blue and yellow; lower maps to red |
| CitationsPage.FilterCitationsKeeps | citations/page.tsx:49-54 | a citation is shown iff title or snippet contains the search term case-insensitively and the type filter accepts it; the result is an order-preserving subsequence |
| CitationsPage.NoFilterKeepsAll | citations/page.tsx:50-52 | an empty search with 'all' shows every citation |
| CitationsPage.RelevanceColorBands | citations/page.tsx:56-61 | at least 90, 80 and 70 map to green, blue and yellow; lower maps to gray |
| PlaybooksPage.FilterPlaybooksKeeps | playbooks/page.tsx:68-73 | a playbook is shown iff title or description contains the search term case-insensitively and the category filter accepts it; the result is an order-preserving subsequence |
| PlaybooksPage.NoFilterKeepsAll | playbooks/page.tsx:69-71 | an empty search with 'all' shows every playbook |
| PlaybooksPage.DifficultyColors | playbooks/page.tsx:75-82 | Beginner, Intermediate and Advanced map to green, yellow and red; anything else to gray |
| PlaybooksPage.StatusColors | playbooks/page.tsx:84-91 | active maps to default and draft to outline; anything else, completed included, to secondary |

## Left out

- The engine call `fetchFromAiEngine` (lib/aiVisibility.ts:22-38) draws random text after a delay. It is the `Fetcher` parameter of `RunPoll`, so every property holds whatever it answers.
- The content generator's half-second delay and its LLM placeholder are not modelled. `GeneratePage` takes the generator as a parameter. `AnswerGenerator.GenerateAnswerContent` is the stub generator with its own templates.
- The Prisma client and the database are an in-memory object whose tables are fields. Row ids are table positions, and transactions, failures and races between simultaneous requests are not modelled.
- Wall-clock time is not modelled. The poll takes `now` and `today` (midnight) as integers, and the overview takes the window start. The `toISOString` day key is the integer day itself.
- `VisibilityOverview.WindowRows`: the database returns rows of the same day in no defined order. The model orders them by engine id, and the proved trend and totals do not depend on that choice.
- `VisibilityOverview.GetVisibilityOverview`: engine display names are assumed to be ordinary object keys, neither members of `Object.prototype` ("constructor", "toString", "__proto__", …) nor integer-like ("0", "42"). The model keeps the engine names and the day keys in first-insertion order. `Object.keys` (lib/aiVisibility.ts:268) lists integer-like keys first, in ascending numeric order, and only the other keys in insertion order, so the chart order differs for integer-like engine names. The day keys are ISO date strings, which are never integer-like, so the trend order is as modelled.
- `VisibilityOverview.OverviewWellFormed`: for an engine named after an `Object.prototype` member, `!perEngine[name]` (lib/aiVisibility.ts:246) finds the inherited value, so the engine never gets an entry of its own and is missing from the chart. The one-point-per-engine-name clause holds only for the ordinary names assumed above.
- `AiVisibility.CountMentions`: competitor names are assumed to be ordinary object keys too. For a name such as "constructor", `competitorCounts[name] || 0` (lib/aiVisibility.ts:174) reads an inherited function and the count becomes a string. For "__proto__", the assignment changes the prototype and no count is stored. `AiVisibility.TallySum` and `AiVisibility.TallyKeys` describe only the ordinary names.
- JSON texts are not modelled. The per-competitor counts are a map, and the schema blocks are datatypes rather than `JSON.stringify` output.
- JavaScript numbers are modelled as exact reals, so IEEE rounding of the share-of-voice divisions is not modelled. `Math.round` is modelled as floor(x + 0.5), which is what it does on the non-negative percentages that occur.
- The `Promise.all` fan-outs in the service are modelled as sequential appends, in list order.
- Strings are ASCII only. `toLowerCase`, `trim` and the slug's character class are not modelled on the rest of Unicode.
- `AnswerHubService.AnswerHubStore.CreatePrompt`: the service does not check that the brand exists, and the database's foreign-key failure is modelled as the `BrandNotFound` error.
- `AnswerHubService.AnswerHubStore.GeneratePage`: the `new Date()` calls in the service and in the generator are modelled as one timestamp `now`.
- The quick scan's React state, toasts and navigation are not modelled. Only `formatUrl` and the blank-input guard are.
- The sample lists the pages hard-code are not reproduced. The filters are proved for any list.
- The audit history page's summary statistics (app/audits/page.tsx:193-211) are display arithmetic and are not modelled.
- The poll timer and status colours of the audit form and audit history components are presentation only.
