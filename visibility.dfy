/** The AI-visibility store and its two writers (lib/aiVisibility.ts): the
    poll, which asks every engine every active prompt of a brand and records
    the answers and the mentions found in them, and the daily rollup, which
    condenses today's answers of each engine into one snapshot row. The
    database is an object whose tables are fields. */
module AiVisibility {
  import opened Collections
  import opened Text
  import opened AiMentions

  type Id = nat

  datatype Brand = Brand(name: string, primaryDomain: string)

  datatype Competitor = Competitor(brandId: Id, name: string)

  datatype TrackedPrompt = TrackedPrompt(id: Id, brandId: Id, text: string, isActive: bool)

  datatype AiEngine = AiEngine(id: Id, slug: string, displayName: string)

  /** An answer row; its id is its position in the answers table. */
  datatype AiAnswer = AiAnswer(brandId: Id, trackedPromptId: Id, aiEngineId: Id, rawAnswer: string, askedAt: int)

  datatype Mention = Mention(
    aiAnswerId: Id,
    entityType: EntityType,
    entityName: string,
    sentiment: Sentiment,
    isRecommendation: bool)

  /** The unique key of a snapshot row: brand, engine and day. */
  datatype SnapshotKey = SnapshotKey(brandId: Id, aiEngineId: Id, date: int)

  /** A snapshot row; the per-competitor counts are kept as a map rather
      than as their JSON text. */
  datatype Snapshot = Snapshot(
    totalAnswers: nat,
    brandMentionCount: nat,
    competitorMentionCount: nat,
    brandShareOfVoice: real,
    competitorShareOfVoice: map<string, nat>)

  datatype PollError = BrandNotFound(brandId: Id)

  /** The engine call: engine, prompt text, brand name and competitor names
      to the raw answer text. */
  type Fetcher = (AiEngine, string, string, seq<string>) -> string

  /** What one poll run fixes before it starts asking. */
  datatype PollContext = PollContext(
    brandId: Id,
    brandName: string,
    competitorNames: seq<string>,
    fetch: Fetcher,
    now: int)

  // ---------------------------------------------------------------------
  // Queries

  /** The names of a brand's competitors, in table order. */
  function CompetitorNames(competitors: seq<Competitor>, brandId: Id): (names: seq<string>)
    ensures forall n :: n in names <==> Competitor(brandId, n) in competitors
    decreases |competitors|
  {
    if competitors == [] then []
    else
      var init := competitors[..|competitors| - 1];
      var last := competitors[|competitors| - 1];
      assert competitors == init + [last];
      CompetitorNames(init, brandId) + if last.brandId == brandId then [last.name] else []
  }

  function IsActiveFor(brandId: Id): TrackedPrompt -> bool
  {
    (p: TrackedPrompt) => p.brandId == brandId && p.isActive
  }

  /** The brand's active prompts, in table order. */
  function ActivePrompts(prompts: seq<TrackedPrompt>, brandId: Id): seq<TrackedPrompt>
  {
    Filter(prompts, IsActiveFor(brandId))
  }

  /** The answer row written for one (prompt, engine) pair. */
  function Ask(ctx: PollContext, p: TrackedPrompt, e: AiEngine): AiAnswer
  {
    AiAnswer(ctx.brandId, p.id, e.id, ctx.fetch(e, p.text, ctx.brandName, ctx.competitorNames), ctx.now)
  }

  /** The answers for one prompt, one per engine, in engine order. */
  function EngineAnswers(ctx: PollContext, p: TrackedPrompt, engines: seq<AiEngine>): (r: seq<AiAnswer>)
    ensures |r| == |engines|
  {
    seq(|engines|, j requires 0 <= j < |engines| => Ask(ctx, p, engines[j]))
  }

  /** The answers of a whole poll: prompt by prompt, engine by engine. */
  function PollAnswers(ctx: PollContext, prompts: seq<TrackedPrompt>, engines: seq<AiEngine>): seq<AiAnswer>
    decreases |prompts|
  {
    if prompts == [] then []
    else
      var n := |prompts| - 1;
      PollAnswers(ctx, prompts[..n], engines) + EngineAnswers(ctx, prompts[n], engines)
  }

  /** A mention draft stored against an answer. */
  function Record(d: MentionDraft, answerId: Id): Mention
  {
    Mention(answerId, d.entityType, d.entityName, d.sentiment, d.isRecommendation)
  }

  function Records(drafts: seq<MentionDraft>, answerId: Id): (r: seq<Mention>)
    ensures |r| == |drafts|
  {
    seq(|drafts|, k requires 0 <= k < |drafts| => Record(drafts[k], answerId))
  }

  /** The mentions found in each of a run of answers. */
  function Extracted(added: seq<AiAnswer>, brandName: string, names: seq<string>): (per: seq<seq<MentionDraft>>)
    ensures |per| == |added|
  {
    seq(|added|, i requires 0 <= i < |added| => Mentions(added[i].rawAnswer, brandName, names))
  }

  /** The mention rows stored for a run of answers whose first id is
      `firstId`, given the mentions found in each: answer by answer, each
      row pointing at its answer. */
  function MentionRows(per: seq<seq<MentionDraft>>, firstId: Id): seq<Mention>
    decreases |per|
  {
    if per == [] then []
    else
      var n := |per| - 1;
      MentionRows(per[..n], firstId) + Records(per[n], firstId + n)
  }

  /** Every row points at an answer id below `bound`. */
  ghost predicate IdsBelow(rows: seq<Mention>, bound: nat)
  {
    forall k :: 0 <= k < |rows| ==> rows[k].aiAnswerId < bound
  }

  /** The mention a stored row was made from. */
  function DraftOf(m: Mention): MentionDraft
  {
    MentionDraft(m.entityType, m.entityName, m.sentiment, m.isRecommendation)
  }

  // ---------------------------------------------------------------------
  // The daily rollup, as functions of the tables

  /** An answer the rollup of (brand, engine) since `today` counts. */
  predicate CountedIn(a: AiAnswer, brandId: Id, engineId: Id, today: int)
  {
    a.brandId == brandId && a.aiEngineId == engineId && a.askedAt >= today
  }

  /** The ids of the answers the rollup counts, in table order. */
  function AnswersSince(answers: seq<AiAnswer>, brandId: Id, engineId: Id, today: int): seq<Id>
    decreases |answers|
  {
    if answers == [] then []
    else
      var n := |answers| - 1;
      AnswersSince(answers[..n], brandId, engineId, today)
        + if CountedIn(answers[n], brandId, engineId, today) then [n] else []
  }

  /** `ids` lists the positions of the answers counted, and only those. */
  ghost predicate ExactIds(ids: seq<Id>, answers: seq<AiAnswer>, brandId: Id, engineId: Id, today: int)
  {
    && (forall k :: 0 <= k < |ids| ==> ids[k] < |answers| && CountedIn(answers[ids[k]], brandId, engineId, today))
    && (forall i :: 0 <= i < |answers| && CountedIn(answers[i], brandId, engineId, today) ==> i in ids)
  }

  /** The rollup's answer query returns exactly the ids of the answers it
      counts. */
  lemma {:induction false} AnswersSinceExact(answers: seq<AiAnswer>, brandId: Id, engineId: Id, today: int)
    ensures ExactIds(AnswersSince(answers, brandId, engineId, today), answers, brandId, engineId, today)
    decreases |answers|
  {
    if answers != [] {
      var n := |answers| - 1;
      AnswersSinceExact(answers[..n], brandId, engineId, today);
      var prev := AnswersSince(answers[..n], brandId, engineId, today);
      assert ExactIds(prev, answers[..n], brandId, engineId, today);
      var ids := AnswersSince(answers, brandId, engineId, today);
      assert ids == prev + if CountedIn(answers[n], brandId, engineId, today) then [n] else [];
      forall k | 0 <= k < |ids| ensures ids[k] < |answers| && CountedIn(answers[ids[k]], brandId, engineId, today) {
        if k < |prev| {
          assert ids[k] == prev[k];
          assert answers[..n][prev[k]] == answers[prev[k]];
        }
      }
      forall i | 0 <= i < |answers| && CountedIn(answers[i], brandId, engineId, today) ensures i in ids {
        if i < n {
          assert answers[..n][i] == answers[i];
          assert i in prev;
        }
      }
    }
  }

  function OfAnswer(answerId: Id): Mention -> bool
  {
    (m: Mention) => m.aiAnswerId == answerId
  }

  /** The mentions of one answer, in table order. */
  function MentionsOf(mentions: seq<Mention>, answerId: Id): seq<Mention>
  {
    Filter(mentions, OfAnswer(answerId))
  }

  /** The mentions of the listed answers, answer by answer. */
  function Loaded(mentions: seq<Mention>, ids: seq<Id>): seq<Mention>
    decreases |ids|
  {
    if ids == [] then []
    else
      var n := |ids| - 1;
      Loaded(mentions, ids[..n]) + MentionsOf(mentions, ids[n])
  }

  function BrandCount(ms: seq<Mention>): nat
    decreases |ms|
  {
    if ms == [] then 0
    else BrandCount(ms[..|ms| - 1]) + if ms[|ms| - 1].entityType == BrandEntity then 1 else 0
  }

  function CompetitorCount(ms: seq<Mention>): nat
    decreases |ms|
  {
    if ms == [] then 0
    else CompetitorCount(ms[..|ms| - 1]) + if ms[|ms| - 1].entityType == CompetitorEntity then 1 else 0
  }

  /** `counts[name] || 0`. */
  function CountOf(counts: map<string, nat>, name: string): nat
  {
    if name in counts then counts[name] else 0
  }

  /** The per-competitor mention counts. */
  function Tally(ms: seq<Mention>): map<string, nat>
    decreases |ms|
  {
    if ms == [] then map[]
    else
      var counts := Tally(ms[..|ms| - 1]);
      var m := ms[|ms| - 1];
      if m.entityType == CompetitorEntity then counts[m.entityName := CountOf(counts, m.entityName) + 1]
      else counts
  }

  /** The brand's share of the mentions, 0 when there are none. */
  function ShareOfVoice(brand: nat, competitor: nat): real
  {
    if brand + competitor > 0 then brand as real / (brand + competitor) as real else 0.0
  }

  /** The share is a fraction: between 0 and 1, 0 when nothing was
      mentioned, and otherwise the brand's part of all the mentions. */
  lemma ShareOfVoiceBounds(brand: nat, competitor: nat)
    ensures 0.0 <= ShareOfVoice(brand, competitor) <= 1.0
    ensures brand + competitor == 0 ==> ShareOfVoice(brand, competitor) == 0.0
    ensures brand + competitor > 0 ==> ShareOfVoice(brand, competitor) * (brand + competitor) as real == brand as real
  {
  }

  /** The row the rollup writes for one engine, or nothing when the engine
      has no answer for the brand since `today`. */
  function SnapshotFor(answers: seq<AiAnswer>, mentions: seq<Mention>, brandId: Id, engineId: Id, today: int): Option<Snapshot>
  {
    var ids := AnswersSince(answers, brandId, engineId, today);
    if ids == [] then None
    else
      var ms := Loaded(mentions, ids);
      var brand := BrandCount(ms);
      var competitor := CompetitorCount(ms);
      Some(Snapshot(|ids|, brand, competitor, ShareOfVoice(brand, competitor), Tally(ms)))
  }

  /** The snapshot table after the rollup has visited `engines` in order. */
  function ApplyRollup(snapshots: map<SnapshotKey, Snapshot>, answers: seq<AiAnswer>, mentions: seq<Mention>,
                       brandId: Id, engines: seq<AiEngine>, today: int): map<SnapshotKey, Snapshot>
    decreases |engines|
  {
    if engines == [] then snapshots
    else
      var n := |engines| - 1;
      var before := ApplyRollup(snapshots, answers, mentions, brandId, engines[..n], today);
      match SnapshotFor(answers, mentions, brandId, engines[n].id, today)
      case None => before
      case Some(s) => before[SnapshotKey(brandId, engines[n].id, today) := s]
  }

  function EngineIds(engines: seq<AiEngine>): set<Id>
  {
    set e | e in engines :: e.id
  }

  /** The keys the rollup writes: today's row of the brand for each listed
      engine that has answers. */
  ghost predicate Rolled(answers: seq<AiAnswer>, mentions: seq<Mention>, brandId: Id, engines: seq<AiEngine>, today: int, k: SnapshotKey)
  {
    && k.brandId == brandId && k.date == today && k.aiEngineId in EngineIds(engines)
    && SnapshotFor(answers, mentions, brandId, k.aiEngineId, today).Some?
  }

  /** What a stored snapshot always satisfies. */
  ghost predicate SnapshotSound(s: Snapshot)
  {
    && s.totalAnswers > 0
    && MapSum(s.competitorShareOfVoice) == s.competitorMentionCount
    && s.brandShareOfVoice == ShareOfVoice(s.brandMentionCount, s.competitorMentionCount)
  }

  // ---------------------------------------------------------------------
  // The store

  class VisibilityStore {
    var brands: map<Id, Brand>
    var competitors: seq<Competitor>
    var prompts: seq<TrackedPrompt>
    var engines: seq<AiEngine>
    var answers: seq<AiAnswer>
    var mentions: seq<Mention>
    var snapshots: map<SnapshotKey, Snapshot>

    /** Every mention belongs to a stored answer, and every snapshot row is
        of a registered engine and internally consistent. */
    ghost predicate Valid()
      reads this
    {
      MentionsLinked() && SnapshotsSound()
    }

    /** Every snapshot row is of a registered engine and internally
        consistent. */
    ghost predicate SnapshotsSound()
      reads this`snapshots, this`engines
    {
      forall k :: k in snapshots ==> k.aiEngineId in EngineIds(engines) && SnapshotSound(snapshots[k])
    }

    constructor (brands: map<Id, Brand>, competitors: seq<Competitor>, prompts: seq<TrackedPrompt>, engines: seq<AiEngine>)
      ensures Valid()
      ensures this.brands == brands && this.competitors == competitors
      ensures this.prompts == prompts && this.engines == engines
      ensures answers == [] && mentions == [] && snapshots == map[]
    {
      this.brands := brands;
      this.competitors := competitors;
      this.prompts := prompts;
      this.engines := engines;
      answers := [];
      mentions := [];
      snapshots := map[];
    }

    /** `runAiVisibilityPollForBrand`: fails before any write when the brand
        is unknown; otherwise records one answer per (active prompt, engine)
        pair, prompt-outer, with the mentions of each answer right after it,
        then runs the daily rollup and returns the number of answers. */
    method RunPoll(brandId: Id, fetch: Fetcher, now: int, today: int) returns (r: Result<nat, PollError>)
      requires Valid()
      modifies this`answers, this`mentions, this`snapshots
      ensures Valid()
      ensures brandId !in brands ==> r == Err(BrandNotFound(brandId)) && unchanged(this)
      ensures brandId in brands ==>
        var ctx := PollContext(brandId, brands[brandId].name, CompetitorNames(competitors, brandId), fetch, now);
        var ps := ActivePrompts(prompts, brandId);
        var added := PollAnswers(ctx, ps, engines);
        && r == Ok(|added|)
        && answers == old(answers) + added
        && mentions == old(mentions) + MentionRows(Extracted(added, ctx.brandName, ctx.competitorNames), |old(answers)|)
        && snapshots == ApplyRollup(old(snapshots), answers, mentions, brandId, engines, today)
    {
      if brandId !in brands {
        return Err(BrandNotFound(brandId));
      }
      var brand := brands[brandId];
      var ctx := PollContext(brandId, brand.name, CompetitorNames(competitors, brandId), fetch, now);
      var ps := ActivePrompts(prompts, brandId);
      var count := AskPrompts(ctx, ps, engines);
      AppendedRowsLinked(old(mentions), |old(answers)|, Extracted(PollAnswers(ctx, ps, engines), ctx.brandName, ctx.competitorNames));
      UpdateDailySnapshot(brandId, today);
      return Ok(count);
    }

    /** The outer loop of the poll: every prompt in turn, each asked of every
        engine; returns the number of answers stored. */
    method AskPrompts(ctx: PollContext, ps: seq<TrackedPrompt>, es: seq<AiEngine>) returns (count: nat)
      modifies this`answers, this`mentions
      ensures count == |PollAnswers(ctx, ps, es)|
      ensures answers == old(answers) + PollAnswers(ctx, ps, es)
      ensures mentions == old(mentions) + MentionRows(Extracted(PollAnswers(ctx, ps, es), ctx.brandName, ctx.competitorNames), |old(answers)|)
    {
      count := 0;
      var i := 0;
      ghost var done: seq<AiAnswer> := [];
      while i < |ps|
        invariant 0 <= i <= |ps|
        invariant done == PollAnswers(ctx, ps[..i], es)
        invariant count == |done|
        invariant answers == old(answers) + done
        invariant mentions == old(mentions) + MentionRows(Extracted(done, ctx.brandName, ctx.competitorNames), |old(answers)|)
      {
        ghost var asked := EngineAnswers(ctx, ps[i], es);
        ghost var answersBefore := answers;
        ghost var mentionsBefore := mentions;
        count := AskEngines(ctx, ps[i], es, count);
        assert answers == old(answers) + (done + asked) by {
          AppendTwice(old(answers), answersBefore, done, asked, answers);
        }
        assert mentions == old(mentions) + MentionRows(Extracted(done + asked, ctx.brandName, ctx.competitorNames), |old(answers)|) by {
          RowsStored(old(mentions), |old(answers)|, done, asked, mentionsBefore, mentions, ctx.brandName, ctx.competitorNames);
        }
        assert done + asked == PollAnswers(ctx, ps[..i + 1], es) by {
          PromptStep(ctx, ps, es, i);
        }
        done := done + asked;
        i := i + 1;
      }
      assert ps[..i] == ps;
    }

    /** The inner loop of the poll: asks one prompt of every engine in turn,
        storing each answer and its mentions and counting the answer. */
    method AskEngines(ctx: PollContext, p: TrackedPrompt, es: seq<AiEngine>, count: nat) returns (count': nat)
      modifies this`answers, this`mentions
      ensures count' == count + |es|
      ensures answers == old(answers) + EngineAnswers(ctx, p, es)
      ensures mentions == old(mentions) + MentionRows(Extracted(EngineAnswers(ctx, p, es), ctx.brandName, ctx.competitorNames), |old(answers)|)
    {
      count' := count;
      var j := 0;
      ghost var done: seq<AiAnswer> := [];
      while j < |es|
        invariant 0 <= j <= |es|
        invariant count' == count + j
        invariant done == EngineAnswers(ctx, p, es[..j]) && |done| == j
        invariant answers == old(answers) + done
        invariant mentions == old(mentions) + MentionRows(Extracted(done, ctx.brandName, ctx.competitorNames), |old(answers)|)
      {
        var answer := Ask(ctx, p, es[j]);
        EngineStep(ctx, p, es, j);
        ghost var mentionsBefore := mentions;
        RecordAnswer(answer, ctx.brandName, ctx.competitorNames);
        RowsStored(old(mentions), |old(answers)|, done, [answer], mentionsBefore, mentions, ctx.brandName, ctx.competitorNames);
        done := done + [answer];
        count' := count' + 1;
        j := j + 1;
      }
      assert es[..j] == es;
    }

    /** Every mention belongs to a stored answer. */
    ghost predicate MentionsLinked()
      reads this`mentions, this`answers
    {
      IdsBelow(mentions, |answers|)
    }

    /** Steps 2 and 3 of one poll iteration: stores the answer, then one
        mention row per mention extracted from it, all pointing at it. */
    method RecordAnswer(answer: AiAnswer, brandName: string, names: seq<string>)
      modifies this`answers, this`mentions
      ensures answers == old(answers) + [answer]
      ensures mentions == old(mentions) + MentionRows(Extracted([answer], brandName, names), |old(answers)|)
    {
      var id := |answers|;
      answers := answers + [answer];
      var drafts := ExtractMentions(answer.rawAnswer, brandName, names);
      var k := 0;
      while k < |drafts|
        invariant 0 <= k <= |drafts|
        invariant answers == old(answers) + [answer]
        invariant mentions == old(mentions) + Records(drafts[..k], id)
      {
        RecordsSnoc(drafts, k, id);
        var d := drafts[k];
        mentions := mentions + [Mention(id, d.entityType, d.entityName, d.sentiment, d.isRecommendation)];
        k := k + 1;
      }
      assert drafts[..k] == drafts;
      RowsOfOne(answer, id, brandName, names);
    }

    /** The rollup of one engine: the answers of the brand since `today`
        with their mentions, counted answer by answer. */
    method RollupEngine(brandId: Id, engineId: Id, today: int) returns (s: Option<Snapshot>)
      ensures s == SnapshotFor(answers, mentions, brandId, engineId, today)
    {
      var ids := AnswersSince(answers, brandId, engineId, today);
      if |ids| == 0 {
        return None;
      }
      var brandMentions := 0;
      var competitorMentions := 0;
      var counts: map<string, nat> := map[];
      var i := 0;
      while i < |ids|
        invariant 0 <= i <= |ids|
        invariant brandMentions == BrandCount(Loaded(mentions, ids[..i]))
        invariant competitorMentions == CompetitorCount(Loaded(mentions, ids[..i]))
        invariant counts == Tally(Loaded(mentions, ids[..i]))
      {
        var ms := MentionsOf(mentions, ids[i]);
        brandMentions, competitorMentions, counts :=
          CountMentions(Loaded(mentions, ids[..i]), ms, brandMentions, competitorMentions, counts);
        assert ids[..i + 1][..i] == ids[..i];
        i := i + 1;
      }
      assert ids[..i] == ids;
      var total := brandMentions + competitorMentions;
      var sov := if total > 0 then brandMentions as real / total as real else 0.0;
      s := Some(Snapshot(|ids|, brandMentions, competitorMentions, sov, counts));
    }

    /** `updateDailySnapshot`: for each engine in turn, upserts today's
        snapshot row of the brand, skipping engines without answers. */
    method UpdateDailySnapshot(brandId: Id, today: int)
      requires Valid()
      modifies this`snapshots
      ensures Valid()
      ensures snapshots == ApplyRollup(old(snapshots), answers, mentions, brandId, engines, today)
    {
      var es := engines;
      var i := 0;
      while i < |es|
        invariant 0 <= i <= |es|
        invariant snapshots == ApplyRollup(old(snapshots), answers, mentions, brandId, es[..i], today)
      {
        var s := RollupEngine(brandId, es[i].id, today);
        assert es[..i + 1][..i] == es[..i];
        if s.Some? {
          snapshots := snapshots[SnapshotKey(brandId, es[i].id, today) := s.value];
        }
        i := i + 1;
      }
      assert es[..i] == es;
      ApplyRollupAt(old(snapshots), answers, mentions, brandId, es, today);
      forall k | k in snapshots
        ensures k.aiEngineId in EngineIds(engines) && SnapshotSound(snapshots[k])
      {
        if Rolled(answers, mentions, brandId, es, today, k) {
          SnapshotForSound(answers, mentions, brandId, k.aiEngineId, today);
        }
      }
    }
  }

  /** The inner loop of the rollup: adds the mentions of one answer to the
      running brand and competitor counters and the per-competitor map. */
  method CountMentions(ghost done: seq<Mention>, ms: seq<Mention>, brand: nat, competitor: nat, counts: map<string, nat>)
    returns (brand': nat, competitor': nat, counts': map<string, nat>)
    requires brand == BrandCount(done) && competitor == CompetitorCount(done) && counts == Tally(done)
    ensures brand' == BrandCount(done + ms) && competitor' == CompetitorCount(done + ms) && counts' == Tally(done + ms)
  {
    brand', competitor', counts' := brand, competitor, counts;
    var k := 0;
    ghost var seen := done;
    assert done + ms[..k] == seen;
    while k < |ms|
      invariant 0 <= k <= |ms|
      invariant seen == done + ms[..k]
      invariant brand' == BrandCount(seen)
      invariant competitor' == CompetitorCount(seen)
      invariant counts' == Tally(seen)
    {
      var m := ms[k];
      CountStep(seen, m);
      assert done + ms[..k + 1] == seen + [m];
      if m.entityType == BrandEntity {
        brand' := brand' + 1;
      }
      if m.entityType == CompetitorEntity {
        competitor' := competitor' + 1;
        counts' := counts'[m.entityName := CountOf(counts', m.entityName) + 1];
      }
      seen := seen + [m];
      k := k + 1;
    }
    assert ms[..k] == ms;
  }

  /** Counting one more mention. */
  lemma CountStep(seen: seq<Mention>, m: Mention)
    ensures BrandCount(seen + [m]) == BrandCount(seen) + if m.entityType == BrandEntity then 1 else 0
    ensures CompetitorCount(seen + [m]) == CompetitorCount(seen) + if m.entityType == CompetitorEntity then 1 else 0
    ensures Tally(seen + [m]) == if m.entityType == CompetitorEntity then Tally(seen)[m.entityName := CountOf(Tally(seen), m.entityName) + 1] else Tally(seen)
  {
    assert (seen + [m])[..|seen|] == seen;
  }

  // ---------------------------------------------------------------------
  // Properties

  /** The rollup writes a row exactly for the engines with answers, puts
      there the snapshot of that engine, and leaves every other row as it
      was. */
  lemma {:induction false} ApplyRollupAt(snapshots: map<SnapshotKey, Snapshot>, answers: seq<AiAnswer>, mentions: seq<Mention>,
                                        brandId: Id, engines: seq<AiEngine>, today: int)
    ensures var after := ApplyRollup(snapshots, answers, mentions, brandId, engines, today);
      && (forall k :: k in after <==> k in snapshots || Rolled(answers, mentions, brandId, engines, today, k))
      && (forall k :: k in after && Rolled(answers, mentions, brandId, engines, today, k) ==>
            Some(after[k]) == SnapshotFor(answers, mentions, brandId, k.aiEngineId, today))
      && (forall k :: k in after && !Rolled(answers, mentions, brandId, engines, today, k) ==> after[k] == snapshots[k])
    decreases |engines|
  {
    if engines != [] {
      var n := |engines| - 1;
      ApplyRollupAt(snapshots, answers, mentions, brandId, engines[..n], today);
      var before := ApplyRollup(snapshots, answers, mentions, brandId, engines[..n], today);
      var after := ApplyRollup(snapshots, answers, mentions, brandId, engines, today);
      var key := SnapshotKey(brandId, engines[n].id, today);
      var s := SnapshotFor(answers, mentions, brandId, engines[n].id, today);
      assert after == if s.Some? then before[key := s.value] else before;
      forall k
        ensures k in after <==> k in snapshots || Rolled(answers, mentions, brandId, engines, today, k)
        ensures k in after && Rolled(answers, mentions, brandId, engines, today, k) ==>
          Some(after[k]) == SnapshotFor(answers, mentions, brandId, k.aiEngineId, today)
        ensures k in after && !Rolled(answers, mentions, brandId, engines, today, k) ==> after[k] == snapshots[k]
      {
        RolledSnoc(answers, mentions, brandId, engines, today, k);
        if s.Some? && k == key {
          assert after[k] == s.value;
        } else {
          assert k in after <==> k in before;
        }
      }
    }
  }

  /** The keys rolled over one more engine: those of the earlier engines and
      that engine's own row, if it has answers. */
  lemma RolledSnoc(answers: seq<AiAnswer>, mentions: seq<Mention>, brandId: Id, engines: seq<AiEngine>, today: int, k: SnapshotKey)
    requires engines != []
    ensures var n := |engines| - 1;
      Rolled(answers, mentions, brandId, engines, today, k) <==>
        || Rolled(answers, mentions, brandId, engines[..n], today, k)
        || (k == SnapshotKey(brandId, engines[n].id, today) && SnapshotFor(answers, mentions, brandId, engines[n].id, today).Some?)
  {
    var n := |engines| - 1;
    assert engines == engines[..n] + [engines[n]];
    assert EngineIds(engines) == EngineIds(engines[..n]) + {engines[n].id};
  }

  /** Re-running the rollup over unchanged tables rewrites the same rows:
      the upsert overwrites and never accumulates. */
  lemma RollupIdempotent(snapshots: map<SnapshotKey, Snapshot>, answers: seq<AiAnswer>, mentions: seq<Mention>,
                         brandId: Id, engines: seq<AiEngine>, today: int)
    ensures var once := ApplyRollup(snapshots, answers, mentions, brandId, engines, today);
      ApplyRollup(once, answers, mentions, brandId, engines, today) == once
  {
    var once := ApplyRollup(snapshots, answers, mentions, brandId, engines, today);
    var twice := ApplyRollup(once, answers, mentions, brandId, engines, today);
    ApplyRollupAt(snapshots, answers, mentions, brandId, engines, today);
    ApplyRollupAt(once, answers, mentions, brandId, engines, today);
    assert twice.Keys == once.Keys;
    forall k | k in twice ensures twice[k] == once[k] {
    }
  }

  /** Rows of other brands and of other days are never touched. */
  lemma RollupKeepsOtherRows(snapshots: map<SnapshotKey, Snapshot>, answers: seq<AiAnswer>, mentions: seq<Mention>,
                             brandId: Id, engines: seq<AiEngine>, today: int, k: SnapshotKey)
    requires k.brandId != brandId || k.date != today
    ensures var after := ApplyRollup(snapshots, answers, mentions, brandId, engines, today);
      (k in after <==> k in snapshots) && (k in after ==> after[k] == snapshots[k])
  {
    ApplyRollupAt(snapshots, answers, mentions, brandId, engines, today);
  }

  /** An engine without answers since `today` gets no row. */
  lemma RollupSkipsSilentEngines(answers: seq<AiAnswer>, mentions: seq<Mention>, brandId: Id, engineId: Id, today: int)
    ensures SnapshotFor(answers, mentions, brandId, engineId, today).None? <==>
      forall i :: 0 <= i < |answers| ==> !CountedIn(answers[i], brandId, engineId, today)
  {
    var ids := AnswersSince(answers, brandId, engineId, today);
    AnswersSinceExact(answers, brandId, engineId, today);
    if ids != [] {
      assert ids[0] < |answers|;
    }
  }

  /** Every mention is of the brand or of a competitor. */
  lemma {:induction false} CountsCoverAll(ms: seq<Mention>)
    ensures BrandCount(ms) + CompetitorCount(ms) == |ms|
    decreases |ms|
  {
    if ms != [] {
      CountsCoverAll(ms[..|ms| - 1]);
    }
  }

  /** The per-competitor counts add up to the competitor mention count. */
  lemma {:induction false} TallySum(ms: seq<Mention>)
    ensures MapSum(Tally(ms)) == CompetitorCount(ms)
    decreases |ms|
  {
    if ms != [] {
      var init := ms[..|ms| - 1];
      var m := ms[|ms| - 1];
      TallySum(init);
      if m.entityType == CompetitorEntity {
        MapSumUpdate(Tally(init), m.entityName, CountOf(Tally(init), m.entityName) + 1);
      }
    }
  }

  /** The tally has an entry exactly for the competitors mentioned. */
  lemma {:induction false} TallyKeys(ms: seq<Mention>)
    ensures forall name :: name in Tally(ms) <==>
      exists k :: 0 <= k < |ms| && ms[k].entityType == CompetitorEntity && ms[k].entityName == name
    decreases |ms|
  {
    if ms != [] {
      var n := |ms| - 1;
      TallyKeys(ms[..n]);
      forall name ensures name in Tally(ms) <==>
        exists k :: 0 <= k < |ms| && ms[k].entityType == CompetitorEntity && ms[k].entityName == name
      {
        if exists k :: 0 <= k < |ms| && ms[k].entityType == CompetitorEntity && ms[k].entityName == name {
          var k :| 0 <= k < |ms| && ms[k].entityType == CompetitorEntity && ms[k].entityName == name;
          if k < n {
            assert ms[..n][k] == ms[k];
          }
        }
        if name in Tally(ms[..n]) {
          var k :| 0 <= k < n && ms[..n][k].entityType == CompetitorEntity && ms[..n][k].entityName == name;
          assert ms[k] == ms[..n][k];
        }
      }
    }
  }

  /** Every row the rollup produces is consistent: it counts at least one
      answer, its competitor counts add up, and its share of voice is the
      brand's fraction of the mentions. */
  lemma SnapshotForSound(answers: seq<AiAnswer>, mentions: seq<Mention>, brandId: Id, engineId: Id, today: int)
    ensures match SnapshotFor(answers, mentions, brandId, engineId, today)
      case None => true
      case Some(s) => SnapshotSound(s)
  {
    var ids := AnswersSince(answers, brandId, engineId, today);
    if ids != [] {
      TallySum(Loaded(mentions, ids));
    }
  }

  /** A poll asks each active prompt once per engine. */
  lemma {:induction false} PollCount(ctx: PollContext, prompts: seq<TrackedPrompt>, engines: seq<AiEngine>)
    ensures |PollAnswers(ctx, prompts, engines)| == |prompts| * |engines|
    decreases |prompts|
  {
    if prompts != [] {
      var n := |prompts| - 1;
      PollCount(ctx, prompts[..n], engines);
      assert |prompts| * |engines| == n * |engines| + |engines|;
    }
  }

  lemma {:induction false} MulMonotone(a: nat, b: nat, c: nat)
    requires a <= b
    ensures a * c <= b * c
    decreases b - a
  {
    if a < b {
      MulMonotone(a, b - 1, c);
      assert (b - 1) * c + c == b * c;
    }
  }

  /** The poll's order: prompt-outer, engine-inner. */
  lemma {:induction false} PollOrder(ctx: PollContext, prompts: seq<TrackedPrompt>, engines: seq<AiEngine>, i: nat, j: nat)
    requires i < |prompts| && j < |engines|
    ensures i * |engines| + j < |PollAnswers(ctx, prompts, engines)|
    ensures PollAnswers(ctx, prompts, engines)[i * |engines| + j] == Ask(ctx, prompts[i], engines[j])
    decreases |prompts|
  {
    var n := |prompts| - 1;
    var before := PollAnswers(ctx, prompts[..n], engines);
    PollCount(ctx, prompts[..n], engines);
    PollCount(ctx, prompts, engines);
    assert PollAnswers(ctx, prompts, engines) == before + EngineAnswers(ctx, prompts[n], engines);
    if i < n {
      PollOrder(ctx, prompts[..n], engines, i, j);
    } else {
      assert i * |engines| == |before|;
    }
  }

  /** One more engine asked: its answer is appended. */
  lemma EngineStep(ctx: PollContext, p: TrackedPrompt, es: seq<AiEngine>, j: nat)
    requires j < |es|
    ensures EngineAnswers(ctx, p, es[..j + 1]) == EngineAnswers(ctx, p, es[..j]) + [Ask(ctx, p, es[j])]
  {
  }

  /** One more prompt asked: its answers are appended. */
  lemma PromptStep(ctx: PollContext, ps: seq<TrackedPrompt>, es: seq<AiEngine>, i: nat)
    requires i < |ps|
    ensures PollAnswers(ctx, ps[..i + 1], es) == PollAnswers(ctx, ps[..i], es) + EngineAnswers(ctx, ps[i], es)
  {
    assert ps[..i + 1][..i] == ps[..i];
  }

  /** The rows of two runs of answers stored one after the other. */
  lemma RowsAppend(done: seq<AiAnswer>, asked: seq<AiAnswer>, firstId: Id, brandName: string, names: seq<string>)
    ensures MentionRows(Extracted(done + asked, brandName, names), firstId)
      == MentionRows(Extracted(done, brandName, names), firstId) + MentionRows(Extracted(asked, brandName, names), firstId + |done|)
  {
    ExtractedConcat(done, asked, brandName, names);
    MentionRowsConcat(Extracted(done, brandName, names), Extracted(asked, brandName, names), firstId);
  }

  /** Rows stored for more answers after those of earlier ones are the
      rows of all of them. */
  lemma RowsStored(base: seq<Mention>, firstId: Id, done: seq<AiAnswer>, asked: seq<AiAnswer>,
                   before: seq<Mention>, after: seq<Mention>, brandName: string, names: seq<string>)
    requires before == base + MentionRows(Extracted(done, brandName, names), firstId)
    requires after == before + MentionRows(Extracted(asked, brandName, names), firstId + |done|)
    ensures after == base + MentionRows(Extracted(done + asked, brandName, names), firstId)
  {
    RowsAppend(done, asked, firstId, brandName, names);
  }

  /** Storing one more draft appends its row. */
  lemma RecordsSnoc(drafts: seq<MentionDraft>, k: nat, answerId: Id)
    requires k < |drafts|
    ensures Records(drafts[..k + 1], answerId) == Records(drafts[..k], answerId) + [Record(drafts[k], answerId)]
  {
  }

  /** The rows of a single answer are its mentions, numbered with its id. */
  lemma RowsOfOne(answer: AiAnswer, firstId: Id, brandName: string, names: seq<string>)
    ensures MentionRows(Extracted([answer], brandName, names), firstId) == Records(Mentions(answer.rawAnswer, brandName, names), firstId)
  {
    var per := Extracted([answer], brandName, names);
    assert per[0] == Mentions(answer.rawAnswer, brandName, names);
    assert per[..0] == [];
  }

  lemma ExtractedConcat(a: seq<AiAnswer>, b: seq<AiAnswer>, brandName: string, names: seq<string>)
    ensures Extracted(a + b, brandName, names) == Extracted(a, brandName, names) + Extracted(b, brandName, names)
  {
    var whole := Extracted(a + b, brandName, names);
    var parts := Extracted(a, brandName, names) + Extracted(b, brandName, names);
    forall i | 0 <= i < |whole| ensures whole[i] == parts[i] {
      if i < |a| {
        assert (a + b)[i] == a[i];
      } else {
        assert (a + b)[i] == b[i - |a|];
      }
    }
  }

  /** Storing one more answer appends its rows, numbered with its id. */
  lemma MentionRowsSnoc(per: seq<seq<MentionDraft>>, drafts: seq<MentionDraft>, firstId: Id)
    ensures MentionRows(per + [drafts], firstId) == MentionRows(per, firstId) + Records(drafts, firstId + |per|)
  {
    assert (per + [drafts])[..|per|] == per;
  }

  /** The rows of two runs of answers, one after the other. */
  lemma {:induction false} MentionRowsConcat(a: seq<seq<MentionDraft>>, b: seq<seq<MentionDraft>>, firstId: Id)
    ensures MentionRows(a + b, firstId) == MentionRows(a, firstId) + MentionRows(b, firstId + |a|)
    decreases |b|
  {
    if b == [] {
      assert a + b == a;
    } else {
      var n := |b| - 1;
      MentionRowsConcat(a, b[..n], firstId);
      assert (a + b)[..|a| + n] == a + b[..n];
      assert (a + b)[|a| + n] == b[n];
      var z := Records(b[n], firstId + |a| + n);
      assert MentionRows(a + b, firstId) == MentionRows(a + b[..n], firstId) + z;
      assert MentionRows(b, firstId + |a|) == MentionRows(b[..n], firstId + |a|) + z;
      ConcatAssoc(MentionRows(a, firstId), MentionRows(b[..n], firstId + |a|), z);
    }
  }

  /** Each of `rows` points into the run of answers described by `per`, at
      an answer among whose mentions it was found. */
  ghost predicate RowsPointInto(rows: seq<Mention>, per: seq<seq<MentionDraft>>, firstId: Id)
  {
    forall k :: 0 <= k < |rows| ==>
      firstId <= rows[k].aiAnswerId < firstId + |per| && DraftOf(rows[k]) in per[rows[k].aiAnswerId - firstId]
  }

  /** Every stored row points at the answer it was found in. */
  lemma {:induction false} MentionRowsReferToTheirAnswer(per: seq<seq<MentionDraft>>, firstId: Id)
    ensures RowsPointInto(MentionRows(per, firstId), per, firstId)
    decreases |per|
  {
    if per != [] {
      var n := |per| - 1;
      MentionRowsReferToTheirAnswer(per[..n], firstId);
      var prev := MentionRows(per[..n], firstId);
      var recs := Records(per[n], firstId + n);
      var rows := MentionRows(per, firstId);
      assert rows == prev + recs;
      assert RowsPointInto(prev, per[..n], firstId);
      forall k | 0 <= k < |rows|
        ensures firstId <= rows[k].aiAnswerId < firstId + |per| && DraftOf(rows[k]) in per[rows[k].aiAnswerId - firstId]
      {
        if k < |prev| {
          assert rows[k] == prev[k];
          var i := prev[k].aiAnswerId - firstId;
          assert 0 <= i < n && DraftOf(prev[k]) in per[..n][i];
          assert per[..n][i] == per[i];
        } else {
          assert rows[k] == recs[k - |prev|];
          assert DraftOf(rows[k]) == per[n][k - |prev|];
        }
      }
    }
  }

  /** The answer ids of `rows` never decrease. */
  ghost predicate InAnswerOrder(rows: seq<Mention>)
  {
    forall k, l :: 0 <= k <= l < |rows| ==> rows[k].aiAnswerId <= rows[l].aiAnswerId
  }

  /** Rows appended by a poll point below the new end of the answers
      table, so the table stays linked. */
  lemma AppendedRowsLinked(rows: seq<Mention>, answerCount: nat, per: seq<seq<MentionDraft>>)
    requires IdsBelow(rows, answerCount)
    ensures IdsBelow(rows + MentionRows(per, answerCount), answerCount + |per|)
  {
    var added := MentionRows(per, answerCount);
    MentionRowsReferToTheirAnswer(per, answerCount);
    assert RowsPointInto(added, per, answerCount);
    var all := rows + added;
    forall k | 0 <= k < |all| ensures all[k].aiAnswerId < answerCount + |per| {
      if k < |rows| {
        assert all[k] == rows[k];
      } else {
        assert all[k] == added[k - |rows|];
      }
    }
  }

  /** The rows come answer by answer. */
  lemma {:induction false} MentionRowsInAnswerOrder(per: seq<seq<MentionDraft>>, firstId: Id)
    ensures InAnswerOrder(MentionRows(per, firstId))
    decreases |per|
  {
    if per != [] {
      var n := |per| - 1;
      MentionRowsInAnswerOrder(per[..n], firstId);
      MentionRowsReferToTheirAnswer(per[..n], firstId);
      var prev := MentionRows(per[..n], firstId);
      var recs := Records(per[n], firstId + n);
      var rows := MentionRows(per, firstId);
      assert rows == prev + recs;
      assert RowsPointInto(prev, per[..n], firstId);
      assert InAnswerOrder(prev);
      forall k, l | 0 <= k <= l < |rows| ensures rows[k].aiAnswerId <= rows[l].aiAnswerId {
        if l >= |prev| {
          assert rows[l] == recs[l - |prev|];
          if k < |prev| {
            assert rows[k] == prev[k];
            assert prev[k].aiAnswerId < firstId + n;
          } else {
            assert rows[k] == recs[k - |prev|];
          }
        } else {
          assert rows[k] == prev[k] && rows[l] == prev[l];
        }
      }
    }
  }

  /** Every mention a poll stores names an entity that the answer it
      points at does mention. */
  lemma MentionRowsGrounded(added: seq<AiAnswer>, firstId: Id, brandName: string, names: seq<string>)
    ensures var rows := MentionRows(Extracted(added, brandName, names), firstId);
      forall k :: 0 <= k < |rows| ==>
        firstId <= rows[k].aiAnswerId < firstId + |added| && Mentioned(added[rows[k].aiAnswerId - firstId].rawAnswer, rows[k].entityName)
  {
    var per := Extracted(added, brandName, names);
    var rows := MentionRows(per, firstId);
    MentionRowsReferToTheirAnswer(per, firstId);
    assert RowsPointInto(rows, per, firstId);
    forall k | 0 <= k < |rows|
      ensures Mentioned(added[rows[k].aiAnswerId - firstId].rawAnswer, rows[k].entityName)
    {
      var i := rows[k].aiAnswerId - firstId;
      MentionsSound(added[i].rawAnswer, brandName, names);
      assert DraftOf(rows[k]) in Mentions(added[i].rawAnswer, brandName, names);
    }
  }
}
