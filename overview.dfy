/** The 30-day dashboard summary (`getVisibilityOverview` in
    lib/aiVisibility.ts): the brand's snapshot rows of the window in date
    order, folded into headline totals, a share of voice per engine and a
    share of voice per day, plus the active prompts with their answer
    counts. */
module VisibilityOverview {
  import opened Collections
  import opened AiVisibility

  // ---------------------------------------------------------------------
  // The window query

  /** The keys of the brand's snapshot rows dated `since` or later. */
  function Window(snapshots: map<SnapshotKey, Snapshot>, brandId: Id, since: int): set<SnapshotKey>
  {
    set k | k in snapshots && k.brandId == brandId && k.date >= since
  }

  /** The order the query returns rows in: by date; rows of one day, which
      the database leaves in no particular order, are taken by engine id. */
  predicate KeyBefore(a: SnapshotKey, b: SnapshotKey)
  {
    || a.date < b.date
    || (a.date == b.date && a.aiEngineId < b.aiEngineId)
    || (a.date == b.date && a.aiEngineId == b.aiEngineId && a.brandId < b.brandId)
  }

  predicate IsFirst(k: SnapshotKey, s: set<SnapshotKey>)
  {
    k in s && forall j :: j in s && j != k ==> KeyBefore(k, j)
  }

  /** Every non-empty set of keys has a first key. */
  lemma {:induction false} FirstExists(s: set<SnapshotKey>)
    requires s != {}
    ensures exists k :: IsFirst(k, s)
    decreases |s|
  {
    var x :| x in s;
    var rest := s - {x};
    if rest == {} {
      assert s == {x};
      assert IsFirst(x, s);
    } else {
      FirstExists(rest);
      var y :| IsFirst(y, rest);
      if KeyBefore(x, y) {
        forall j | j in s && j != x
          ensures KeyBefore(x, j)
        {
          assert j in rest;
        }
        assert IsFirst(x, s);
      } else {
        assert IsFirst(y, s);
      }
    }
  }

  /** The keys of `s` in query order. */
  function InDateOrder(s: set<SnapshotKey>): (r: seq<SnapshotKey>)
    decreases |s|
  {
    if s == {} then []
    else
      FirstExists(s);
      var k :| k in s && IsFirst(k, s);
      [k] + InDateOrder(s - {k})
  }

  /** A key before every key of a sorted list, put in front of it, keeps
      the list sorted. */
  lemma SortedCons(k: SnapshotKey, tail: seq<SnapshotKey>, rest: set<SnapshotKey>)
    requires forall x :: x in tail ==> x in rest
    requires forall j :: j in rest ==> KeyBefore(k, j)
    requires forall i, j :: 0 <= i < j < |tail| ==> KeyBefore(tail[i], tail[j])
    ensures forall i, j :: 0 <= i < j < |[k] + tail| ==> KeyBefore(([k] + tail)[i], ([k] + tail)[j])
  {
    var r := [k] + tail;
    forall i, j | 0 <= i < j < |r|
      ensures KeyBefore(r[i], r[j])
    {
      assert r[j] == tail[j - 1];
      if i > 0 {
        assert r[i] == tail[i - 1];
      } else {
        assert tail[j - 1] in tail;
      }
    }
  }

  /** The query returns every key of the set once, in query order. */
  lemma {:induction false} InDateOrderSorted(s: set<SnapshotKey>)
    ensures |InDateOrder(s)| == |s|
    ensures forall k :: k in InDateOrder(s) <==> k in s
    ensures forall i, j :: 0 <= i < j < |InDateOrder(s)| ==> KeyBefore(InDateOrder(s)[i], InDateOrder(s)[j])
    decreases |s|
  {
    if s != {} {
      var r := InDateOrder(s);
      var k := r[0];
      var rest := s - {k};
      assert IsFirst(k, s);
      var tail := InDateOrder(rest);
      assert r == [k] + tail;
      InDateOrderSorted(rest);
      SortedCons(k, tail, rest);
    }
  }

  /** The engine a snapshot row belongs to (`include: { aiEngine: true }`). */
  function FindEngine(engines: seq<AiEngine>, id: Id): (e: AiEngine)
    requires id in EngineIds(engines)
    ensures e in engines && e.id == id
    decreases |engines|
  {
    if engines[0].id == id then engines[0]
    else
      assert forall e :: e in engines && e != engines[0] ==> e in engines[1..];
      FindEngine(engines[1..], id)
  }

  /** A snapshot row as the summary sees it. */
  datatype Row = Row(engineName: string, date: int, totalAnswers: nat, brandMentions: nat, competitorMentions: nat)

  predicate EnginesKnown(snapshots: map<SnapshotKey, Snapshot>, engines: seq<AiEngine>)
  {
    forall k :: k in snapshots ==> k.aiEngineId in EngineIds(engines)
  }

  /** The rows of the window, in query order. */
  function WindowRows(snapshots: map<SnapshotKey, Snapshot>, engines: seq<AiEngine>, brandId: Id, since: int): (rows: seq<Row>)
    requires EnginesKnown(snapshots, engines)
  {
    var keys := InDateOrder(Window(snapshots, brandId, since));
    InDateOrderSorted(Window(snapshots, brandId, since));
    seq(|keys|, i requires 0 <= i < |keys| =>
      var s := snapshots[keys[i]];
      Row(FindEngine(engines, keys[i].aiEngineId).displayName, keys[i].date,
          s.totalAnswers, s.brandMentionCount, s.competitorMentionCount))
  }

  /** The window rows come in date order, one per snapshot row of the
      brand in the window. */
  lemma WindowRowsInDateOrder(snapshots: map<SnapshotKey, Snapshot>, engines: seq<AiEngine>, brandId: Id, since: int)
    requires EnginesKnown(snapshots, engines)
    ensures |WindowRows(snapshots, engines, brandId, since)| == |Window(snapshots, brandId, since)|
    ensures forall i :: 0 <= i < |WindowRows(snapshots, engines, brandId, since)| ==> WindowRows(snapshots, engines, brandId, since)[i].date >= since
    ensures DateOrdered(WindowRows(snapshots, engines, brandId, since))
  {
    var rows := WindowRows(snapshots, engines, brandId, since);
    var keys := InDateOrder(Window(snapshots, brandId, since));
    InDateOrderSorted(Window(snapshots, brandId, since));
    forall i | 0 <= i < |rows|
      ensures rows[i].date >= since
    {
      assert keys[i] in Window(snapshots, brandId, since);
    }
    forall i, j | 0 <= i < j < |rows|
      ensures rows[i].date <= rows[j].date
    {
      assert KeyBefore(keys[i], keys[j]);
    }
  }

  predicate DateOrdered(rows: seq<Row>)
  {
    forall i, j :: 0 <= i < j < |rows| ==> rows[i].date <= rows[j].date
  }

  // ---------------------------------------------------------------------
  // Grouping

  /** A per-key accumulator of the loop: brand mentions and all mentions. */
  datatype Bucket<K> = Bucket(key: K, brand: nat, total: nat)

  function RowTotal(r: Row): nat
  {
    r.brandMentions + r.competitorMentions
  }

  function EngineKey(r: Row): string
  {
    r.engineName
  }

  /** `toISOString().split('T')[0]`, with days kept as numbers. */
  function DayKey(r: Row): int
  {
    r.date
  }

  function Keys<K>(buckets: seq<Bucket<K>>): (ks: seq<K>)
    ensures |ks| == |buckets|
    ensures forall i :: 0 <= i < |buckets| ==> ks[i] == buckets[i].key
  {
    seq(|buckets|, i requires 0 <= i < |buckets| => buckets[i].key)
  }

  /** The position of the first occurrence of `k`. */
  function IndexOf<K(==)>(ks: seq<K>, k: K): (i: nat)
    requires k in ks
    ensures i < |ks| && ks[i] == k && k !in ks[..i]
    decreases |ks|
  {
    if ks[0] == k then 0
    else
      assert ks[1..][..IndexOf(ks[1..], k)] == ks[1..1 + IndexOf(ks[1..], k)];
      1 + IndexOf(ks[1..], k)
  }

  /** One step of the loop on one accumulator object: create the entry of
      the key if it is missing, then add to it. New keys go at the end,
      which is the order `Object.keys` and `Object.values` report them in. */
  function AddTo<K(==)>(buckets: seq<Bucket<K>>, key: K, brand: nat, total: nat): seq<Bucket<K>>
  {
    if key in Keys(buckets) then
      var i := IndexOf(Keys(buckets), key);
      buckets[i := Bucket(key, buckets[i].brand + brand, buckets[i].total + total)]
    else buckets + [Bucket(key, brand, total)]
  }

  function RowKeys<K>(rows: seq<Row>, keyOf: Row -> K): (ks: seq<K>)
    ensures |ks| == |rows|
  {
    seq(|rows|, i requires 0 <= i < |rows| => keyOf(rows[i]))
  }

  /** The rows grouped by key, keys in order of first appearance. */
  function GroupBy<K(==)>(rows: seq<Row>, keyOf: Row -> K): seq<Bucket<K>>
    decreases |rows|
  {
    if rows == [] then []
    else
      var n := |rows| - 1;
      AddTo(GroupBy(rows[..n], keyOf), keyOf(rows[n]), rows[n].brandMentions, RowTotal(rows[n]))
  }

  /** The distinct elements of `ks`, each where it first occurs. */
  function FirstSeen<K(==)>(ks: seq<K>): seq<K>
    decreases |ks|
  {
    if ks == [] then []
    else
      var n := |ks| - 1;
      FirstSeen(ks[..n]) + if ks[n] in ks[..n] then [] else [ks[n]]
  }

  predicate Distinct<K(==)>(ks: seq<K>)
  {
    forall i, j :: 0 <= i < j < |ks| ==> ks[i] != ks[j]
  }

  /** First occurrences are distinct and are exactly the elements. */
  lemma {:induction false} FirstSeenMembers<K>(ks: seq<K>)
    ensures Distinct(FirstSeen(ks))
    ensures forall k :: k in FirstSeen(ks) <==> k in ks
    decreases |ks|
  {
    if ks != [] {
      var n := |ks| - 1;
      FirstSeenMembers(ks[..n]);
      assert ks == ks[..n] + [ks[n]];
    }
  }

  /** Over a non-decreasing list of numbers, first occurrences are
      strictly increasing. */
  lemma {:induction false} FirstSeenIncreasing(ks: seq<int>)
    requires forall i, j :: 0 <= i < j < |ks| ==> ks[i] <= ks[j]
    ensures forall i, j :: 0 <= i < j < |FirstSeen(ks)| ==> FirstSeen(ks)[i] < FirstSeen(ks)[j]
    decreases |ks|
  {
    if ks != [] {
      var n := |ks| - 1;
      FirstSeenIncreasing(ks[..n]);
      FirstSeenMembers(ks[..n]);
      var f := FirstSeen(ks);
      var before := FirstSeen(ks[..n]);
      if ks[n] !in ks[..n] {
        forall i | 0 <= i < |before|
          ensures before[i] < ks[n]
        {
          assert before[i] in ks[..n];
          var m :| 0 <= m < n && ks[..n][m] == before[i];
        }
      }
    }
  }

  /** What adding one entry does to the keys. */
  lemma AddToKeys<K>(buckets: seq<Bucket<K>>, key: K, brand: nat, total: nat)
    ensures Keys(AddTo(buckets, key, brand, total)) == Keys(buckets) + if key in Keys(buckets) then [] else [key]
  {
  }

  /** The accumulator keys are the row keys in order of first appearance:
      no day or engine without rows appears, and none appears twice. */
  lemma {:induction false} GroupKeys<K>(rows: seq<Row>, keyOf: Row -> K)
    ensures Keys(GroupBy(rows, keyOf)) == FirstSeen(RowKeys(rows, keyOf))
    decreases |rows|
  {
    if rows != [] {
      var n := |rows| - 1;
      GroupKeys(rows[..n], keyOf);
      AddToKeys(GroupBy(rows[..n], keyOf), keyOf(rows[n]), rows[n].brandMentions, RowTotal(rows[n]));
      var ks := RowKeys(rows, keyOf);
      assert ks[..n] == RowKeys(rows[..n], keyOf);
      assert ks[n] == keyOf(rows[n]);
      FirstSeenMembers(ks[..n]);
      assert ks != [];
      assert FirstSeen(ks) == FirstSeen(ks[..n]) + if ks[n] in ks[..n] then [] else [ks[n]];
      assert GroupBy(rows, keyOf) == AddTo(GroupBy(rows[..n], keyOf), keyOf(rows[n]), rows[n].brandMentions, RowTotal(rows[n]));
    }
  }

  /** The brand mentions of the rows with key `k`. */
  function BrandWhere<K(==)>(rows: seq<Row>, keyOf: Row -> K, k: K): nat
    decreases |rows|
  {
    if rows == [] then 0
    else
      var n := |rows| - 1;
      BrandWhere(rows[..n], keyOf, k) + if keyOf(rows[n]) == k then rows[n].brandMentions else 0
  }

  /** All mentions of the rows with key `k`. */
  function TotalWhere<K(==)>(rows: seq<Row>, keyOf: Row -> K, k: K): nat
    decreases |rows|
  {
    if rows == [] then 0
    else
      var n := |rows| - 1;
      TotalWhere(rows[..n], keyOf, k) + if keyOf(rows[n]) == k then RowTotal(rows[n]) else 0
  }

  /** Each entry holds the sums over exactly the rows of its key, and never
      more brand mentions than mentions. */
  ghost predicate Tallies<K>(buckets: seq<Bucket<K>>, rows: seq<Row>, keyOf: Row -> K)
  {
    forall i :: 0 <= i < |buckets| ==>
      && buckets[i].brand == BrandWhere(rows, keyOf, buckets[i].key)
      && buckets[i].total == TotalWhere(rows, keyOf, buckets[i].key)
      && buckets[i].brand <= buckets[i].total
  }

  lemma {:induction false} GroupSums<K>(rows: seq<Row>, keyOf: Row -> K)
    ensures Tallies(GroupBy(rows, keyOf), rows, keyOf)
    decreases |rows|
  {
    if rows != [] {
      var n := |rows| - 1;
      var before := GroupBy(rows[..n], keyOf);
      var r := rows[n];
      GroupSums(rows[..n], keyOf);
      GroupKeys(rows[..n], keyOf);
      FirstSeenMembers(RowKeys(rows[..n], keyOf));
      var after := GroupBy(rows, keyOf);
      forall i | 0 <= i < |after|
        ensures after[i].brand == BrandWhere(rows, keyOf, after[i].key)
        ensures after[i].total == TotalWhere(rows, keyOf, after[i].key)
        ensures after[i].brand <= after[i].total
      {
        if keyOf(r) in Keys(before) {
          var p := IndexOf(Keys(before), keyOf(r));
          if i != p {
            assert after[i] == before[i];
            assert before[i].key != before[p].key by {
              assert Keys(before)[i] != Keys(before)[p];
            }
          }
        } else if i < |before| {
          assert after[i] == before[i];
          assert Keys(before)[i] in Keys(before);
        } else {
          NothingWhere(rows[..n], keyOf, keyOf(r));
        }
      }
    }
  }

  /** A key no row has sums to nothing. */
  lemma {:induction false} NothingWhere<K>(rows: seq<Row>, keyOf: Row -> K, k: K)
    requires k !in FirstSeen(RowKeys(rows, keyOf))
    ensures BrandWhere(rows, keyOf, k) == 0 && TotalWhere(rows, keyOf, k) == 0
    decreases |rows|
  {
    if rows != [] {
      var n := |rows| - 1;
      FirstSeenMembers(RowKeys(rows, keyOf));
      FirstSeenMembers(RowKeys(rows[..n], keyOf));
      assert RowKeys(rows, keyOf)[..n] == RowKeys(rows[..n], keyOf);
      assert RowKeys(rows, keyOf)[n] == keyOf(rows[n]);
      NothingWhere(rows[..n], keyOf, k);
    }
  }

  // ---------------------------------------------------------------------
  // Sums

  function SumAnswers(rows: seq<Row>): nat
    decreases |rows|
  {
    if rows == [] then 0 else SumAnswers(rows[..|rows| - 1]) + rows[|rows| - 1].totalAnswers
  }

  function SumBrand(rows: seq<Row>): nat
    decreases |rows|
  {
    if rows == [] then 0 else SumBrand(rows[..|rows| - 1]) + rows[|rows| - 1].brandMentions
  }

  function SumCompetitor(rows: seq<Row>): nat
    decreases |rows|
  {
    if rows == [] then 0 else SumCompetitor(rows[..|rows| - 1]) + rows[|rows| - 1].competitorMentions
  }

  function BucketBrand<K>(buckets: seq<Bucket<K>>): nat
    decreases |buckets|
  {
    if buckets == [] then 0 else buckets[0].brand + BucketBrand(buckets[1..])
  }

  function BucketTotal<K>(buckets: seq<Bucket<K>>): nat
    decreases |buckets|
  {
    if buckets == [] then 0 else buckets[0].total + BucketTotal(buckets[1..])
  }

  /** Replacing one entry changes the sums by the difference. */
  lemma {:induction false} BucketSumsUpdate<K>(buckets: seq<Bucket<K>>, i: nat, b: Bucket<K>)
    requires i < |buckets|
    ensures BucketBrand(buckets[i := b]) + buckets[i].brand == BucketBrand(buckets) + b.brand
    ensures BucketTotal(buckets[i := b]) + buckets[i].total == BucketTotal(buckets) + b.total
    decreases i
  {
    if i > 0 {
      BucketSumsUpdate(buckets[1..], i - 1, b);
      assert buckets[i := b][1..] == buckets[1..][i - 1 := b];
    }
  }

  lemma {:induction false} BucketSumsSnoc<K>(buckets: seq<Bucket<K>>, b: Bucket<K>)
    ensures BucketBrand(buckets + [b]) == BucketBrand(buckets) + b.brand
    ensures BucketTotal(buckets + [b]) == BucketTotal(buckets) + b.total
    decreases |buckets|
  {
    if buckets != [] {
      BucketSumsSnoc(buckets[1..], b);
      assert (buckets + [b])[1..] == buckets[1..] + [b];
    }
  }

  /** Grouping loses no mention: the entries add up to the row totals. */
  lemma {:induction false} GroupTotals<K>(rows: seq<Row>, keyOf: Row -> K)
    ensures BucketBrand(GroupBy(rows, keyOf)) == SumBrand(rows)
    ensures BucketTotal(GroupBy(rows, keyOf)) == SumBrand(rows) + SumCompetitor(rows)
    decreases |rows|
  {
    if rows != [] {
      var n := |rows| - 1;
      var before := GroupBy(rows[..n], keyOf);
      var r := rows[n];
      GroupTotals(rows[..n], keyOf);
      assert GroupBy(rows, keyOf) == AddTo(before, keyOf(r), r.brandMentions, RowTotal(r));
      if keyOf(r) in Keys(before) {
        var p := IndexOf(Keys(before), keyOf(r));
        BucketSumsUpdate(before, p, Bucket(keyOf(r), before[p].brand + r.brandMentions, before[p].total + RowTotal(r)));
      } else {
        BucketSumsSnoc(before, Bucket(keyOf(r), r.brandMentions, RowTotal(r)));
      }
    }
  }

  // ---------------------------------------------------------------------
  // Share of voice and the summary

  /** `part / whole * 100`, or 0 when `whole` is 0. */
  function Percent(part: nat, whole: nat): real
  {
    if whole > 0 then part as real / whole as real * 100.0 else 0.0
  }

  /** A percentage of a part of a whole is between 0 and 100, is 0 for an
      empty whole, and scales back to the part. */
  lemma PercentBounds(part: nat, whole: nat)
    requires part <= whole
    ensures 0.0 <= Percent(part, whole) <= 100.0
    ensures whole == 0 ==> Percent(part, whole) == 0.0
    ensures whole > 0 ==> Percent(part, whole) * whole as real == part as real * 100.0
    ensures part == whole && whole > 0 ==> Percent(part, whole) == 100.0
  {
    if whole > 0 {
      var q := part as real / whole as real;
      assert q * whole as real == part as real;
      assert q <= 1.0 by {
        if q > 1.0 {
          assert q * whole as real > 1.0 * whole as real;
        }
      }
    }
  }

  /** `Math.round` on a non-negative number: half rounds up. */
  function Round(x: real): int
  {
    (x + 0.5).Floor
  }

  lemma RoundBounds(x: real)
    requires 0.0 <= x <= 100.0
    ensures 0 <= Round(x) <= 100
    ensures x == 0.0 ==> Round(x) == 0
    ensures Round(x) as real - 0.5 <= x < Round(x) as real + 0.5
  {
  }

  datatype EnginePoint = EnginePoint(name: string, sov: real)

  datatype TrendPoint = TrendPoint(date: int, brandSov: real)

  datatype PromptStat = PromptStat(id: Id, text: string, answerCount: nat)

  datatype Headline = Headline(overallSov: int, totalAnswers: nat, competitorsTracked: nat)

  datatype Overview = Overview(headline: Headline, engineChart: seq<EnginePoint>, trend: seq<TrendPoint>, prompts: seq<PromptStat>)

  function EngineChart(buckets: seq<Bucket<string>>): (chart: seq<EnginePoint>)
    ensures |chart| == |buckets|
  {
    seq(|buckets|, i requires 0 <= i < |buckets| => EnginePoint(buckets[i].key, Percent(buckets[i].brand, buckets[i].total)))
  }

  function Trend(buckets: seq<Bucket<int>>): (trend: seq<TrendPoint>)
    ensures |trend| == |buckets|
  {
    seq(|buckets|, i requires 0 <= i < |buckets| => TrendPoint(buckets[i].key, Percent(buckets[i].brand, buckets[i].total)))
  }

  /** What the summary of the rows is. */
  function OverviewOf(rows: seq<Row>, competitorsTracked: nat, prompts: seq<PromptStat>): Overview
  {
    var brand := SumBrand(rows);
    var competitor := SumCompetitor(rows);
    Overview(
      Headline(Round(Percent(brand, brand + competitor)), SumAnswers(rows), competitorsTracked),
      EngineChart(GroupBy(rows, EngineKey)),
      Trend(GroupBy(rows, DayKey)),
      prompts)
  }

  /** The number of competitors of the brand (`competitor.count`). */
  function TrackedCompetitors(competitors: seq<Competitor>, brandId: Id): nat
  {
    |Filter(competitors, (c: Competitor) => c.brandId == brandId)|
  }

  function ForPrompt(promptId: Id): AiAnswer -> bool
  {
    (a: AiAnswer) => a.trackedPromptId == promptId
  }

  /** The brand's active prompts with the number of answers to each. */
  function PromptStats(prompts: seq<TrackedPrompt>, answers: seq<AiAnswer>, brandId: Id): (stats: seq<PromptStat>)
    ensures |stats| == |ActivePrompts(prompts, brandId)|
  {
    var ps := ActivePrompts(prompts, brandId);
    seq(|ps|, i requires 0 <= i < |ps| => PromptStat(ps[i].id, ps[i].text, |Filter(answers, ForPrompt(ps[i].id))|))
  }

  /** `getVisibilityOverview`: reads the window, folds it row by row into
      the totals and the two accumulators, then derives the percentages. */
  method GetVisibilityOverview(store: VisibilityStore, brandId: Id, since: int) returns (o: Overview)
    requires store.Valid()
    ensures EnginesKnown(store.snapshots, store.engines)
    ensures o == OverviewOf(WindowRows(store.snapshots, store.engines, brandId, since),
                            TrackedCompetitors(store.competitors, brandId),
                            PromptStats(store.prompts, store.answers, brandId))
  {
    var rows := WindowRows(store.snapshots, store.engines, brandId, since);
    var totalAnswers, totalBrand, totalCompetitor := 0, 0, 0;
    var perEngine: seq<Bucket<string>> := [];
    var trendMap: seq<Bucket<int>> := [];
    for i := 0 to |rows|
      invariant totalAnswers == SumAnswers(rows[..i])
      invariant totalBrand == SumBrand(rows[..i])
      invariant totalCompetitor == SumCompetitor(rows[..i])
      invariant perEngine == GroupBy(rows[..i], EngineKey)
      invariant trendMap == GroupBy(rows[..i], DayKey)
    {
      var s := rows[i];
      assert rows[..i + 1][..i] == rows[..i];
      totalAnswers := totalAnswers + s.totalAnswers;
      totalBrand := totalBrand + s.brandMentions;
      totalCompetitor := totalCompetitor + s.competitorMentions;
      perEngine := AddTo(perEngine, s.engineName, s.brandMentions, s.brandMentions + s.competitorMentions);
      trendMap := AddTo(trendMap, s.date, s.brandMentions, s.brandMentions + s.competitorMentions);
    }
    assert rows[..|rows|] == rows;
    var overallSov := Percent(totalBrand, totalBrand + totalCompetitor);
    var headline := Headline(Round(overallSov), totalAnswers, TrackedCompetitors(store.competitors, brandId));
    o := Overview(headline, EngineChart(perEngine), Trend(trendMap), PromptStats(store.prompts, store.answers, brandId));
  }

  // ---------------------------------------------------------------------
  // What the summary promises

  /** Every share of voice is a percentage; the headline is 0 when the
      window has no mentions; the engine names and the days are distinct
      and are exactly those of the rows. */
  lemma OverviewWellFormed(rows: seq<Row>, competitorsTracked: nat, prompts: seq<PromptStat>)
    ensures var o := OverviewOf(rows, competitorsTracked, prompts);
      && 0 <= o.headline.overallSov <= 100
      && (SumBrand(rows) + SumCompetitor(rows) == 0 ==> o.headline.overallSov == 0)
      && (forall i :: 0 <= i < |o.engineChart| ==> 0.0 <= o.engineChart[i].sov <= 100.0)
      && (forall i :: 0 <= i < |o.trend| ==> 0.0 <= o.trend[i].brandSov <= 100.0)
      && (forall n :: n in Keys(GroupBy(rows, EngineKey)) <==> n in RowKeys(rows, EngineKey))
      && (forall d :: d in Keys(GroupBy(rows, DayKey)) <==> d in RowKeys(rows, DayKey))
      && Distinct(Keys(GroupBy(rows, EngineKey)))
      && Distinct(Keys(GroupBy(rows, DayKey)))
  {
    var brand := SumBrand(rows);
    var competitor := SumCompetitor(rows);
    PercentBounds(brand, brand + competitor);
    RoundBounds(Percent(brand, brand + competitor));
    var engines := GroupBy(rows, EngineKey);
    var days := GroupBy(rows, DayKey);
    GroupSums(rows, EngineKey);
    GroupSums(rows, DayKey);
    forall i | 0 <= i < |engines|
      ensures 0.0 <= Percent(engines[i].brand, engines[i].total) <= 100.0
    {
      PercentBounds(engines[i].brand, engines[i].total);
    }
    forall i | 0 <= i < |days|
      ensures 0.0 <= Percent(days[i].brand, days[i].total) <= 100.0
    {
      PercentBounds(days[i].brand, days[i].total);
    }
    GroupKeys(rows, EngineKey);
    GroupKeys(rows, DayKey);
    FirstSeenMembers(RowKeys(rows, EngineKey));
    FirstSeenMembers(RowKeys(rows, DayKey));
  }

  /** Rows in date order give a trend in strictly increasing date order. */
  lemma TrendInDateOrder(rows: seq<Row>, competitorsTracked: nat, prompts: seq<PromptStat>)
    requires DateOrdered(rows)
    ensures var t := OverviewOf(rows, competitorsTracked, prompts).trend;
      forall i, j :: 0 <= i < j < |t| ==> t[i].date < t[j].date
  {
    GroupKeys(rows, DayKey);
    FirstSeenIncreasing(RowKeys(rows, DayKey));
  }

  /** The overview's trend runs from the oldest day of the window to the
      newest, one point per day that has rows. */
  lemma OverviewTrendOrdered(snapshots: map<SnapshotKey, Snapshot>, engines: seq<AiEngine>, brandId: Id, since: int, competitorsTracked: nat, prompts: seq<PromptStat>)
    requires EnginesKnown(snapshots, engines)
    ensures var t := OverviewOf(WindowRows(snapshots, engines, brandId, since), competitorsTracked, prompts).trend;
      && (forall i, j :: 0 <= i < j < |t| ==> t[i].date < t[j].date)
      && (forall i :: 0 <= i < |t| ==> t[i].date >= since)
  {
    var rows := WindowRows(snapshots, engines, brandId, since);
    WindowRowsInDateOrder(snapshots, engines, brandId, since);
    TrendInDateOrder(rows, competitorsTracked, prompts);
    GroupKeys(rows, DayKey);
    FirstSeenMembers(RowKeys(rows, DayKey));
    var t := OverviewOf(rows, competitorsTracked, prompts).trend;
    forall i | 0 <= i < |t|
      ensures t[i].date >= since
    {
      assert t[i].date in RowKeys(rows, DayKey);
    }
  }

  /** The per-engine and per-day mention totals both add up to the
      window's totals: every row lands in exactly one engine and one day. */
  lemma OverviewTotals(rows: seq<Row>)
    ensures BucketBrand(GroupBy(rows, EngineKey)) == SumBrand(rows)
    ensures BucketTotal(GroupBy(rows, EngineKey)) == SumBrand(rows) + SumCompetitor(rows)
    ensures BucketBrand(GroupBy(rows, DayKey)) == SumBrand(rows)
    ensures BucketTotal(GroupBy(rows, DayKey)) == SumBrand(rows) + SumCompetitor(rows)
  {
    GroupTotals(rows, EngineKey);
    GroupTotals(rows, DayKey);
  }
}
