/*
 * PerformanceAnalyzer of src/performance_analyzer.py: the benchmarks
 * taken from the account's insights, the comparison of one ad's
 * metrics with them (percentage deltas, a weighted score, a rating and
 * a stability score) and the ranking of its age/gender segments.
 */
module PerformanceAnalysis {
  import opened Common
  import opened Sorting

  // ---- benchmarks ----

  /** The benchmark dictionary: a market, its metric benchmarks and per-segment benchmarks. */
  datatype Benchmarks = Benchmarks(market: string, metrics: map<string, real>,
                                   segments: map<string, map<string, real>>)

  /** `d.get(k, 0)` */
  function Get0(d: map<string, real>, k: string): real {
    if k in d then d[k] else 0.0
  }

  /** What the account insights yield: numbers by key, nothing at all, or the exception. */
  datatype Insights = Insights(values: map<string, real>) | NoInsights | InsightsError

  /** The benchmarks taken from the account's insights. */
  function AccountBenchmarks(region: string, values: map<string, real>): (b: Benchmarks) {
    Benchmarks(region,
               map["ctr" := Get0(values, "ctr"), "cpm" := Get0(values, "cpm"),
                   "cpa" := Get0(values, "cost_per_conversion"), "roas" := Get0(values, "roas"),
                   "conversion_rate" := Get0(values, "conversion_rate"),
                   "hook_rate" := Get0(values, "hook_rate"),
                   "viewthrough_rate" := Get0(values, "viewthrough_rate")],
               map[])
  }

  /** True when calculate_benchmarks produces real benchmarks (and stores them). */
  predicate BenchmarksFound(hasClient: bool, insights: Insights) {
    hasClient && insights.Insights? && insights.values != map[]
  }

  /** `calculate_benchmarks`: the account's numbers, or an empty placeholder. */
  function BenchmarksFrom(hasClient: bool, region: string, insights: Insights): (b: Benchmarks)
    ensures BenchmarksFound(hasClient, insights) ==>
              b.market == region && b.metrics.Keys == {"ctr", "cpm", "cpa", "roas", "conversion_rate", "hook_rate", "viewthrough_rate"}
              && b.metrics["cpa"] == Get0(insights.values, "cost_per_conversion")
    ensures !BenchmarksFound(hasClient, insights) ==> b.metrics == map[] && b.segments == map[]
    ensures !BenchmarksFound(hasClient, insights) ==>
              b.market == if hasClient && insights.InsightsError? then "Error" else "Unknown"
  {
    if !hasClient then Benchmarks("Unknown", map[], map[])
    else match insights
      case InsightsError => Benchmarks("Error", map[], map[])
      case NoInsights => Benchmarks("Unknown", map[], map[])
      case Insights(values) =>
        if values == map[] then Benchmarks("Unknown", map[], map[]) else AccountBenchmarks(region, values)
  }

  // ---- comparison with the benchmarks ----

  /** A higher-is-better delta: the percentage above the benchmark, 0 without a positive benchmark. */
  function HigherBetter(m: map<string, real>, b: map<string, real>, k: string): real {
    if k in m && k in b && b[k] > 0.0 then (m[k] / b[k] - 1.0) * 100.0 else 0.0
  }

  /** A lower-is-better delta: inverted, and only when both values are positive. */
  function LowerBetter(m: map<string, real>, b: map<string, real>, k: string): real {
    if k in m && k in b && b[k] > 0.0 && m[k] > 0.0 then (b[k] / m[k] - 1.0) * 100.0 else 0.0
  }

  /** A positive delta always means better than the benchmark. */
  lemma DeltaPolarity(m: map<string, real>, b: map<string, real>, k: string)
    ensures HigherBetter(m, b, k) > 0.0 <==> k in m && k in b && b[k] > 0.0 && m[k] > b[k]
    ensures HigherBetter(m, b, k) < 0.0 <==> k in m && k in b && b[k] > 0.0 && m[k] < b[k]
    ensures LowerBetter(m, b, k) > 0.0 <==> k in m && k in b && b[k] > 0.0 && m[k] > 0.0 && m[k] < b[k]
    ensures LowerBetter(m, b, k) < 0.0 <==> k in m && k in b && b[k] > 0.0 && m[k] > 0.0 && m[k] > b[k]
  {
    if k in m && k in b && b[k] > 0.0 {
      Ratio(m[k], b[k]);
      if m[k] > 0.0 {
        Ratio(b[k], m[k]);
      }
    }
  }

  lemma Ratio(x: real, y: real)
    requires y > 0.0
    ensures x / y > 1.0 <==> x > y
    ensures x / y < 1.0 <==> x < y
  {
  }

  /**
   * A delta is exactly the percentage gap to a positive benchmark: the
   * value is the benchmark scaled by 1 + delta/100 (for lower-is-better,
   * the benchmark is the value so scaled).
   */
  lemma DeltaIsPercentage(m: map<string, real>, b: map<string, real>, k: string, p: real)
    requires k in m && k in b && b[k] > 0.0
    ensures HigherBetter(m, b, k) == p <==> m[k] == b[k] * (1.0 + p / 100.0)
    ensures m[k] > 0.0 ==> (LowerBetter(m, b, k) == p <==> b[k] == m[k] * (1.0 + p / 100.0))
  {
    ScaledRatio(m[k], b[k], p);
    if m[k] > 0.0 {
      ScaledRatio(b[k], m[k], p);
    }
  }

  lemma ScaledRatio(x: real, y: real, p: real)
    requires y > 0.0
    ensures (x / y - 1.0) * 100.0 == p <==> x == y * (1.0 + p / 100.0)
  {
    calc {
      (x / y - 1.0) * 100.0 == p;
    <==>
      x / y == 1.0 + p / 100.0;
    <==> { DivisionInverse(x, y, 1.0 + p / 100.0); }
      x == y * (1.0 + p / 100.0);
    }
  }

  lemma DivisionInverse(x: real, y: real, c: real)
    requires y > 0.0
    ensures x / y == c <==> x == y * c
  {
    assert x / y * y == x;
    assert y * c / y == c;
  }

  /** The six deltas. */
  datatype Deltas = Deltas(ctr: real, cpa: real, roas: real, cpm: real, hookRate: real, viewthroughRate: real)

  function DeltasOf(m: map<string, real>, b: map<string, real>): Deltas {
    Deltas(HigherBetter(m, b, "ctr"), LowerBetter(m, b, "cpa"), HigherBetter(m, b, "roas"),
           LowerBetter(m, b, "cpm"), HigherBetter(m, b, "hook_rate"), HigherBetter(m, b, "viewthrough_rate"))
  }

  /** The weighted score: 30 percent each for cpa and roas, 10 percent each for the rest. */
  function Score(d: Deltas): real {
    d.ctr * 0.10 + d.cpa * 0.30 + d.roas * 0.30 + d.cpm * 0.10 + d.hookRate * 0.10 + d.viewthroughRate * 0.10
  }

  /** The weights add up to one: equal deltas score their common value. */
  lemma ScoreOfEqualDeltas(x: real)
    ensures Score(Deltas(x, x, x, x, x, x)) == x
  {
  }

  /** Better deltas never lower the score. */
  lemma ScoreMonotone(a: Deltas, b: Deltas)
    requires a.ctr <= b.ctr && a.cpa <= b.cpa && a.roas <= b.roas
    requires a.cpm <= b.cpm && a.hookRate <= b.hookRate && a.viewthroughRate <= b.viewthroughRate
    ensures Score(a) <= Score(b)
    ensures RatingRank(RatingOf(Score(a))) <= RatingRank(RatingOf(Score(b)))
  {
  }

  /** The three-way rating. */
  datatype Rating = AboveAverage | Average | BelowAverage

  function RatingOf(score: real): Rating {
    if score >= 20.0 then AboveAverage else if score <= -20.0 then BelowAverage else Average
  }

  /** The ratings in order, worst first. */
  function RatingRank(r: Rating): int {
    match r
    case AboveAverage => 2
    case Average => 1
    case BelowAverage => 0
  }

  /** The rating as the report writes it. */
  function RatingText(r: Rating): string {
    match r
    case AboveAverage => "Above Average"
    case Average => "Average"
    case BelowAverage => "Below Average"
  }

  /** An ad without benchmarks (every delta zero) is Average. */
  lemma NoBenchmarksIsAverage(m: map<string, real>)
    ensures DeltasOf(m, map[]) == Deltas(0.0, 0.0, 0.0, 0.0, 0.0, 0.0)
    ensures RatingOf(Score(DeltasOf(m, map[]))) == Average
  {
    var none: map<string, real> := map[];
    assert HigherBetter(m, none, "ctr") == 0.0 && LowerBetter(m, none, "cpa") == 0.0;
    assert HigherBetter(m, none, "roas") == 0.0 && LowerBetter(m, none, "cpm") == 0.0;
    assert HigherBetter(m, none, "hook_rate") == 0.0 && HigherBetter(m, none, "viewthrough_rate") == 0.0;
  }

  const KeyMetrics: seq<string> := ["ctr", "cpa", "roas", "cpm", "hook_rate", "viewthrough_rate"]

  /** How many of the keys are present with a positive value. */
  function CountPositive(m: map<string, real>, keys: seq<string>): (n: nat)
    ensures n <= |keys|
    ensures n == |keys| <==> forall i :: 0 <= i < |keys| ==> keys[i] in m && m[keys[i]] > 0.0
  {
    if keys == [] then 0
    else CountPositive(m, keys[..|keys| - 1]) + (if keys[|keys| - 1] in m && m[keys[|keys| - 1]] > 0.0 then 1 else 0)
  }

  /** The share of the six key metrics that are present and positive, in percent. */
  function Stability(m: map<string, real>): (s: real)
    ensures 0.0 <= s <= 100.0
    ensures s == 100.0 <==> forall i :: 0 <= i < |KeyMetrics| ==> KeyMetrics[i] in m && m[KeyMetrics[i]] > 0.0
    ensures s == 0.0 <==> CountPositive(m, KeyMetrics) == 0
  {
    CountPositive(m, KeyMetrics) as real / 6.0 * 100.0
  }

  /** The result of compare_to_benchmarks. */
  datatype Comparison = Comparison(deltas: Deltas, score: real, rating: Rating, stability: real)

  function ComparisonOf(m: map<string, real>, b: map<string, real>): Comparison {
    var d := DeltasOf(m, b);
    Comparison(d, Score(d), RatingOf(Score(d)), Stability(m))
  }

  // ---- segments ----

  /** An age_gender breakdown entry; missing numbers read as 0. */
  datatype SegmentRow = SegmentRow(age: Option<string>, gender: Option<string>,
                                   spend: real, impressions: real, clicks: real, conversions: real)

  function OrText(x: Option<string>, dflt: string): string {
    if x.Some? then x.value else dflt
  }

  /** "<age> <gender>", lower-cased, '-' and '_' as spaces, '+' as " plus". */
  function SegmentName(row: SegmentRow): string {
    var raw := OrText(row.age, "unknown") + " " + OrText(row.gender, "unknown");
    Replace(Replace(Replace(Lower(raw), '-', " "), '_', " "), '+', " plus")
  }

  /** A segment name carries no dash, underscore or plus sign. */
  lemma SegmentNameClean(row: SegmentRow)
    ensures '-' !in SegmentName(row) && '_' !in SegmentName(row) && '+' !in SegmentName(row)
  {
    var raw := OrText(row.age, "unknown") + " " + OrText(row.gender, "unknown");
    var a := Replace(Lower(raw), '-', " ");
    var b := Replace(a, '_', " ");
    assert '-' !in b by {
      ReplaceAbsent(a, '_', " ", '-');
    }
    ReplaceAbsent(b, '+', " plus", '-');
    ReplaceAbsent(b, '+', " plus", '_');
  }

  /** A segment name carries no capital letter. */
  lemma SegmentNameLowerCase(row: SegmentRow)
    ensures NoCapitals(SegmentName(row))
  {
    var raw := OrText(row.age, "unknown") + " " + OrText(row.gender, "unknown");
    var low := Lower(raw);
    var a := Replace(low, '-', " ");
    var b := Replace(a, '_', " ");
    assert NoCapitals(low) by {
      forall i | 0 <= i < |low| ensures !('A' <= low[i] <= 'Z') {
        LowerCharNotCapital(raw[i]);
      }
    }
    ReplaceNoCapitals(low, '-', " ");
    ReplaceNoCapitals(a, '_', " ");
    ReplaceNoCapitals(b, '+', " plus");
  }

  lemma LowerCharNotCapital(c: char)
    ensures !('A' <= LowerChar(c) <= 'Z')
  {
  }

  predicate NoCapitals(s: string) {
    forall i :: 0 <= i < |s| ==> !('A' <= s[i] <= 'Z')
  }

  lemma {:induction false} ReplaceNoCapitals(s: string, c: char, sub: string)
    requires NoCapitals(s) && NoCapitals(sub)
    ensures NoCapitals(Replace(s, c, sub))
    decreases |s|
  {
    if s != [] {
      ReplaceNoCapitals(s[1..], c, sub);
    }
  }

  /** The metrics of a segment with its derived ratios, each guarded by its denominator. */
  datatype SegmentMetrics = SegmentMetrics(spend: real, impressions: real, clicks: real, conversions: real,
                                           ctr: real, cpm: real, cpa: real, conversionRate: real)

  function SegmentMetricsOf(row: SegmentRow): (m: SegmentMetrics)
    ensures m.impressions <= 0.0 ==> m.ctr == 0.0 && m.cpm == 0.0
    ensures m.conversions <= 0.0 ==> m.cpa == 0.0 && m.conversionRate == 0.0
    ensures m.clicks <= 0.0 ==> m.conversionRate == 0.0
  {
    var impressionsPositive := row.impressions > 0.0;
    var converted := row.conversions > 0.0;
    SegmentMetrics(row.spend, row.impressions, row.clicks, row.conversions,
                   if impressionsPositive then row.clicks / row.impressions else 0.0,
                   if impressionsPositive then row.spend / row.impressions * 1000.0 else 0.0,
                   if converted then row.spend / row.conversions else 0.0,
                   if converted && row.clicks > 0.0 then row.conversions / row.clicks * 100.0 else 0.0)
  }

  /** The score against segment benchmarks: 30 percent CTR, 70 percent CPA, none without benchmarks. */
  function SegmentScore(m: SegmentMetrics, bench: map<string, real>): real {
    if bench == map[] then 0.0
    else
      var ctrDelta := if "ctr" in bench && bench["ctr"] > 0.0 then (m.ctr / bench["ctr"] - 1.0) * 100.0 else 0.0;
      var cpaDelta := if "cpa" in bench && bench["cpa"] > 0.0 && m.cpa > 0.0
                      then (bench["cpa"] / m.cpa - 1.0) * 100.0 else 0.0;
      ctrDelta * 0.3 + cpaDelta * 0.7
  }

  /** One analysed segment; the contributions are filled in after all are known. */
  datatype Segment = Segment(name: string, displayName: string, metrics: SegmentMetrics,
                             score: real, spendContribution: real, conversionContribution: real)

  function SegmentOf(row: SegmentRow, segments: map<string, map<string, real>>): (s: Segment)
    ensures s.name == SegmentName(row)
  {
    var name := SegmentName(row);
    var m := SegmentMetricsOf(row);
    Segment(name, OrText(row.age, "Unknown") + " " + OrText(row.gender, "Unknown"), m,
            SegmentScore(m, if name in segments then segments[name] else map[]), 0.0, 0.0)
  }

  /** The segments analysed one by one, in input order. */
  function Analysed(rows: seq<SegmentRow>, segments: map<string, map<string, real>>): (r: seq<Segment>)
    ensures |r| == |rows| && forall i :: 0 <= i < |rows| ==> r[i] == SegmentOf(rows[i], segments)
  {
    var analyse := row => SegmentOf(row, segments);
    MapAt(rows, analyse);
    Map(rows, analyse)
  }

  function ScoreKey(s: Segment): real {
    s.score
  }

  function Reverse<T>(s: seq<T>): (r: seq<T>)
    ensures |r| == |s|
    ensures forall i :: 0 <= i < |s| ==> r[i] == s[|s| - 1 - i]
  {
    if s == [] then [] else Reverse(s[1..]) + [s[0]]
  }

  /**
   * The best and the worst segments of the sorted list: the first three,
   * and the last three worst first. With fewer than three both names
   * one list, and the in-place reverse meant for the worst list turns
   * the best list around too.
   */
  function BestWorst(sorted: seq<Segment>): (bw: (seq<Segment>, seq<Segment>)) {
    if |sorted| >= 3 then (sorted[..3], Reverse(sorted[|sorted| - 3..]))
    else (Reverse(sorted), Reverse(sorted))
  }

  /** With three or more segments the best come highest first and the worst lowest first. */
  lemma BestWorstOrder(sorted: seq<Segment>)
    requires SortedDesc(sorted, ScoreKey) && |sorted| >= 3
    ensures |BestWorst(sorted).0| == 3 && |BestWorst(sorted).1| == 3
    ensures SortedDesc(BestWorst(sorted).0, ScoreKey)
    ensures forall i, j :: 0 <= i < j < 3 ==> BestWorst(sorted).1[i].score <= BestWorst(sorted).1[j].score
    ensures BestWorst(sorted).1[0] == sorted[|sorted| - 1]
  {
  }

  /** With fewer than three segments the "best" list starts with the lowest score. */
  lemma FewSegmentsBestIsLowest(sorted: seq<Segment>)
    requires SortedDesc(sorted, ScoreKey) && 0 < |sorted| < 3
    ensures BestWorst(sorted).0 == BestWorst(sorted).1
    ensures BestWorst(sorted).0[0] == sorted[|sorted| - 1]
    ensures forall i :: 0 <= i < |sorted| ==> BestWorst(sorted).0[0].score <= sorted[i].score
  {
  }

  function Names(s: seq<Segment>): (r: seq<string>)
    ensures |r| == |s| && forall i :: 0 <= i < |s| ==> r[i] == s[i].name
  {
    if s == [] then [] else Names(s[..|s| - 1]) + [s[|s| - 1].name]
  }

  function SpendOf(s: seq<Segment>): real {
    if s == [] then 0.0 else SpendOf(s[..|s| - 1]) + s[|s| - 1].metrics.spend
  }

  function ConversionsOf(s: seq<Segment>): real {
    if s == [] then 0.0 else ConversionsOf(s[..|s| - 1]) + s[|s| - 1].metrics.conversions
  }

  /** `part / total * 100`, 0 when the total is not positive. */
  function Share(part: real, total: real): real {
    if total > 0.0 then part / total * 100.0 else 0.0
  }

  /** Each segment with its share of the spend and of the conversions. */
  function WithContributions(s: seq<Segment>, totalSpend: real, totalConversions: real): (r: seq<Segment>)
    ensures |r| == |s|
    ensures forall i :: 0 <= i < |s| ==>
              r[i] == s[i].(spendContribution := Share(s[i].metrics.spend, totalSpend),
                            conversionContribution := Share(s[i].metrics.conversions, totalConversions))
  {
    if s == [] then []
    else WithContributions(s[..|s| - 1], totalSpend, totalConversions)
         + [s[|s| - 1].(spendContribution := Share(s[|s| - 1].metrics.spend, totalSpend),
                        conversionContribution := Share(s[|s| - 1].metrics.conversions, totalConversions))]
  }

  function SpendShares(s: seq<Segment>): real {
    if s == [] then 0.0 else SpendShares(s[..|s| - 1]) + s[|s| - 1].spendContribution
  }

  /** The spend shares add up to the segments' spend over the total, in percent. */
  lemma {:induction false} SpendSharesSum(s: seq<Segment>, total: real)
    requires total > 0.0
    ensures SpendShares(WithContributions(s, total, 0.0)) == SpendOf(s) / total * 100.0
    decreases |s|
  {
    if s != [] {
      var n := |s| - 1;
      var w := WithContributions(s, total, 0.0);
      assert w[..n] == WithContributions(s[..n], total, 0.0);
      SpendSharesSum(s[..n], total);
      ShareAdds(SpendOf(s[..n]), s[n].metrics.spend, total);
    }
  }

  lemma ShareAdds(a: real, b: real, total: real)
    requires total > 0.0
    ensures a / total * 100.0 + b / total * 100.0 == (a + b) / total * 100.0
  {
  }

  /** With a positive total spend the spend contributions add up to 100. */
  lemma SpendSharesAddUp(s: seq<Segment>)
    requires SpendOf(s) > 0.0
    ensures SpendShares(WithContributions(s, SpendOf(s), ConversionsOf(s))) == 100.0
  {
    SpendSharesOnly(s, SpendOf(s), ConversionsOf(s));
    SpendSharesSum(s, SpendOf(s));
    assert SpendOf(s) / SpendOf(s) == 1.0;
  }

  lemma {:induction false} SpendSharesOnly(s: seq<Segment>, t: real, c: real)
    ensures SpendShares(WithContributions(s, t, c)) == SpendShares(WithContributions(s, t, 0.0))
    decreases |s|
  {
    if s != [] {
      var n := |s| - 1;
      assert WithContributions(s, t, c)[..n] == WithContributions(s[..n], t, c);
      assert WithContributions(s, t, 0.0)[..n] == WithContributions(s[..n], t, 0.0);
      SpendSharesOnly(s[..n], t, c);
    }
  }

  /** The segments by name; a later segment of the same name replaces an earlier one. */
  function ByName(s: seq<Segment>): (m: map<string, Segment>)
    ensures m.Keys == set i | 0 <= i < |s| :: s[i].name
  {
    if s == [] then map[] else ByName(s[..|s| - 1])[s[|s| - 1].name := s[|s| - 1]]
  }

  /** The segment a name maps to is the last one carrying it. */
  lemma {:induction false} ByNameLastWins(s: seq<Segment>, i: int)
    requires 0 <= i < |s|
    requires forall j :: i < j < |s| ==> s[j].name != s[i].name
    ensures ByName(s)[s[i].name] == s[i]
    decreases |s|
  {
    if i < |s| - 1 {
      ByNameLastWins(s[..|s| - 1], i);
    }
  }

  /** The result of analyze_segments. */
  datatype SegmentAnalysis = SegmentAnalysis(best: seq<string>, worst: seq<string>, performance: map<string, Segment>)

  /**
   * The segment analysis: nothing without an age_gender breakdown, else
   * the names of the best and worst of the stably sorted segments and
   * every segment, with its shares, keyed by name.
   */
  function SegmentsOf(ageGender: Option<seq<SegmentRow>>, segments: map<string, map<string, real>>): (r: SegmentAnalysis)
    ensures ageGender.None? ==> r == SegmentAnalysis([], [], map[])
  {
    if ageGender.None? then SegmentAnalysis([], [], map[])
    else
      var analysed := Analysed(ageGender.value, segments);
      var bw := BestWorst(SortDesc(analysed, ScoreKey));
      SegmentAnalysis(Names(bw.0), Names(bw.1), ByName(WithContributions(analysed, SpendOf(analysed), ConversionsOf(analysed))))
  }

  /** Three best and three worst names from three segments on; below that the two lists are one and the same. */
  lemma SegmentsPicked(rows: seq<SegmentRow>, segments: map<string, map<string, real>>)
    ensures |rows| >= 3 ==> |SegmentsOf(Some(rows), segments).best| == 3 && |SegmentsOf(Some(rows), segments).worst| == 3
    ensures |rows| < 3 ==> SegmentsOf(Some(rows), segments).best == SegmentsOf(Some(rows), segments).worst
    ensures |rows| < 3 ==> |SegmentsOf(Some(rows), segments).best| == |rows|
  {
    var analysed := Analysed(rows, segments);
    SortDescCorrect(analysed, ScoreKey);
    assert |SortDesc(analysed, ScoreKey)| == |rows| by {
      assert |multiset(SortDesc(analysed, ScoreKey))| == |multiset(analysed)|;
    }
  }

  /** The map holds one entry per segment name. */
  lemma SegmentsKeyed(rows: seq<SegmentRow>, segments: map<string, map<string, real>>)
    ensures SegmentsOf(Some(rows), segments).performance.Keys == set i | 0 <= i < |rows| :: SegmentName(rows[i])
  {
    var analysed := Analysed(rows, segments);
    var shared := WithContributions(analysed, SpendOf(analysed), ConversionsOf(analysed));
    var names := Map(rows, SegmentName);
    MapAt(rows, SegmentName);
    KeysNamed(shared, names);
  }

  /** The keys of ByName are the names of the segments. */
  lemma KeysNamed(s: seq<Segment>, names: seq<string>)
    requires |s| == |names| && forall i :: 0 <= i < |s| ==> s[i].name == names[i]
    ensures ByName(s).Keys == set i | 0 <= i < |names| :: names[i]
  {
  }

  // ---- the analyzer ----

  /** The result of analyze_performance. */
  datatype Analysis = Analysis(adId: string, adName: string, campaignName: string,
                               comparison: Comparison, segments: SegmentAnalysis, analysisDate: string,
                               rating: Rating, score: real, bestSegment: string)

  /** The ad data the analyzer reads. `ageGender` is None when there is no age_gender breakdown. */
  datatype AdData = AdData(adId: Option<string>, adName: Option<string>, campaignName: Option<string>,
                           metrics: map<string, real>, ageGender: Option<seq<SegmentRow>>)

  class PerformanceAnalyzer {
    /** Whether a Meta client was given, and its region. */
    const hasClient: bool
    const region: string
    /** The benchmarks, computed on first use. */
    var benchmarks: Option<Benchmarks>

    constructor (hasClient: bool, region: string)
      ensures this.hasClient == hasClient && this.region == region && benchmarks == None
    {
      this.hasClient := hasClient;
      this.region := region;
      benchmarks := None;
    }

    function BenchmarkMetrics(): map<string, real>
      reads this
    {
      if benchmarks.Some? then benchmarks.value.metrics else map[]
    }

    function SegmentBenchmarks(): map<string, map<string, real>>
      reads this
    {
      if benchmarks.Some? then benchmarks.value.segments else map[]
    }

    /** `calculate_benchmarks`: real benchmarks are also kept. */
    method CalculateBenchmarks(insights: Insights) returns (b: Benchmarks)
      modifies this
      ensures b == BenchmarksFrom(hasClient, region, insights)
      ensures benchmarks == if BenchmarksFound(hasClient, insights) then Some(b) else old(benchmarks)
    {
      b := BenchmarksFrom(hasClient, region, insights);
      if BenchmarksFound(hasClient, insights) {
        benchmarks := Some(b);
      }
    }

    /** The lazy computation at the head of compare_to_benchmarks and analyze_performance. */
    method EnsureBenchmarks(insights: Insights)
      modifies this
      ensures benchmarks == if old(benchmarks).None? && hasClient
                            then Some(BenchmarksFrom(hasClient, region, insights)) else old(benchmarks)
    {
      if benchmarks.None? && hasClient {
        var b := CalculateBenchmarks(insights);
        benchmarks := Some(b);
      }
    }

    /** `compare_to_benchmarks` */
    method CompareToBenchmarks(ad: AdData, insights: Insights) returns (c: Comparison)
      modifies this
      ensures benchmarks == if old(benchmarks).None? && hasClient
                            then Some(BenchmarksFrom(hasClient, region, insights)) else old(benchmarks)
      ensures c == ComparisonOf(ad.metrics, BenchmarkMetrics())
    {
      EnsureBenchmarks(insights);
      c := ComparisonOf(ad.metrics, BenchmarkMetrics());
    }

    /**
     * `analyze_segments`: each segment analysed in input order, sorted
     * by score (stable, highest first), the best and worst picked, the
     * shares filled in and the segments keyed by name.
     */
    method AnalyzeSegments(ad: AdData) returns (r: SegmentAnalysis)
      ensures r == SegmentsOf(ad.ageGender, SegmentBenchmarks())
      ensures ad.ageGender.None? ==> r == SegmentAnalysis([], [], map[])
    {
      if ad.ageGender.None? {
        return SegmentAnalysis([], [], map[]);
      }
      var rows := ad.ageGender.value;
      var analysed := AnalyseEach(rows, SegmentBenchmarks());
      var sorted := SortByKeyDesc(analysed, ScoreKey);
      var bw := BestWorst(sorted);
      var shared := AddContributions(analysed, SpendOf(analysed), ConversionsOf(analysed));
      var performance := IndexByName(shared);
      r := SegmentAnalysis(Names(bw.0), Names(bw.1), performance);
    }

    /** `analyze_performance`: the comparison, the segments and the headline fields together. */
    method AnalyzePerformance(ad: AdData, insights: Insights, today: string) returns (a: Analysis)
      modifies this
      ensures benchmarks == if old(benchmarks).None? && hasClient
                            then Some(BenchmarksFrom(hasClient, region, insights)) else old(benchmarks)
      ensures a.comparison == ComparisonOf(ad.metrics, BenchmarkMetrics())
      ensures a.rating == a.comparison.rating && a.score == a.comparison.score
      ensures a.segments == SegmentsOf(ad.ageGender, SegmentBenchmarks())
      ensures a.bestSegment == if a.segments.best != [] then a.segments.best[0] else "Unknown"
      ensures ad.ageGender.None? ==> a.segments == SegmentAnalysis([], [], map[]) && a.bestSegment == "Unknown"
      ensures a.adId == OrText(ad.adId, "unknown") && a.adName == OrText(ad.adName, "Unknown Ad")
      ensures a.campaignName == OrText(ad.campaignName, "Unknown Campaign") && a.analysisDate == today
    {
      EnsureBenchmarks(insights);
      ghost var ready := benchmarks;
      var c := CompareToBenchmarks(ad, insights);
      assert benchmarks == ready;
      var s := AnalyzeSegments(ad);
      a := Analysis(OrText(ad.adId, "unknown"), OrText(ad.adName, "Unknown Ad"),
                    OrText(ad.campaignName, "Unknown Campaign"), c, s, today,
                    c.rating, c.score, if s.best != [] then s.best[0] else "Unknown");
    }
  }

  /** One more row appends its analysis. */
  lemma AnalysedStep(rows: seq<SegmentRow>, segments: map<string, map<string, real>>, i: nat, acc: seq<Segment>)
    requires i < |rows| && acc == Analysed(rows[..i], segments)
    ensures Analysed(rows[..i + 1], segments) == acc + [SegmentOf(rows[i], segments)]
  {
    MapStep(rows, row => SegmentOf(row, segments), i);
  }

  /** The analysis loop of analyze_segments. */
  method AnalyseEach(rows: seq<SegmentRow>, segments: map<string, map<string, real>>) returns (analysed: seq<Segment>)
    ensures analysed == Analysed(rows, segments)
  {
    analysed := [];
    for i := 0 to |rows|
      invariant analysed == Analysed(rows[..i], segments)
    {
      AnalysedStep(rows, segments, i, analysed);
      analysed := analysed + [SegmentOf(rows[i], segments)];
    }
    assert rows[..|rows|] == rows;
  }

  /** The loop that keys the segments by name. */
  method IndexByName(s: seq<Segment>) returns (performance: map<string, Segment>)
    ensures performance == ByName(s)
  {
    performance := map[];
    for i := 0 to |s|
      invariant performance == ByName(s[..i])
    {
      assert s[..i + 1][..i] == s[..i];
      performance := performance[s[i].name := s[i]];
    }
    assert s[..|s|] == s;
  }

  /** The contribution loop: each segment's shares written in. */
  method AddContributions(s: seq<Segment>, totalSpend: real, totalConversions: real) returns (r: seq<Segment>)
    ensures r == WithContributions(s, totalSpend, totalConversions)
  {
    r := s;
    for i := 0 to |s|
      invariant |r| == |s|
      invariant forall j :: 0 <= j < i ==> r[j] == WithContributions(s, totalSpend, totalConversions)[j]
      invariant forall j :: i <= j < |s| ==> r[j] == s[j]
    {
      var spendShare := if totalSpend > 0.0 then s[i].metrics.spend / totalSpend * 100.0 else 0.0;
      var conversionShare := if totalConversions > 0.0 then s[i].metrics.conversions / totalConversions * 100.0 else 0.0;
      r := r[i := r[i].(spendContribution := spendShare, conversionContribution := conversionShare)];
    }
  }
}
