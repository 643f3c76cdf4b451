/*
 * The per-day aggregation of get_account_insights in
 * src/meta_api_client.py (get_campaign_insights and get_adset_insights
 * repeat it): the daily rows are summed, then the ratios are derived
 * from the sums and rounded to two places.
 */
module MetaAggregation {
  import opened Common
  import opened MetaFields
  import opened MetaMetrics

  /** The running sums of the aggregation. */
  datatype Totals = Totals(spend: real, impressions: int, clicks: int, reach: int,
                           outboundClicks: int, video3SecViews: int, videoP100Watched: int,
                           conversions: int)

  const NoTotals: Totals := Totals(0.0, 0, 0, 0, 0, 0, 0, 0)

  function Add(a: Totals, b: Totals): Totals {
    Totals(a.spend + b.spend, a.impressions + b.impressions, a.clicks + b.clicks, a.reach + b.reach,
           a.outboundClicks + b.outboundClicks, a.video3SecViews + b.video3SecViews,
           a.videoP100Watched + b.videoP100Watched, a.conversions + b.conversions)
  }

  /** A list field summed only when it is a non-empty list (a scalar is ignored). */
  function ListSum(row: Row, key: string): int {
    match Field(row, key)
    case Actions(es) => SumValues(es)
    case _ => 0
  }

  /**
   * What one day adds: the four base numbers, outbound clicks and
   * conversions from their lists, and every 'video_view' entry of the
   * two video lists (there is no `break` here).
   */
  function DayOf(row: Row): Result<Totals, Fault> {
    var spend :- FloatOf(row, "spend");
    var impressions :- IntOf(row, "impressions");
    var clicks :- IntOf(row, "clicks");
    var reach :- IntOf(row, "reach");
    var v3 :- ListOf(row, "video_thruplay_watched_actions");
    var v100 :- ListOf(row, "video_p100_watched_actions");
    Ok(Totals(spend, impressions, clicks, reach, ListSum(row, "outbound_clicks"),
              SumMatching(v3, VideoView), SumMatching(v100, VideoView), ListSum(row, "conversions")))
  }

  /** The sums over the days; the first day that raises decides the error. */
  function TotalsOf(days: seq<Row>): Result<Totals, Fault> {
    if days == [] then Ok(NoTotals)
    else
      var t :- TotalsOf(days[..|days| - 1]);
      var d :- DayOf(days[|days| - 1]);
      Ok(Add(t, d))
  }

  /** Summing two runs of days is adding their sums. */
  lemma {:induction false} TotalsOfAppend(a: seq<Row>, b: seq<Row>)
    requires TotalsOf(a).Ok? && TotalsOf(b).Ok?
    ensures TotalsOf(a + b) == Ok(Add(TotalsOf(a).value, TotalsOf(b).value))
    decreases |b|
  {
    if b == [] {
      assert a + b == a;
      assert Add(TotalsOf(a).value, NoTotals) == TotalsOf(a).value;
    } else {
      var n := |b| - 1;
      var ab := a + b;
      assert ab[..|ab| - 1] == a + b[..n];
      assert ab[|ab| - 1] == b[n];
      var tb, d := TotalsOf(b[..n]), DayOf(b[n]);
      assert tb.Ok? && d.Ok? && TotalsOf(b) == Ok(Add(tb.value, d.value));
      TotalsOfAppend(a, b[..n]);
      var ta := TotalsOf(a).value;
      assert TotalsOf(ab) == Ok(Add(Add(ta, tb.value), d.value));
      AddAssociative(ta, tb.value, d.value);
    }
  }

  lemma AddAssociative(x: Totals, y: Totals, z: Totals)
    ensures Add(Add(x, y), z) == Add(x, Add(y, z))
  {
  }

  /** Days that are well shaped never raise. */
  predicate DayShaped(row: Row) {
    IsNumeric(Field(row, "spend")) && IsNumeric(Field(row, "impressions")) && IsNumeric(Field(row, "clicks"))
    && IsNumeric(Field(row, "reach"))
    && IsList(Field(row, "video_thruplay_watched_actions")) && IsList(Field(row, "video_p100_watched_actions"))
  }

  /** The day's contribution, computed with the loops of the source. */
  method DayTotals(row: Row) returns (r: Result<Totals, Fault>)
    ensures DayShaped(row) ==> r.Ok?
    ensures r == DayOf(row)
  {
    var spend :- FloatOf(row, "spend");
    var impressions :- IntOf(row, "impressions");
    var clicks :- IntOf(row, "clicks");
    var reach :- IntOf(row, "reach");
    var outbound := 0;
    if Field(row, "outbound_clicks").Actions? {
      outbound := SumActionValues(Field(row, "outbound_clicks").entries);
    }
    var v3es :- ListOf(row, "video_thruplay_watched_actions");
    var v3 := SumMatchingValues(v3es, VideoView);
    var v100es :- ListOf(row, "video_p100_watched_actions");
    var v100 := SumMatchingValues(v100es, VideoView);
    var conversions := 0;
    if Field(row, "conversions").Actions? {
      conversions := SumActionValues(Field(row, "conversions").entries);
    }
    return Ok(Totals(spend, impressions, clicks, reach, outbound, v3, v100, conversions));
  }

  /**
   * The aggregated dictionary: the sums, then the derived ratios, each
   * present or changed only under its guard. `hookRate` and
   * `viewthroughRate` are absent keys when None; the view-through rate
   * is only computed inside the hook-rate branch.
   */
  datatype AccountMetrics = AccountMetrics(
    totals: Totals, ctr: real, cpm: real, ctrDestination: real, frequency: real,
    costPerConversion: real, hookRate: Option<real>, viewthroughRate: Option<real>,
    cpc: Option<real>, cpr: Option<real>, clickToReg: Value)

  /** round(a / b * k, 2) */
  function RoundedRatio(a: real, b: real, k: real): real
    requires b != 0.0
  {
    Round2(a / b * k)
  }

  function Derived(t: Totals): AccountMetrics {
    var impr, clicks, conv := t.impressions as real, t.clicks as real, t.conversions as real;
    var hook := if t.impressions > 0 && t.video3SecViews > 0
                then Some(RoundedRatio(t.video3SecViews as real, impr, 100.0)) else None;
    AccountMetrics(
      t,
      if t.impressions > 0 then RoundedRatio(clicks, impr, 100.0) else 0.0,
      if t.impressions > 0 then RoundedRatio(t.spend, impr, 1000.0) else 0.0,
      if t.impressions > 0 && t.outboundClicks > 0 then RoundedRatio(t.outboundClicks as real, impr, 1.0) else 0.0,
      if t.reach > 0 then RoundedRatio(impr, t.reach as real, 1.0) else 0.0,
      if t.conversions > 0 then RoundedRatio(t.spend, conv, 1.0) else 0.0,
      hook,
      if hook.Some? && t.videoP100Watched > 0
      then Some(RoundedRatio(t.videoP100Watched as real, impr, 100.0)) else None,
      if t.clicks > 0 then Some(RoundedRatio(t.spend, clicks, 1.0)) else None,
      if t.conversions > 0 then Some(RoundedRatio(t.spend, conv, 1.0)) else None,
      if t.clicks > 0 && t.conversions > 0 then Float(RoundedRatio(conv, clicks, 100.0)) else Int(0))
  }

  function AccountDict(m: AccountMetrics): Dict {
    var t := m.totals;
    map["spend" := Float(t.spend), "impressions" := Int(t.impressions), "clicks" := Int(t.clicks),
        "ctr" := Float(m.ctr), "cpm" := Float(m.cpm), "frequency" := Float(m.frequency),
        "reach" := Int(t.reach), "conversions" := Int(t.conversions),
        "video_3_sec_views" := Int(t.video3SecViews), "video_p100_watched" := Int(t.videoP100Watched),
        "outbound_clicks" := Int(t.outboundClicks), "ctr_destination" := Float(m.ctrDestination),
        "cost_per_conversion" := Float(m.costPerConversion), "click_to_reg" := m.clickToReg]
    + (if m.hookRate.Some? then map["hook_rate" := Float(m.hookRate.value)] else map[])
    + (if m.viewthroughRate.Some? then map["viewthrough_rate" := Float(m.viewthroughRate.value)] else map[])
    + (if m.cpc.Some? then map["cpc" := Float(m.cpc.value)] else map[])
    + (if m.cpr.Some? then map["cpr" := Float(m.cpr.value)] else map[])
  }

  /**
   * `get_account_insights` after the request: {} for no days, else the
   * sums over every day with the derived ratios.
   */
  method AccountInsights(days: seq<Row>) returns (r: Result<Option<AccountMetrics>, Fault>)
    ensures (forall i :: 0 <= i < |days| ==> DayShaped(days[i])) ==> r.Ok?
    ensures days == [] ==> r == Ok(None)
    ensures days != [] ==> (r.Ok? <==> TotalsOf(days).Ok?)
    ensures days != [] && r.Ok? ==> r.value == Some(Derived(TotalsOf(days).value))
  {
    if days == [] {
      return Ok(None);
    }
    var t := NoTotals;
    for i := 0 to |days|
      invariant TotalsOf(days[..i]) == Ok(t)
      invariant (forall j :: 0 <= j < |days| ==> DayShaped(days[j])) ==> TotalsOf(days[..i]).Ok?
    {
      assert days[..i + 1][..i] == days[..i];
      var d := DayTotals(days[i]);
      if d.Err? {
        assert TotalsOf(days[..i + 1]) == Err(d.error);
        TotalsErrSticks(days, i + 1);
        return Err(d.error);
      }
      t := Add(t, d.value);
    }
    assert days[..|days|] == days;
    return Ok(Some(Derived(t)));
  }

  /** Once a prefix of the days raises, so do all the days. */
  lemma {:induction false} TotalsErrSticks(days: seq<Row>, k: int)
    requires 0 <= k <= |days| && TotalsOf(days[..k]).Err?
    ensures TotalsOf(days).Err?
    decreases |days| - k
  {
    if k == |days| {
      assert days[..k] == days;
    } else {
      assert days[..k + 1][..k] == days[..k];
      TotalsErrSticks(days, k + 1);
    }
  }

  /** The view-through rate is only ever reported together with a hook rate. */
  lemma ViewthroughNeedsHook(t: Totals)
    ensures Derived(t).viewthroughRate.Some? ==> Derived(t).hookRate.Some?
    ensures Derived(t).viewthroughRate.Some? <==>
              t.impressions > 0 && t.video3SecViews > 0 && t.videoP100Watched > 0
  {
  }

  /** Every rounded ratio is already on two places: rounding the dictionary again changes nothing. */
  lemma DerivedTwoPlaces(t: Totals)
    ensures Round2(Derived(t).ctr) == Derived(t).ctr
    ensures Round2(Derived(t).cpm) == Derived(t).cpm
    ensures Derived(t).hookRate.Some? ==> Round2(Derived(t).hookRate.value) == Derived(t).hookRate.value
  {
    var impr := t.impressions as real;
    if t.impressions > 0 {
      Round2Idempotent(t.clicks as real / impr * 100.0);
      Round2Idempotent(t.spend / impr * 1000.0);
      if t.video3SecViews > 0 {
        Round2Idempotent(t.video3SecViews as real / impr * 100.0);
      }
    } else {
      Round2OfCents(0);
    }
  }
}
