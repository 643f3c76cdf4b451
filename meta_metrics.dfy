/*
 * The per-ad metric extractors of src/meta_api_client.py. Each takes the
 * `data` array of an already-fetched insights response and builds the
 * metrics dictionary key by key, as the Python code does. A Python
 * exception inside the extraction is an Err result; where the source
 * catches it and returns None, the model returns None.
 */
module MetaMetrics {
  import opened Common
  import opened MetaFields

  /** The number a well-shaped numeric field holds (0 when absent). */
  function N(row: Row, key: string): real {
    match Field(row, key)
    case Scalar(x) => x
    case _ => 0.0
  }

  /** The entries of a list-shaped field (none when it is not a list). */
  function EntriesOf(row: Row, key: string): seq<Action> {
    match Field(row, key)
    case Actions(es) => es
    case _ => []
  }

  /** A field holding a number or nothing. */
  predicate IsNumeric(f: RawField) {
    f.Absent? || f.Scalar?
  }

  /** A field holding an action list or nothing. */
  predicate IsList(f: RawField) {
    f.Absent? || f.Actions?
  }

  /** The base numbers hold numbers. */
  predicate BaseShaped(row: Row) {
    IsNumeric(Field(row, "spend")) && IsNumeric(Field(row, "impressions"))
    && IsNumeric(Field(row, "clicks")) && IsNumeric(Field(row, "ctr"))
  }

  /**
   * A count field that may be a list or a scalar: a list sums
   * int(float(value)) over every entry with a value, whatever its
   * action type; a scalar is converted directly.
   */
  function CountOf(row: Row, key: string): int {
    match Field(row, key)
    case Actions(es) => SumValues(es)
    case _ => Trunc(N(row, key))
  }

  /** `int(impressions * 0.35)` and `int(impressions * 0.08)` taken on exact values. */
  function Estimate(impressions: int, percent: int): int {
    Trunc(impressions as real * percent as real / 100.0)
  }

  /** An estimate never exceeds its share of the impressions. */
  lemma EstimateBounds(impressions: int, percent: int)
    requires impressions > 0 && 0 <= percent <= 100
    ensures 0 <= Estimate(impressions, percent)
    ensures Estimate(impressions, percent) as real <= impressions as real * percent as real / 100.0
    ensures Estimate(impressions, percent) <= impressions
  {
  }

  /** The first 'video_view' entry's int(value), or 0 when there is none. */
  function FirstVideoViews(es: seq<Action>): int {
    var v := FirstValue(es, VideoView);
    if v.Some? then Trunc(v.value) else 0
  }

  /** The first `outbound_clicks_ctr` value when that list is non-empty. */
  function DestinationCtr(row: Row, impressions: int, outbound: int): Value {
    var es := EntriesOf(row, "outbound_clicks_ctr");
    if es != [] then Float(ValueOr0(es[0]))
    else if impressions > 0 && outbound > 0 then Float(outbound as real / impressions as real)
    else Int(0)
  }

  /** `(spend / impressions) * 1000` when impressions > 0, else 0. */
  function Cpm(spend: real, impressions: int): Value {
    if impressions > 0 then Float(spend / impressions as real * 1000.0) else Int(0)
  }

  /** `spend / conversions` when conversions > 0, else 0. */
  function Cpa(spend: real, conversions: int): Value {
    if conversions > 0 then Float(spend / conversions as real) else Int(0)
  }

  /** `(views / impressions) * 100` when views > 0, else 0. */
  function ViewRate(views: int, impressions: int): Value
    requires impressions > 0
  {
    if views > 0 then Float(views as real / impressions as real * 100.0) else Int(0)
  }


  // ---------------------------------------------------------------------
  // get_ad_metrics (src/meta_api_client.py:416-569)
  // ---------------------------------------------------------------------

  /** The dictionary get_ad_metrics returns, one field per key; the two rates exist only with impressions. */
  datatype AdMetrics = AdMetrics(
    spend: real, impressions: int, clicks: int, ctr: real,
    outboundClicks: int, conversions: int,
    cpm: Value, cpa: Value, roas: Value, ctrDestination: Value,
    video3SecViews: int, videoP100Watched: int,
    hookRate: Option<Value>, viewthroughRate: Option<Value>)

  function AdMetricsDict(a: AdMetrics): Dict {
    map["spend" := Float(a.spend), "impressions" := Int(a.impressions), "clicks" := Int(a.clicks),
        "ctr" := Float(a.ctr), "outbound_clicks" := Int(a.outboundClicks),
        "conversions" := Int(a.conversions), "cpm" := a.cpm, "cpa" := a.cpa, "roas" := a.roas,
        "ctr_destination" := a.ctrDestination, "video_3_sec_views" := Int(a.video3SecViews),
        "video_p100_watched" := Int(a.videoP100Watched)]
    + (if a.hookRate.Some? then map["hook_rate" := a.hookRate.value] else map[])
    + (if a.viewthroughRate.Some? then map["viewthrough_rate" := a.viewthroughRate.value] else map[])
  }

  /** The fourteen zeroes returned when the response has no data. */
  const NoAdMetrics: AdMetrics :=
    AdMetrics(0.0, 0, 0, 0.0, 0, 0, Float(0.0), Float(0.0), Float(0.0), Float(0.0), 0, 0,
              Some(Float(0.0)), Some(Float(0.0)))

  /** `int(float(x) if x else 0)`: a falsy field is 0 without conversion. */
  function GuardedFloatOf(row: Row, key: string): Result<real, Fault> {
    if FieldTruthy(Field(row, key)) then FloatOf(row, key) else Ok(0.0)
  }

  /** `for a in row.get(key, [])` without a truthiness guard. */
  function IterOf(row: Row, key: string): Result<seq<Action>, Fault> {
    match Field(row, key)
    case Absent => Ok([])
    case Actions(es) => Ok(es)
    case Text(t) => if t == "" then Ok([]) else Err(NotAList(key))
    case Scalar(_) => Err(NotAList(key))
  }

  /** A count field that is a list or a scalar; `guarded` is the `if x else 0` form. */
  method CountField(row: Row, key: string, guarded: bool) returns (r: Result<int, Fault>)
    ensures !Field(row, key).Text? ==> r.Ok?
    ensures r.Ok? ==> r.value == CountOf(row, key)
  {
    if Field(row, key).Actions? {
      var total := SumActionValues(Field(row, key).entries);
      return Ok(total);
    }
    var x :- if guarded then GuardedFloatOf(row, key) else FloatOf(row, key);
    return Ok(Trunc(x));
  }

  /** The first video_view count of a list field, with no estimate. */
  method VideoViews(row: Row, key: string) returns (r: Result<int, Fault>)
    ensures r.Ok? <==> ListOf(row, key).Ok?
    ensures r.Ok? ==> r.value == FirstVideoViews(EntriesOf(row, key))
  {
    var es :- ListOf(row, key);
    var found := FindFirst(es, VideoView);
    return Ok(if found.Some? then Trunc(found.value) else 0);
  }

  /** The views of a video list, estimated from impressions when the list is falsy. */
  method VideoViewsOrEstimate(row: Row, key: string, impressions: int, percent: int)
    returns (r: Result<int, Fault>)
    ensures r.Ok? <==> ListOf(row, key).Ok?
    ensures r.Ok? && FieldTruthy(Field(row, key)) ==> r.value == FirstVideoViews(EntriesOf(row, key))
    ensures r.Ok? && !FieldTruthy(Field(row, key)) ==>
              r.value == (if impressions > 0 then Estimate(impressions, percent) else 0)
  {
    var views :- VideoViews(row, key);
    if !FieldTruthy(Field(row, key)) && impressions > 0 {
      views := Estimate(impressions, percent);
    }
    return Ok(views);
  }

  /** The four base numbers every extractor reads first. */
  datatype Base = Base(spend: real, impressions: int, clicks: int, ctr: real)

  /** `float(spend)`, `int(impressions)`, `int(clicks)`, `float(ctr)`, each defaulting to 0. */
  function BaseOf(row: Row): (r: Result<Base, Fault>)
    ensures BaseShaped(row) ==> r == Ok(Base(N(row, "spend"), Trunc(N(row, "impressions")),
                                             Trunc(N(row, "clicks")), N(row, "ctr")))
  {
    var spend :- FloatOf(row, "spend");
    var impressions :- IntOf(row, "impressions");
    var clicks :- IntOf(row, "clicks");
    var ctr :- FloatOf(row, "ctr");
    Ok(Base(spend, impressions, clicks, ctr))
  }


  /**
   * The two video counts of get_ad_metrics: the first 'video_view' value
   * of a truthy list; of a falsy list (missing, empty, zero), the
   * estimate when there are impressions, else 0.
   */
  predicate EstimatedVideoCounts(row: Row, impressions: int, v3: int, v100: int) {
    && (FieldTruthy(Field(row, "video_thruplay_watched_actions")) ==>
          v3 == FirstVideoViews(EntriesOf(row, "video_thruplay_watched_actions")))
    && (!FieldTruthy(Field(row, "video_thruplay_watched_actions")) ==>
          v3 == (if impressions > 0 then Estimate(impressions, 35) else 0))
    && (FieldTruthy(Field(row, "video_p100_watched_actions")) ==>
          v100 == FirstVideoViews(EntriesOf(row, "video_p100_watched_actions")))
    && (!FieldTruthy(Field(row, "video_p100_watched_actions")) ==>
          v100 == (if impressions > 0 then Estimate(impressions, 8) else 0))
  }

  /** ROAS from the first 'purchase' cost entry: value / spend when both are positive, else 0. */
  predicate PurchaseRoasIs(row: Row, spend: real, roas: Value) {
    var purchase := FirstValue(EntriesOf(row, "cost_per_action_type"), Purchase);
    roas == (if purchase.Some? && spend > 0.0 && purchase.value > 0.0
             then Float(purchase.value / spend) else Int(0))
  }

  /** The two video counts of get_ad_metrics, each estimated when its list is falsy. */
  method VideoCountsWithEstimate(row: Row, impressions: int) returns (r: Result<(int, int), Fault>)
    ensures IsList(Field(row, "video_thruplay_watched_actions")) && IsList(Field(row, "video_p100_watched_actions"))
            ==> r.Ok?
    ensures r.Ok? ==> EstimatedVideoCounts(row, impressions, r.value.0, r.value.1)
  {
    var v3 :- VideoViewsOrEstimate(row, "video_thruplay_watched_actions", impressions, 35);
    var v100 :- VideoViewsOrEstimate(row, "video_p100_watched_actions", impressions, 8);
    return Ok((v3, v100));
  }

  /** The `next(...)` search for the 'purchase' cost entry. */
  method PurchaseRoas(row: Row, spend: real) returns (r: Result<Value, Fault>)
    ensures IsList(Field(row, "cost_per_action_type")) ==> r.Ok?
    ensures r.Ok? ==> PurchaseRoasIs(row, spend, r.value)
  {
    var costs :- IterOf(row, "cost_per_action_type");
    var purchase := FindFirst(costs, Purchase);
    return Ok(if purchase.Some? && spend > 0.0 && purchase.value > 0.0
              then Float(purchase.value / spend) else Int(0));
  }

  /** The rows get_ad_metrics reads without raising. */
  predicate AdMetricsShaped(row: Row) {
    BaseShaped(row)
    && !Field(row, "outbound_clicks").Text? && !Field(row, "conversions").Text?
    && IsList(Field(row, "cost_per_action_type"))
    && IsList(Field(row, "video_thruplay_watched_actions")) && IsList(Field(row, "video_p100_watched_actions"))
  }

  /** `get_ad_metrics` after the request: the first data row becomes the metrics, no data gives zeroes. */
  method GetAdMetrics(data: seq<Row>) returns (r: Result<AdMetrics, Fault>)
    ensures data == [] ==> r == Ok(NoAdMetrics)
    ensures data != [] && AdMetricsShaped(data[0]) ==> r.Ok?
    ensures data != [] && r.Ok? ==> AdMetricsOfRow(data[0], r.value)
  {
    if data == [] {
      return Ok(NoAdMetrics);
    }
    r := AdMetricsFromRow(data[0]);
  }

  /**
   * The metrics of one row: the base numbers as read, conversions and
   * outbound clicks as counts, cpm and cpa zero-guarded, the purchase
   * ROAS, the destination CTR, the (possibly estimated) video counts,
   * and the two view rates exactly when there are impressions.
   */
  predicate AdMetricsOfRow(row: Row, a: AdMetrics) {
    && BaseOf(row) == Ok(Base(a.spend, a.impressions, a.clicks, a.ctr))
    && a.conversions == CountOf(row, "conversions")
    && a.outboundClicks == CountOf(row, "outbound_clicks")
    && a.cpm == Cpm(a.spend, a.impressions)
    && a.cpa == Cpa(a.spend, a.conversions)
    && a.ctrDestination == DestinationCtr(row, a.impressions, a.outboundClicks)
    && PurchaseRoasIs(row, a.spend, a.roas)
    && EstimatedVideoCounts(row, a.impressions, a.video3SecViews, a.videoP100Watched)
    && (a.hookRate.Some? <==> a.impressions > 0)
    && (a.viewthroughRate.Some? <==> a.impressions > 0)
    && (a.impressions > 0 ==> a.hookRate.value == ViewRate(a.video3SecViews, a.impressions)
                              && a.viewthroughRate.value == ViewRate(a.videoP100Watched, a.impressions))
  }

  method AdMetricsFromRow(row: Row) returns (r: Result<AdMetrics, Fault>)
    ensures AdMetricsShaped(row) ==> r.Ok?
    ensures r.Ok? ==> AdMetricsOfRow(row, r.value)
  {
    var base :- BaseOf(row);
    var outbound :- CountField(row, "outbound_clicks", true);
    var conversions :- CountField(row, "conversions", false);
    var spend, impressions := base.spend, base.impressions;
    var cpm := Cpm(spend, impressions);
    var cpa := Cpa(spend, conversions);
    var roas :- PurchaseRoas(row, spend);
    var views :- VideoCountsWithEstimate(row, impressions);

    // The source's nested 'video' branch is unreachable: this dictionary never holds 'video'.
    var hook, vt := None, None;
    if impressions > 0 {
      hook, vt := Some(ViewRate(views.0, impressions)), Some(ViewRate(views.1, impressions));
    }
    return Ok(AdMetrics(spend, impressions, base.clicks, base.ctr, outbound, conversions, cpm, cpa, roas,
                        DestinationCtr(row, impressions, outbound), views.0, views.1, hook, vt));
  }

  /**
   * An estimated count gives a rate of at most its percentage: a hook
   * rate of at most 35 and a viewthrough rate of at most 8.
   */
  lemma EstimatedRateBounded(impressions: int, percent: int)
    requires impressions > 0 && 0 <= percent <= 100
    ensures ViewRate(Estimate(impressions, percent), impressions) == Int(0)
            || 0.0 < ViewRate(Estimate(impressions, percent), impressions).f <= percent as real
  {
    EstimateBounds(impressions, percent);
    RateAtMost(Estimate(impressions, percent), impressions, percent);
  }

  lemma RateAtMost(views: int, impressions: int, percent: int)
    requires impressions > 0 && 0 <= percent
    requires views as real <= impressions as real * percent as real / 100.0
    ensures views as real / impressions as real * 100.0 <= percent as real
  {
    var i := impressions as real;
    assert views as real / i <= percent as real / 100.0 by {
      assert views as real <= (percent as real / 100.0) * i;
    }
  }
}
