/*
 * The bulk-insight helpers of src/meta_api_client.py:
 * _format_breakdown_data, _extract_metrics_from_insights and the
 * grouping of get_bulk_ad_insights by ad id, after the request.
 */
module MetaBreakdowns {
  import opened Common
  import opened MetaFields
  import opened MetaMetrics
  import opened MetaDetailed

  // ---------------------------------------------------------------------
  // _format_breakdown_data (src/meta_api_client.py:1468-1607)
  // ---------------------------------------------------------------------

  /** One formatted breakdown item; the two rates exist only with impressions. */
  datatype BreakdownItem = BreakdownItem(
    labels: Dict, spend: real, cpm: real, impressions: int, clicks: int,
    outboundClicks: int, ctrDestination: Value, video3SecViews: int, videoP100Watched: int,
    rates: Option<(Value, Value)>, registrations: int, cpr: Value, cpc: Value, clickToReg: Value)

  /** The item as a dictionary: the labels first, then the metrics written over them. */
  function BreakdownItemDict(it: BreakdownItem): Dict {
    it.labels
    + map["spend" := Float(it.spend), "cpm" := Float(it.cpm), "impressions" := Int(it.impressions),
          "cpc" := it.cpc, "clicks" := Int(it.clicks), "outbound_clicks" := Int(it.outboundClicks),
          "ctr_destination" := it.ctrDestination, "video_3_sec_views" := Int(it.video3SecViews),
          "video_p100_watched" := Int(it.videoP100Watched), "registrations" := Int(it.registrations),
          "cpr" := it.cpr, "click_to_reg" := it.clickToReg]
    + (if it.rates.Some? then map["hook_rate" := it.rates.value.0, "viewthrough_rate" := it.rates.value.1]
       else map[])
  }

  /** The label loop: each breakdown field copied verbatim, 'unknown' when missing. */
  method Labels(row: Row, fields: seq<string>) returns (labels: Dict)
    ensures forall k :: k in labels <==> k in fields
    ensures forall k :: k in fields ==> labels[k] == Verbatim(Field(row, k), Str("unknown"))
  {
    labels := map[];
    for i := 0 to |fields|
      invariant forall k :: k in labels <==> k in fields[..i]
      invariant forall k :: k in labels ==> labels[k] == Verbatim(Field(row, k), Str("unknown"))
    {
      labels := labels[fields[i] := Verbatim(Field(row, fields[i]), Str("unknown"))];
    }
    assert fields[..|fields|] == fields;
  }

  /** `video_thruplay == []` with impressions: the estimate replaces the (empty) search. */
  function BreakdownVideo(row: Row, key: string, impressions: int, percent: int): int {
    if IsEmptyList(Field(row, key)) && impressions > 0 then Estimate(impressions, percent)
    else FirstVideoViews(EntriesOf(row, key))
  }

  /** `spend / clicks` when both are positive, else 0. */
  function Cpc(spend: real, clicks: int): Value {
    if clicks > 0 && spend > 0.0 then Float(spend / clicks as real) else Int(0)
  }

  /** `registrations / clicks * 100` when both are positive, else 0. */
  function ClickToReg(registrations: int, clicks: int): Value {
    if clicks > 0 && registrations > 0 then Float(registrations as real / clicks as real * 100.0) else Int(0)
  }

  /** The rows _format_breakdown_data reads without raising. */
  predicate BreakdownShaped(row: Row) {
    IsNumeric(Field(row, "spend")) && IsNumeric(Field(row, "cpm")) && IsNumeric(Field(row, "impressions"))
    && IsNumeric(Field(row, "cpc")) && IsNumeric(Field(row, "clicks")) && !Field(row, "outbound_clicks").Text?
    && IsList(Field(row, "video_thruplay_watched_actions")) && IsList(Field(row, "video_p100_watched_actions"))
    && IsList(Field(row, "actions")) && IsList(Field(row, "cost_per_action_type"))
  }

  /**
   * One formatted item of one row: the labels, the read numbers (cpc is
   * read but then always replaced by the computed one), outbound clicks
   * and the destination CTR, the video counts with the 35% / 8%
   * estimates for missing lists, the rates only with impressions, and
   * registrations, cost per registration and click-to-registration.
   */
  ghost predicate BreakdownItemOfRow(row: Row, fields: seq<string>, it: BreakdownItem) {
    && (forall k :: k in it.labels <==> k in fields)
    && (forall k :: k in fields ==> it.labels[k] == Verbatim(Field(row, k), Str("unknown")))
    && FloatOf(row, "spend") == Ok(it.spend) && FloatOf(row, "cpm") == Ok(it.cpm)
    && IntOf(row, "impressions") == Ok(it.impressions) && FloatOf(row, "cpc").Ok?
    && IntOf(row, "clicks") == Ok(it.clicks)
    && it.outboundClicks == CountOf(row, "outbound_clicks")
    && it.ctrDestination == DestinationCtr(row, it.impressions, it.outboundClicks)
    && it.video3SecViews == BreakdownVideo(row, "video_thruplay_watched_actions", it.impressions, 35)
    && it.videoP100Watched == BreakdownVideo(row, "video_p100_watched_actions", it.impressions, 8)
    && (it.rates.Some? <==> it.impressions > 0)
    && (it.rates.Some? ==> it.rates.value == (ViewRate(it.video3SecViews, it.impressions),
                                              ViewRate(it.videoP100Watched, it.impressions)))
    && it.registrations == Registrations(row)
    && it.cpr == Cpr(FirstValue(EntriesOf(row, "cost_per_action_type"), RegistrationTypes), it.spend, it.registrations)
    && it.cpc == Cpc(it.spend, it.clicks)
    && it.clickToReg == ClickToReg(it.registrations, it.clicks)
  }

  method BreakdownVideoCount(row: Row, key: string, impressions: int, percent: int) returns (r: Result<int, Fault>)
    ensures IsList(Field(row, key)) ==> r.Ok?
    ensures r.Ok? ==> r.value == BreakdownVideo(row, key, impressions, percent)
  {
    var views :- VideoViews(row, key);
    if IsEmptyList(Field(row, key)) && impressions > 0 {
      views := Estimate(impressions, percent);
    }
    return Ok(views);
  }

  method Registration(row: Row, spend: real) returns (r: Result<(int, Value), Fault>)
    ensures IsList(Field(row, "actions")) && IsList(Field(row, "cost_per_action_type")) ==> r.Ok?
    ensures r.Ok? ==> r.value.0 == Registrations(row)
                      && r.value.1 == Cpr(FirstValue(EntriesOf(row, "cost_per_action_type"), RegistrationTypes),
                                          spend, r.value.0)
  {
    var actions :- ListOf(row, "actions");
    var reg := FindFirst(actions, RegistrationTypes);
    var registrations := if reg.Some? then Trunc(reg.value) else 0;
    var costs :- ListOf(row, "cost_per_action_type");
    var cost := FindFirst(costs, RegistrationTypes);
    return Ok((registrations, Cpr(cost, spend, registrations)));
  }

  method FormatBreakdownItem(row: Row, fields: seq<string>) returns (r: Result<BreakdownItem, Fault>)
    ensures BreakdownShaped(row) ==> r.Ok?
    ensures r.Ok? ==> BreakdownItemOfRow(row, fields, r.value)
  {
    var labels := Labels(row, fields);
    var spend :- FloatOf(row, "spend");
    var cpm :- FloatOf(row, "cpm");
    var impressions :- IntOf(row, "impressions");
    var _ :- FloatOf(row, "cpc");
    var clicks :- IntOf(row, "clicks");
    var outbound :- CountField(row, "outbound_clicks", true);
    var v3 :- BreakdownVideoCount(row, "video_thruplay_watched_actions", impressions, 35);
    var v100 :- BreakdownVideoCount(row, "video_p100_watched_actions", impressions, 8);
    var rates := if impressions > 0 then Some((ViewRate(v3, impressions), ViewRate(v100, impressions))) else None;
    var reg :- Registration(row, spend);
    return Ok(BreakdownItem(labels, spend, cpm, impressions, clicks, outbound,
                            DestinationCtr(row, impressions, outbound), v3, v100, rates,
                            reg.0, reg.1, Cpc(spend, clicks), ClickToReg(reg.0, clicks)));
  }

  /** `_format_breakdown_data`: one item per row, in row order. */
  method FormatBreakdownData(rows: seq<Row>, fields: seq<string>) returns (r: Result<seq<BreakdownItem>, Fault>)
    ensures (forall i :: 0 <= i < |rows| ==> BreakdownShaped(rows[i])) ==> r.Ok?
    ensures r.Ok? ==> |r.value| == |rows|
                      && forall i :: 0 <= i < |rows| ==> BreakdownItemOfRow(rows[i], fields, r.value[i])
  {
    var items: seq<BreakdownItem> := [];
    for i := 0 to |rows|
      invariant |items| == i
      invariant forall j :: 0 <= j < i ==> BreakdownItemOfRow(rows[j], fields, items[j])
    {
      var item :- FormatBreakdownItem(rows[i], fields);
      items := items + [item];
    }
    return Ok(items);
  }

  /** A formatted item's cost per click is positive exactly when spend and clicks are. */
  lemma CpcPositive(spend: real, clicks: int)
    ensures Cpc(spend, clicks).Float? <==> clicks > 0 && spend > 0.0
    ensures Cpc(spend, clicks).Float? ==> Cpc(spend, clicks).f > 0.0
  {
    if clicks > 0 && spend > 0.0 {
      assert spend / clicks as real > 0.0;
    }
  }

  // ---------------------------------------------------------------------
  // _extract_metrics_from_insights (src/meta_api_client.py:1717-1830)
  // ---------------------------------------------------------------------

  /** The keys copied as floats when the item has them. */
  const DirectKeys: seq<string> := ["spend", "impressions", "clicks", "reach", "frequency", "cpc", "cpm", "cpp", "ctr"]

  /**
   * The metrics of one insight item. Keys appear conditionally:
   * `direct` holds only the direct keys the item has, `outbound`
   * (outbound clicks and destination CTR) only for a non-empty list,
   * `rates` (hook and view-through) only with impressions, and
   * `computedCpc` only when the item had no cpc.
   */
  datatype InsightMetrics = InsightMetrics(
    direct: map<string, real>, outbound: Option<(int, Value)>,
    video3SecViews: int, videoP100Watched: int, rates: Option<(Value, Value)>,
    conversions: int, cpr: Value, computedCpc: Option<real>, clickToReg: Value)

  function InsightDict(m: InsightMetrics): Dict {
    (map k | k in m.direct :: Float(m.direct[k]))
    + (if m.outbound.Some? then map["outbound_clicks" := Int(m.outbound.value.0),
                                    "ctr_destination" := m.outbound.value.1] else map[])
    + map["video_3_sec_views" := Int(m.video3SecViews), "video_p100_watched" := Int(m.videoP100Watched)]
    + (if m.rates.Some? then map["hook_rate" := m.rates.value.0, "viewthrough_rate" := m.rates.value.1]
       else map[])
    + map["conversions" := Int(m.conversions), "cpr" := m.cpr]
    + (if m.computedCpc.Some? then map["cpc" := Float(m.computedCpc.value)] else map[])
    + map["click_to_reg" := m.clickToReg]
  }

  /** `metrics.get(k, 0)` on the direct floats. */
  function D(direct: map<string, real>, k: string): real {
    if k in direct then direct[k] else 0.0
  }

  /** The direct keys the item has, each read with float(). */
  ghost predicate DirectFrom(row: Row, direct: map<string, real>, keys: seq<string>) {
    && (forall k :: k in direct <==> k in keys && k in row)
    && (forall k :: k in direct ==> FloatOf(row, k) == Ok(direct[k]))
  }

  /** The loop over the direct keys. */
  method DirectMetrics(row: Row) returns (r: Result<map<string, real>, Fault>)
    ensures (forall i :: 0 <= i < |DirectKeys| ==> IsNumeric(Field(row, DirectKeys[i]))) ==> r.Ok?
    ensures r.Ok? ==> DirectFrom(row, r.value, DirectKeys)
  {
    var direct: map<string, real> := map[];
    for i := 0 to |DirectKeys|
      invariant DirectFrom(row, direct, DirectKeys[..i])
    {
      var k := DirectKeys[i];
      if k in row {
        var x :- FloatOf(row, k);
        direct := direct[k := x];
      }
    }
    assert DirectKeys[..|DirectKeys|] == DirectKeys;
    return Ok(direct);
  }

  /** Outbound clicks and destination CTR, present only for a non-empty outbound list. */
  function InsightOutbound(row: Row, impressions: real): Option<(int, Value)> {
    match Field(row, "outbound_clicks")
    case Actions(es) =>
      if es == [] then None
      else
        Some((SumValues(es), OutboundCtr(SumValues(es), impressions)))
    case _ => None
  }

  /** `outbound / impressions` when both are positive, else 0. */
  function OutboundCtr(outbound: int, impressions: real): Value {
    if impressions > 0.0 && outbound > 0 then Float(outbound as real / impressions) else Int(0)
  }

  /** A video count of an insight item, estimated from impressions when its list is missing or empty. */
  function InsightVideo(row: Row, key: string, impressions: real, percent: int): int {
    if impressions > 0.0 && IsEmptyList(Field(row, key)) then Trunc(impressions * percent as real / 100.0)
    else FirstVideoViews(EntriesOf(row, key))
  }

  /** `(views / impressions) * 100` when views > 0, else 0, on float impressions. */
  function InsightRate(views: int, impressions: real): Value
    requires impressions > 0.0
  {
    if views > 0 then Float(views as real / impressions * 100.0) else Int(0)
  }

  /** Conversions are summed only from a list. */
  function InsightConversions(row: Row): int {
    match Field(row, "conversions")
    case Actions(es) => SumValues(es)
    case _ => 0
  }

  predicate InsightShaped(row: Row) {
    (forall i :: 0 <= i < |DirectKeys| ==> IsNumeric(Field(row, DirectKeys[i])))
    && IsList(Field(row, "video_thruplay_watched_actions")) && IsList(Field(row, "video_p100_watched_actions"))
  }

  /** `spend / conversions` when both are positive, else 0. */
  function InsightCpr(spend: real, conversions: int): Value {
    if conversions > 0 && spend > 0.0 then Float(spend / conversions as real) else Int(0)
  }

  /** The cpc computed only when the item had none and clicks and spend are positive. */
  function ComputedCpc(direct: map<string, real>): Option<real> {
    var clicks, spend := D(direct, "clicks"), D(direct, "spend");
    if "cpc" !in direct && clicks > 0.0 && spend > 0.0 then Some(spend / clicks) else None
  }

  /** `conversions / clicks * 100` on float clicks when both are positive, else 0. */
  function InsightClickToReg(conversions: int, clicks: real): Value {
    if clicks > 0.0 && conversions > 0 then Float(conversions as real / clicks * 100.0) else Int(0)
  }

  /** The two rates, present only with impressions. */
  function InsightRates(v3: int, v100: int, impressions: real): Option<(Value, Value)> {
    if impressions > 0.0 then Some((InsightRate(v3, impressions), InsightRate(v100, impressions))) else None
  }

  /** The derived part of the metrics, given the direct floats. */
  predicate InsightDerived(row: Row, m: InsightMetrics) {
    var impressions := D(m.direct, "impressions");
    && m.outbound == InsightOutbound(row, impressions)
    && m.video3SecViews == InsightVideo(row, "video_thruplay_watched_actions", impressions, 35)
    && m.videoP100Watched == InsightVideo(row, "video_p100_watched_actions", impressions, 8)
    && m.rates == InsightRates(m.video3SecViews, m.videoP100Watched, impressions)
    && m.conversions == InsightConversions(row)
    && m.cpr == InsightCpr(D(m.direct, "spend"), m.conversions)
    && m.computedCpc == ComputedCpc(m.direct)
    && m.clickToReg == InsightClickToReg(m.conversions, D(m.direct, "clicks"))
  }

  ghost predicate InsightOfRow(row: Row, m: InsightMetrics) {
    DirectFrom(row, m.direct, DirectKeys) && InsightDerived(row, m)
  }

  method InsightVideoCount(row: Row, key: string, impressions: real, percent: int) returns (r: Result<int, Fault>)
    ensures IsList(Field(row, key)) ==> r.Ok?
    ensures r.Ok? ==> r.value == InsightVideo(row, key, impressions, percent)
  {
    var views :- VideoViews(row, key);
    if impressions > 0.0 && views == 0 && IsEmptyList(Field(row, key)) {
      views := Trunc(impressions * percent as real / 100.0);
    }
    return Ok(views);
  }

  method ExtractMetricsFromInsights(row: Row) returns (r: Result<InsightMetrics, Fault>)
    ensures InsightShaped(row) ==> r.Ok?
    ensures r.Ok? ==> InsightOfRow(row, r.value)
  {
    var direct :- DirectMetrics(row);
    var impressions := D(direct, "impressions");
    var outbound := None;
    if Field(row, "outbound_clicks").Actions? && Field(row, "outbound_clicks").entries != [] {
      var total := SumActionValues(Field(row, "outbound_clicks").entries);
      outbound := Some((total, OutboundCtr(total, impressions)));
    }
    var v3 :- InsightVideoCount(row, "video_thruplay_watched_actions", impressions, 35);
    var v100 :- InsightVideoCount(row, "video_p100_watched_actions", impressions, 8);
    var conversions := 0;
    if Field(row, "conversions").Actions? {
      conversions := SumActionValues(Field(row, "conversions").entries);
    }
    return Ok(InsightMetrics(direct, outbound, v3, v100, InsightRates(v3, v100, impressions), conversions,
                             InsightCpr(D(direct, "spend"), conversions), ComputedCpc(direct),
                             InsightClickToReg(conversions, D(direct, "clicks"))));
  }

  /** A cpc the API sent is kept: the computed one only fills a missing cpc. */
  lemma ApiCpcKept(row: Row, m: InsightMetrics)
    requires InsightOfRow(row, m) && "cpc" in row
    ensures m.computedCpc.None? && "cpc" in m.direct && FloatOf(row, "cpc") == Ok(m.direct["cpc"])
  {
  }

  // ---------------------------------------------------------------------
  // get_bulk_ad_insights, grouping (src/meta_api_client.py:1664-1713)
  // ---------------------------------------------------------------------

  /** The age/gender breakdown entry `{'age', 'gender', **metrics}`. */
  datatype AgeGenderMetrics = AgeGenderMetrics(age: Value, gender: Value, metrics: InsightMetrics)

  /** One processed ad; `ageGender` is the `breakdowns` entry, present only with demographics. */
  datatype BulkAd = BulkAd(adId: Value, adName: Value, campaignId: Value, campaignName: Value,
                           adsetId: Value, adsetName: Value, metrics: InsightMetrics,
                           ageGender: Option<seq<AgeGenderMetrics>>)

  function AdId(row: Row): Value {
    Verbatim(Field(row, "ad_id"), Null)
  }

  predicate HasAgeGender(row: Row) {
    FieldTruthy(Field(row, "age")) && FieldTruthy(Field(row, "gender"))
  }

  /** The ids of the rows, each once, in the order they first appear. */
  function FirstSeenIds(rows: seq<Row>): seq<Value> {
    if rows == [] then []
    else
      var ids := FirstSeenIds(rows[..|rows| - 1]);
      if AdId(rows[|rows| - 1]) in ids then ids else ids + [AdId(rows[|rows| - 1])]
  }

  /** The first row with the given id. */
  function FirstRow(rows: seq<Row>, id: Value): Option<Row> {
    if rows == [] then None
    else
      var f := FirstRow(rows[..|rows| - 1], id);
      if f.Some? then f else if AdId(rows[|rows| - 1]) == id then Some(rows[|rows| - 1]) else None
  }

  /** The rows of the given id that carry both an age and a gender, in order. */
  function AgeGenderRows(rows: seq<Row>, id: Value): seq<Row> {
    if rows == [] then []
    else
      var bs := AgeGenderRows(rows[..|rows| - 1], id);
      var last := rows[|rows| - 1];
      if AdId(last) == id && HasAgeGender(last) then bs + [last] else bs
  }

  /** The identifying fields of an ad, copied from its row. */
  predicate HeaderFrom(row: Row, ad: BulkAd) {
    ad.adId == AdId(row) && ad.adName == Verbatim(Field(row, "ad_name"), Null)
    && ad.campaignId == Verbatim(Field(row, "campaign_id"), Null)
    && ad.campaignName == Verbatim(Field(row, "campaign_name"), Null)
    && ad.adsetId == Verbatim(Field(row, "adset_id"), Null)
    && ad.adsetName == Verbatim(Field(row, "adset_name"), Null)
  }

  ghost predicate AgeGenderFrom(row: Row, e: AgeGenderMetrics) {
    e.age == Verbatim(Field(row, "age"), Null) && e.gender == Verbatim(Field(row, "gender"), Null)
    && InsightOfRow(row, e.metrics)
  }

  /**
   * A grouped ad: header and metrics from the first row of its id, and
   * one breakdown entry per row of its id with an age and a gender.
   */
  ghost predicate GroupedFrom(rows: seq<Row>, ad: BulkAd) {
    && FirstRow(rows, ad.adId).Some?
    && HeaderFrom(FirstRow(rows, ad.adId).value, ad)
    && InsightOfRow(FirstRow(rows, ad.adId).value, ad.metrics)
    && ad.ageGender.Some?
    && |ad.ageGender.value| == |AgeGenderRows(rows, ad.adId)|
    && forall k :: 0 <= k < |ad.ageGender.value| ==>
         AgeGenderFrom(AgeGenderRows(rows, ad.adId)[k], ad.ageGender.value[k])
  }

  lemma {:induction false} FirstRowSeen(rows: seq<Row>, id: Value)
    ensures FirstRow(rows, id).Some? <==> id in FirstSeenIds(rows)
    ensures FirstRow(rows, id).Some? ==> AdId(FirstRow(rows, id).value) == id
    decreases |rows|
  {
    if rows != [] {
      FirstRowSeen(rows[..|rows| - 1], id);
    }
  }

  /** The grouped ids are distinct. */
  lemma {:induction false} FirstSeenDistinct(rows: seq<Row>)
    ensures forall i, j :: 0 <= i < j < |FirstSeenIds(rows)| ==> FirstSeenIds(rows)[i] != FirstSeenIds(rows)[j]
    decreases |rows|
  {
    if rows != [] {
      FirstSeenDistinct(rows[..|rows| - 1]);
    }
  }

  /** Every row's id is grouped. */
  lemma {:induction false} FirstSeenCovers(rows: seq<Row>)
    ensures forall i :: 0 <= i < |rows| ==> AdId(rows[i]) in FirstSeenIds(rows)
    decreases |rows|
  {
    if rows != [] {
      var n := |rows| - 1;
      FirstSeenCovers(rows[..n]);
      forall i | 0 <= i < n ensures AdId(rows[i]) in FirstSeenIds(rows) {
        assert rows[..n][i] == rows[i];
      }
    }
  }

  lemma PrefixStep(rows: seq<Row>, i: int)
    requires 0 <= i < |rows|
    ensures rows[..i + 1][..i] == rows[..i] && rows[..i + 1][i] == rows[i]
  {
  }

  /** The header, metrics and first breakdown of a new id. */
  method NewAd(row: Row) returns (r: Result<BulkAd, Fault>)
    ensures InsightShaped(row) ==> r.Ok?
    ensures r.Ok? ==> HeaderFrom(row, r.value) && InsightOfRow(row, r.value.metrics) && r.value.ageGender == Some([])
  {
    var m :- ExtractMetricsFromInsights(row);
    return Ok(BulkAd(AdId(row), Verbatim(Field(row, "ad_name"), Null), Verbatim(Field(row, "campaign_id"), Null),
                     Verbatim(Field(row, "campaign_name"), Null), Verbatim(Field(row, "adset_id"), Null),
                     Verbatim(Field(row, "adset_name"), Null), m, Some([])));
  }

  /** The ads are the first-seen ids, in order, and the index finds each one. */
  ghost predicate IdsGrouped(rows: seq<Row>, ads: seq<BulkAd>, index: map<Value, int>) {
    && |ads| == |FirstSeenIds(rows)|
    && (forall j :: 0 <= j < |ads| ==> ads[j].adId == FirstSeenIds(rows)[j])
    && (forall id :: id in index <==> id in FirstSeenIds(rows))
    && (forall id :: id in index ==> 0 <= index[id] < |ads| && ads[index[id]].adId == id)
  }

  ghost predicate AllGrouped(rows: seq<Row>, ads: seq<BulkAd>) {
    forall j :: 0 <= j < |ads| ==> GroupedFrom(rows, ads[j])
  }

  /** The state of the grouping pass after the given rows. */
  ghost predicate Grouping(rows: seq<Row>, ads: seq<BulkAd>, index: map<Value, int>) {
    IdsGrouped(rows, ads, index) && AllGrouped(rows, ads)
  }

  /** A grouped ad whose id is not the next row's, or whose next row has no age and gender, is unchanged. */
  lemma GroupedKept(rows: seq<Row>, row: Row, ad: BulkAd)
    requires GroupedFrom(rows, ad) && (ad.adId != AdId(row) || !HasAgeGender(row))
    ensures GroupedFrom(rows + [row], ad)
  {
    assert (rows + [row])[..|rows|] == rows;
  }

  /** The next row's age/gender entry is appended to the ad of its id. */
  lemma GroupedAppend(rows: seq<Row>, row: Row, ad: BulkAd, e: AgeGenderMetrics)
    requires GroupedFrom(rows, ad) && ad.adId == AdId(row) && HasAgeGender(row) && AgeGenderFrom(row, e)
    ensures GroupedFrom(rows + [row], ad.(ageGender := Some(ad.ageGender.value + [e])))
  {
    assert (rows + [row])[..|rows|] == rows;
  }

  /** A new id's ad: from the next row, with that row's entry when it has an age and a gender. */
  lemma GroupedNew(rows: seq<Row>, row: Row, ad: BulkAd)
    requires AdId(row) !in FirstSeenIds(rows) && HeaderFrom(row, ad) && InsightOfRow(row, ad.metrics)
    requires ad.ageGender.Some? && |ad.ageGender.value| == (if HasAgeGender(row) then 1 else 0)
    requires HasAgeGender(row) ==> AgeGenderFrom(row, ad.ageGender.value[0])
    ensures GroupedFrom(rows + [row], ad)
  {
    assert (rows + [row])[..|rows|] == rows;
    FirstRowSeen(rows, AdId(row));
    NoAgeGenderRows(rows, AdId(row));
  }

  /** The breakdown entry of a row with an age and a gender. */
  method AgeGenderEntry(row: Row) returns (r: Result<AgeGenderMetrics, Fault>)
    ensures InsightShaped(row) ==> r.Ok?
    ensures r.Ok? ==> AgeGenderFrom(row, r.value)
  {
    var m :- ExtractMetricsFromInsights(row);
    return Ok(AgeGenderMetrics(Verbatim(Field(row, "age"), Null), Verbatim(Field(row, "gender"), Null), m));
  }

  /** A row of an id already seen, without an age and a gender, changes nothing. */
  lemma GroupingSkip(rows: seq<Row>, row: Row, ads: seq<BulkAd>, index: map<Value, int>)
    requires Grouping(rows, ads, index) && AdId(row) in index && !HasAgeGender(row)
    ensures Grouping(rows + [row], ads, index)
  {
    assert (rows + [row])[..|rows|] == rows;
    assert FirstSeenIds(rows + [row]) == FirstSeenIds(rows);
    forall k | 0 <= k < |ads| ensures GroupedFrom(rows + [row], ads[k]) {
      GroupedKept(rows, row, ads[k]);
    }
  }

  /** A row of a new id adds its ad at the end. */
  lemma GroupingAdd(rows: seq<Row>, row: Row, ads: seq<BulkAd>, index: map<Value, int>, ad: BulkAd)
    requires Grouping(rows, ads, index) && AdId(row) !in index && GroupedFrom(rows + [row], ad)
    requires ad.adId == AdId(row)
    ensures Grouping(rows + [row], ads + [ad], index[AdId(row) := |ads|])
  {
    IdsAdd(rows, row, ads, index, ad);
    forall k | 0 <= k < |ads| ensures GroupedFrom(rows + [row], ads[k]) {
      GroupedKept(rows, row, ads[k]);
    }
    assert AllGrouped(rows + [row], ads + [ad]) by {
      forall k | 0 <= k < |ads + [ad]| ensures GroupedFrom(rows + [row], (ads + [ad])[k]) {
        if k < |ads| {
          assert (ads + [ad])[k] == ads[k];
        }
      }
    }
  }

  lemma IdsAdd(rows: seq<Row>, row: Row, ads: seq<BulkAd>, index: map<Value, int>, ad: BulkAd)
    requires IdsGrouped(rows, ads, index) && AdId(row) !in index && ad.adId == AdId(row)
    ensures IdsGrouped(rows + [row], ads + [ad], index[AdId(row) := |ads|])
  {
    assert (rows + [row])[..|rows|] == rows;
    assert FirstSeenIds(rows + [row]) == FirstSeenIds(rows) + [AdId(row)];
  }

  /** A row of an id already seen, with an age and a gender, extends that ad's breakdowns. */
  lemma GroupingAppend(rows: seq<Row>, row: Row, ads: seq<BulkAd>, index: map<Value, int>, e: AgeGenderMetrics)
    requires Grouping(rows, ads, index) && AdId(row) in index && HasAgeGender(row) && AgeGenderFrom(row, e)
    ensures var j := index[AdId(row)];
            Grouping(rows + [row], ads[j := ads[j].(ageGender := Some(ads[j].ageGender.value + [e]))], index)
  {
    var j := index[AdId(row)];
    var ads' := ads[j := ads[j].(ageGender := Some(ads[j].ageGender.value + [e]))];
    forall k | 0 <= k < |ads| ensures ads'[k].adId == ads[k].adId {
      assert ads'[k] == (if k == j then ads[j].(ageGender := Some(ads[j].ageGender.value + [e])) else ads[k]);
    }
    IdsAppend(rows, row, ads, index, ads');
    AllGroupedAppend(rows, row, ads, index, e);
  }

  lemma AllGroupedAppend(rows: seq<Row>, row: Row, ads: seq<BulkAd>, index: map<Value, int>, e: AgeGenderMetrics)
    requires Grouping(rows, ads, index) && AdId(row) in index && HasAgeGender(row) && AgeGenderFrom(row, e)
    ensures var j := index[AdId(row)];
            AllGrouped(rows + [row], ads[j := ads[j].(ageGender := Some(ads[j].ageGender.value + [e]))])
  {
    var j := index[AdId(row)];
    var ads' := ads[j := ads[j].(ageGender := Some(ads[j].ageGender.value + [e]))];
    forall k | 0 <= k < |ads'| ensures GroupedFrom(rows + [row], ads'[k]) {
      GroupedAfterAppend(rows, row, ads, index, e, k);
    }
  }

  /** Ad k after the row is appended: extended when it is the row's ad, unchanged otherwise. */
  lemma GroupedAfterAppend(rows: seq<Row>, row: Row, ads: seq<BulkAd>, index: map<Value, int>, e: AgeGenderMetrics, k: int)
    requires Grouping(rows, ads, index) && AdId(row) in index && HasAgeGender(row) && AgeGenderFrom(row, e)
    requires 0 <= k < |ads|
    ensures var j := index[AdId(row)];
            GroupedFrom(rows + [row], ads[j := ads[j].(ageGender := Some(ads[j].ageGender.value + [e]))][k])
  {
    var j := index[AdId(row)];
    assert GroupedFrom(rows, ads[k]);
    if k == j {
      GroupedAppend(rows, row, ads[j], e);
    } else {
      OtherIdDiffers(rows, ads, index, AdId(row), k);
      GroupedKept(rows, row, ads[k]);
    }
  }

  /** Only the ad the index names for an id carries that id. */
  lemma OtherIdDiffers(rows: seq<Row>, ads: seq<BulkAd>, index: map<Value, int>, id: Value, k: int)
    requires IdsGrouped(rows, ads, index) && id in index && 0 <= k < |ads| && k != index[id]
    ensures ads[k].adId != id
  {
    FirstSeenDistinct(rows);
    var j := index[id];
    var ids := FirstSeenIds(rows);
    assert ads[k].adId == ids[k] && ads[j].adId == ids[j];
    if k < j {
      assert ids[k] != ids[j];
    } else {
      assert ids[j] != ids[k];
    }
  }

  lemma IdsAppend(rows: seq<Row>, row: Row, ads: seq<BulkAd>, index: map<Value, int>, ads': seq<BulkAd>)
    requires IdsGrouped(rows, ads, index) && AdId(row) in index
    requires |ads'| == |ads| && forall k :: 0 <= k < |ads| ==> ads'[k].adId == ads[k].adId
    ensures IdsGrouped(rows + [row], ads', index)
  {
    assert (rows + [row])[..|rows|] == rows;
    assert FirstSeenIds(rows + [row]) == FirstSeenIds(rows);
  }

  /** One row of the grouping pass. */
  method GroupRow(ghost rows: seq<Row>, row: Row, ads: seq<BulkAd>, index: map<Value, int>)
    returns (r: Result<(seq<BulkAd>, map<Value, int>), Fault>)
    requires Grouping(rows, ads, index)
    ensures InsightShaped(row) ==> r.Ok?
    ensures r.Ok? ==> Grouping(rows + [row], r.value.0, r.value.1)
  {
    var id := AdId(row);
    if id !in index {
      var ad :- NewAd(row);
      if HasAgeGender(row) {
        var e :- AgeGenderEntry(row);
        ad := ad.(ageGender := Some([e]));
      }
      GroupedNew(rows, row, ad);
      GroupingAdd(rows, row, ads, index, ad);
      return Ok((ads + [ad], index[id := |ads|]));
    }
    if !HasAgeGender(row) {
      GroupingSkip(rows, row, ads, index);
      return Ok((ads, index));
    }
    var e :- AgeGenderEntry(row);
    var j := index[id];
    GroupingAppend(rows, row, ads, index, e);
    return Ok((ads[j := ads[j].(ageGender := Some(ads[j].ageGender.value + [e]))], index));
  }

  /** The grouping pass with demographics: one ad per id, in first-seen order. */
  method GroupBulkInsights(rows: seq<Row>) returns (r: Result<seq<BulkAd>, Fault>)
    ensures (forall i :: 0 <= i < |rows| ==> InsightShaped(rows[i])) ==> r.Ok?
    ensures r.Ok? ==> |r.value| == |FirstSeenIds(rows)|
                      && forall j :: 0 <= j < |r.value| ==>
                           r.value[j].adId == FirstSeenIds(rows)[j] && GroupedFrom(rows, r.value[j])
  {
    var ads: seq<BulkAd> := [];
    var index: map<Value, int> := map[];
    for i := 0 to |rows|
      invariant Grouping(rows[..i], ads, index)
    {
      assert rows[..i + 1] == rows[..i] + [rows[i]];
      var step :- GroupRow(rows[..i], rows[i], ads, index);
      ads, index := step.0, step.1;
    }
    assert rows[..|rows|] == rows;
    return Ok(ads);
  }

  lemma {:induction false} NoAgeGenderRows(rows: seq<Row>, id: Value)
    requires id !in FirstSeenIds(rows)
    ensures AgeGenderRows(rows, id) == []
    decreases |rows|
  {
    if rows != [] {
      NoAgeGenderRows(rows[..|rows| - 1], id);
    }
  }

  /** An ad of the pass without demographics: header and metrics from its row, no breakdowns. */
  ghost predicate UngroupedFrom(row: Row, ad: BulkAd) {
    HeaderFrom(row, ad) && InsightOfRow(row, ad.metrics) && ad.ageGender.None?
  }

  /** The pass without demographics: one ad per row, in order, with no breakdowns. */
  method BulkInsightsWithoutDemographics(rows: seq<Row>) returns (r: Result<seq<BulkAd>, Fault>)
    ensures (forall i :: 0 <= i < |rows| ==> InsightShaped(rows[i])) ==> r.Ok?
    ensures r.Ok? ==> |r.value| == |rows| && forall i :: 0 <= i < |rows| ==> UngroupedFrom(rows[i], r.value[i])
  {
    var ads: seq<BulkAd> := [];
    for i := 0 to |rows|
      invariant |ads| == i
      invariant forall j :: 0 <= j < i ==> UngroupedFrom(rows[j], ads[j])
    {
      var ad :- NewAd(rows[i]);
      ad := ad.(ageGender := None);
      assert UngroupedFrom(rows[i], ad);
      ads := ads + [ad];
    }
    return Ok(ads);
  }
}
