/*
 * get_detailed_ad_metrics, get_demographic_breakdown and
 * get_comprehensive_ad_metrics of src/meta_api_client.py, after the
 * request: each turns already-fetched insight rows into its metrics.
 */
module MetaDetailed {
  import opened Common
  import opened MetaFields
  import opened MetaMetrics

  // ---------------------------------------------------------------------
  // get_detailed_ad_metrics (src/meta_api_client.py:616-706)
  // ---------------------------------------------------------------------

  /** The dictionary get_detailed_ad_metrics returns; `video` is only a key when non-empty. */
  datatype DetailedMetrics = DetailedMetrics(
    spend: real, impressions: int, clicks: int, ctr: real, cpm: Value, cpp: real,
    frequency: real, reach: int, uniqueClicks: int, uniqueCtr: real, qualityRanking: Value,
    conversions: int, conversionValues: Value, conversionRateRanking: Value,
    engagementRateRanking: Value, cpa: Value, roas: Value, video: Dict)

  function DetailedDict(d: DetailedMetrics): Dict {
    map["spend" := Float(d.spend), "impressions" := Int(d.impressions), "clicks" := Int(d.clicks),
        "ctr" := Float(d.ctr), "cpm" := d.cpm, "cpp" := Float(d.cpp), "frequency" := Float(d.frequency),
        "reach" := Int(d.reach), "unique_clicks" := Int(d.uniqueClicks), "unique_ctr" := Float(d.uniqueCtr),
        "quality_ranking" := d.qualityRanking, "conversions" := Int(d.conversions),
        "conversion_values" := d.conversionValues, "conversion_rate_ranking" := d.conversionRateRanking,
        "engagement_rate_ranking" := d.engagementRateRanking, "cpa" := d.cpa, "roas" := d.roas]
    + (if d.video != map[] then map["video" := Dict(d.video)] else map[])
  }

  /** `_empty_metrics_template`: the seventeen defaults returned when there is no data. */
  const EmptyMetricsTemplate: DetailedMetrics :=
    DetailedMetrics(0.0, 0, 0, 0.0, Float(0.0), 0.0, 0.0, 0, 0, 0.0, Str("UNKNOWN"), 0, Float(0.0),
                    Str("UNKNOWN"), Str("UNKNOWN"), Float(0.0), Float(0.0), map[])

  /** The video lists read, in order, and the key each fills in the `video` dictionary. */
  const VideoLists: seq<(string, string)> :=
    [("video_play_actions", "views"), ("video_p25_watched_actions", "p25"),
     ("video_p50_watched_actions", "p50"), ("video_p75_watched_actions", "p75"),
     ("video_p95_watched_actions", "p95"), ("video_p100_watched_actions", "p100")]

  /**
   * The `video` dictionary built from the given lists: each key holds
   * int(value) of the LAST 'video_view' entry of its list (the loops do
   * not break) and is missing when the list has none.
   */
  function VideoOf(row: Row, lists: seq<(string, string)>): Dict {
    if lists == [] then map[]
    else
      var d := VideoOf(row, lists[..|lists| - 1]);
      var v := LastValue(EntriesOf(row, lists[|lists| - 1].0), VideoView);
      if v.Some? then d[lists[|lists| - 1].1 := Int(Trunc(v.value))] else d
  }

  predicate DistinctNames(lists: seq<(string, string)>) {
    forall i, j :: 0 <= i < j < |lists| ==> lists[i].1 != lists[j].1
  }

  /** Each video key is present exactly when its list has a 'video_view' entry, with that entry's count. */
  lemma {:induction false} VideoOfKeys(row: Row, lists: seq<(string, string)>, k: int)
    requires DistinctNames(lists) && 0 <= k < |lists|
    ensures var v := LastValue(EntriesOf(row, lists[k].0), VideoView);
            && (lists[k].1 in VideoOf(row, lists) <==> v.Some?)
            && (v.Some? ==> VideoOf(row, lists)[lists[k].1] == Int(Trunc(v.value)))
    decreases |lists|
  {
    var n := |lists| - 1;
    if k < n {
      assert DistinctNames(lists[..n]);
      assert lists[..n][k] == lists[k];
      VideoOfKeys(row, lists[..n], k);
      assert lists[n].1 != lists[k].1;
    } else {
      VideoOfDomain(row, lists[..n]);
      assert forall i :: 0 <= i < n ==> lists[..n][i].1 != lists[n].1;
    }
  }

  /** Only the named keys can appear in the video dictionary. */
  lemma {:induction false} VideoOfDomain(row: Row, lists: seq<(string, string)>)
    ensures forall name :: name in VideoOf(row, lists) ==> exists i :: 0 <= i < |lists| && lists[i].1 == name
    decreases |lists|
  {
    if lists != [] {
      var n := |lists| - 1;
      VideoOfDomain(row, lists[..n]);
      forall name | name in VideoOf(row, lists)
        ensures exists i :: 0 <= i < |lists| && lists[i].1 == name
      {
        if name != lists[n].1 {
          assert name in VideoOf(row, lists[..n]);
          var i :| 0 <= i < |lists[..n]| && lists[..n][i].1 == name;
          assert lists[i].1 == name;
        }
      }
    }
  }

  /** The loops that build the `video` dictionary. */
  method VideoMetrics(row: Row) returns (r: Result<Dict, Fault>)
    ensures (forall i :: 0 <= i < |VideoLists| ==> IsList(Field(row, VideoLists[i].0))) ==> r.Ok?
    ensures r.Ok? ==> r.value == VideoOf(row, VideoLists)
  {
    var video: Dict := map[];
    var i := 0;
    while i < |VideoLists|
      invariant 0 <= i <= |VideoLists|
      invariant video == VideoOf(row, VideoLists[..i])
    {
      assert VideoLists[..i + 1][..i] == VideoLists[..i];
      var (key, name) := VideoLists[i];
      var es :- ListOf(row, key);
      var last := FindLast(es, VideoView);
      if last.Some? {
        video := video[name := Int(Trunc(last.value))];
      }
      i := i + 1;
    }
    assert VideoLists[..|VideoLists|] == VideoLists;
    return Ok(video);
  }

  /** True when some entry of the list carries a value, so that the Python sum became a float. */
  predicate AnyValue(es: seq<Action>) {
    exists i :: 0 <= i < |es| && es[i].value.Some?
  }

  /** `conversion_values`: a list sums float(value), a scalar is `float(x) if x else 0.0`. */
  function ConversionValuesOf(row: Row): Result<Value, Fault> {
    match Field(row, "conversion_values")
    case Actions(es) => Ok(if AnyValue(es) then Float(SumRealValues(es)) else Int(0))
    case _ =>
      var x :- GuardedFloatOf(row, "conversion_values");
      Ok(Float(x))
  }

  /** `conversion_values / spend` when both are positive, else 0. */
  function ValueRoas(spend: real, conversionValues: Value): Value {
    if spend > 0.0 && IsNumber(conversionValues) && NumberOf(conversionValues) > 0.0
    then Float(NumberOf(conversionValues) / spend) else Int(0)
  }

  /** The numbers get_detailed_ad_metrics reads before deriving anything. */
  datatype DetailedReads = DetailedReads(cpm: real, cpp: real, frequency: real, reach: int,
                                         uniqueClicks: int, uniqueCtr: real)

  function DetailedReadsOf(row: Row): Result<DetailedReads, Fault> {
    var cpm :- FloatOf(row, "cpm");
    var cpp :- FloatOf(row, "cpp");
    var frequency :- FloatOf(row, "frequency");
    var reach :- IntOf(row, "reach");
    var uniqueClicks :- IntOf(row, "unique_clicks");
    var uniqueCtr :- FloatOf(row, "unique_ctr");
    Ok(DetailedReads(cpm, cpp, frequency, reach, uniqueClicks, uniqueCtr))
  }

  predicate DetailedReadsAre(rd: DetailedReads, d: DetailedMetrics) {
    d.cpp == rd.cpp && d.frequency == rd.frequency && d.reach == rd.reach
    && d.uniqueClicks == rd.uniqueClicks && d.uniqueCtr == rd.uniqueCtr
  }

  /** The rows get_detailed_ad_metrics reads without raising. */
  predicate DetailedShaped(row: Row) {
    BaseShaped(row)
    && IsNumeric(Field(row, "cpm")) && IsNumeric(Field(row, "cpp")) && IsNumeric(Field(row, "frequency"))
    && IsNumeric(Field(row, "reach")) && IsNumeric(Field(row, "unique_clicks"))
    && IsNumeric(Field(row, "unique_ctr"))
    && !Field(row, "conversions").Text? && !Field(row, "conversion_values").Text?
    && forall i :: 0 <= i < |VideoLists| ==> IsList(Field(row, VideoLists[i].0))
  }

  /**
   * The detailed metrics of one row: the read numbers and rankings (the
   * rankings default to "UNKNOWN"), cpm recomputed and zero-guarded,
   * cpa zero-guarded, ROAS from conversion values, and the video
   * dictionary.
   */
  predicate DetailedOfRow(row: Row, d: DetailedMetrics) {
    && BaseOf(row) == Ok(Base(d.spend, d.impressions, d.clicks, d.ctr))
    && DetailedReadsOf(row).Ok?
    && DetailedReadsAre(DetailedReadsOf(row).value, d)
    && d.qualityRanking == Verbatim(Field(row, "quality_ranking"), Str("UNKNOWN"))
    && d.conversionRateRanking == Verbatim(Field(row, "conversion_rate_ranking"), Str("UNKNOWN"))
    && d.engagementRateRanking == Verbatim(Field(row, "engagement_rate_ranking"), Str("UNKNOWN"))
    && d.conversions == CountOf(row, "conversions")
    && ConversionValuesOf(row) == Ok(d.conversionValues)
    && d.cpm == Cpm(d.spend, d.impressions)
    && d.cpa == Cpa(d.spend, d.conversions)
    && d.roas == ValueRoas(d.spend, d.conversionValues)
    && d.video == VideoOf(row, VideoLists)
  }

  /** `get_detailed_ad_metrics` after the request. */
  method GetDetailedAdMetrics(data: seq<Row>) returns (r: Result<DetailedMetrics, Fault>)
    ensures data == [] ==> r == Ok(EmptyMetricsTemplate)
    ensures data != [] && DetailedShaped(data[0]) ==> r.Ok?
    ensures data != [] && r.Ok? ==> DetailedOfRow(data[0], r.value)
  {
    if data == [] {
      return Ok(EmptyMetricsTemplate);
    }
    r := DetailedFromRow(data[0]);
  }

  method DetailedFromRow(row: Row) returns (r: Result<DetailedMetrics, Fault>)
    ensures DetailedShaped(row) ==> r.Ok?
    ensures r.Ok? ==> DetailedOfRow(row, r.value)
  {
    var base :- BaseOf(row);
    var rd :- DetailedReadsOf(row);
    var conversions :- CountField(row, "conversions", true);
    var conversionValues: Value;
    if Field(row, "conversion_values").Actions? {
      var total := SumActionRealValues(Field(row, "conversion_values").entries);
      conversionValues := if AnyValue(Field(row, "conversion_values").entries) then Float(total) else Int(0);
    } else {
      var x :- GuardedFloatOf(row, "conversion_values");
      conversionValues := Float(x);
    }
    var video :- VideoMetrics(row);
    return Ok(DetailedMetrics(
      base.spend, base.impressions, base.clicks, base.ctr, Cpm(base.spend, base.impressions), rd.cpp,
      rd.frequency, rd.reach, rd.uniqueClicks, rd.uniqueCtr,
      Verbatim(Field(row, "quality_ranking"), Str("UNKNOWN")), conversions, conversionValues,
      Verbatim(Field(row, "conversion_rate_ranking"), Str("UNKNOWN")),
      Verbatim(Field(row, "engagement_rate_ranking"), Str("UNKNOWN")),
      Cpa(base.spend, conversions), ValueRoas(base.spend, conversionValues), video));
  }

  // ---------------------------------------------------------------------
  // get_demographic_breakdown (src/meta_api_client.py:945-1013)
  // ---------------------------------------------------------------------

  datatype AgeGenderItem = AgeGenderItem(age: Value, gender: Value, spend: real, impressions: int,
                                         clicks: int, ctr: real, cpm: real, conversions: int, cpa: Value)

  datatype PlatformItem = PlatformItem(platform: Value, position: Value, device: Value, spend: real,
                                       impressions: int, clicks: int, ctr: real, conversions: int)

  /** The breakdown result: `platform` is only a key when that breakdown returned rows. */
  datatype Demographics = Demographics(ageGender: seq<AgeGenderItem>, platform: Option<seq<PlatformItem>>)

  function AgeGenderItemOf(row: Row): Result<AgeGenderItem, Fault> {
    var base :- BaseOf(row);
    var cpm :- FloatOf(row, "cpm");
    var conversions :- if Field(row, "conversions").Actions? then Ok(SumValues(Field(row, "conversions").entries))
                       else IntOf'(GuardedFloatOf(row, "conversions"));
    Ok(AgeGenderItem(Verbatim(Field(row, "age"), Null), Verbatim(Field(row, "gender"), Null),
                     base.spend, base.impressions, base.clicks, base.ctr, cpm, conversions,
                     Cpa(base.spend, conversions)))
  }

  function PlatformItemOf(row: Row): Result<PlatformItem, Fault> {
    var base :- BaseOf(row);
    var conversions :- if Field(row, "conversions").Actions? then Ok(SumValues(Field(row, "conversions").entries))
                       else IntOf'(GuardedFloatOf(row, "conversions"));
    Ok(PlatformItem(Verbatim(Field(row, "publisher_platform"), Null),
                    Verbatim(Field(row, "platform_position"), Null),
                    Verbatim(Field(row, "impression_device"), Null),
                    base.spend, base.impressions, base.clicks, base.ctr, conversions))
  }

  /** int() of a float that was read successfully. */
  function IntOf'(x: Result<real, Fault>): Result<int, Fault> {
    if x.Ok? then Ok(Trunc(x.value)) else Err(x.error)
  }

  predicate BreakdownRowShaped(row: Row) {
    BaseShaped(row) && IsNumeric(Field(row, "cpm")) && !Field(row, "conversions").Text?
  }

  /** An age/gender item: the labels copied (None when missing), cpa zero-guarded, conversions counted. */
  lemma AgeGenderItemMeaning(row: Row)
    requires BreakdownRowShaped(row)
    ensures AgeGenderItemOf(row).Ok?
    ensures var it := AgeGenderItemOf(row).value;
            && it.conversions == CountOf(row, "conversions")
            && it.cpa == (if it.conversions > 0 then Float(it.spend / it.conversions as real) else Int(0))
            && it.age == Verbatim(Field(row, "age"), Null) && it.gender == Verbatim(Field(row, "gender"), Null)
  {
  }

  /** `get_demographic_breakdown` after its two requests: one item per row, in order. */
  method DemographicBreakdown(ageRows: seq<Row>, platformRows: seq<Row>) returns (r: Result<Demographics, Fault>)
    ensures ((forall i :: 0 <= i < |ageRows| ==> AgeGenderItemOf(ageRows[i]).Ok?)
             && (forall i :: 0 <= i < |platformRows| ==> PlatformItemOf(platformRows[i]).Ok?)) ==> r.Ok?
    ensures r.Ok? ==> |r.value.ageGender| == |ageRows|
                      && forall i :: 0 <= i < |ageRows| ==> AgeGenderItemOf(ageRows[i]) == Ok(r.value.ageGender[i])
    ensures r.Ok? ==> (r.value.platform.Some? <==> platformRows != [])
    ensures r.Ok? && r.value.platform.Some? ==>
              |r.value.platform.value| == |platformRows|
              && forall i :: 0 <= i < |platformRows| ==> PlatformItemOf(platformRows[i]) == Ok(r.value.platform.value[i])
  {
    var ageGender: seq<AgeGenderItem> := [];
    for i := 0 to |ageRows|
      invariant |ageGender| == i
      invariant forall j :: 0 <= j < i ==> AgeGenderItemOf(ageRows[j]) == Ok(ageGender[j])
    {
      var item :- AgeGenderItemOf(ageRows[i]);
      ageGender := ageGender + [item];
    }
    if platformRows == [] {
      return Ok(Demographics(ageGender, None));
    }
    var platform: seq<PlatformItem> := [];
    for i := 0 to |platformRows|
      invariant |platform| == i
      invariant forall j :: 0 <= j < i ==> PlatformItemOf(platformRows[j]) == Ok(platform[j])
    {
      var item :- PlatformItemOf(platformRows[i]);
      platform := platform + [item];
    }
    return Ok(Demographics(ageGender, Some(platform)));
  }

  function AgeGenderDict(it: AgeGenderItem): Dict {
    map["age" := it.age, "gender" := it.gender, "spend" := Float(it.spend),
        "impressions" := Int(it.impressions), "clicks" := Int(it.clicks), "ctr" := Float(it.ctr),
        "cpm" := Float(it.cpm), "conversions" := Int(it.conversions), "cpa" := it.cpa]
  }

  function PlatformDict(it: PlatformItem): Dict {
    map["platform" := it.platform, "position" := it.position, "device" := it.device,
        "spend" := Float(it.spend), "impressions" := Int(it.impressions), "clicks" := Int(it.clicks),
        "ctr" := Float(it.ctr), "conversions" := Int(it.conversions)]
  }

  // ---------------------------------------------------------------------
  // get_comprehensive_ad_metrics (src/meta_api_client.py:1270-1367)
  // ---------------------------------------------------------------------

  datatype ComprehensiveMetrics = ComprehensiveMetrics(
    dateLaunched: Value, spend: real, cpm: real, impressions: int, cpc: real, clicks: int,
    outboundClicks: int, ctrDestination: Value, video3SecViews: int, videoP100Watched: int,
    registrations: int, cpr: Value)

  /** int(value) of the first lead / complete_registration / lead_grouped action, else 0. */
  function Registrations(row: Row): int {
    var v := FirstValue(EntriesOf(row, "actions"), RegistrationTypes);
    if v.Some? then Trunc(v.value) else 0
  }

  /**
   * The cost per registration: the first allowed cost entry's value;
   * when that is 0 (or there is none) and registrations and spend are
   * positive, spend / registrations.
   */
  function Cpr(firstCost: Option<real>, spend: real, registrations: int): Value {
    var given := if firstCost.Some? then Float(firstCost.value) else Int(0);
    if NumberOf(given) == 0.0 && registrations > 0 && spend > 0.0
    then Float(spend / registrations as real) else given
  }

  /** With registrations and spend, the cost per registration is never 0. */
  lemma CprNonZero(firstCost: Option<real>, spend: real, registrations: int)
    requires registrations > 0 && spend > 0.0
    ensures NumberOf(Cpr(firstCost, spend, registrations)) != 0.0
  {
    var given := if firstCost.Some? then Float(firstCost.value) else Int(0);
    if NumberOf(given) == 0.0 {
      assert spend / registrations as real > 0.0;
    }
  }

  /** The destination CTR with the `website_ctr` fallback between the list and the computed ratio. */
  function ComprehensiveDestinationCtr(row: Row, impressions: int, outbound: int): Result<Value, Fault> {
    var es := EntriesOf(row, "outbound_clicks_ctr");
    if es != [] then Ok(Float(ValueOr0(es[0])))
    else if FieldTruthy(Field(row, "website_ctr")) then
      var x :- FloatOf(row, "website_ctr");
      Ok(Float(x))
    else Ok(DestinationCtr(row, impressions, outbound))
  }

  predicate ComprehensiveShaped(row: Row) {
    IsNumeric(Field(row, "spend")) && IsNumeric(Field(row, "impressions")) && IsNumeric(Field(row, "clicks"))
    && IsNumeric(Field(row, "cpm")) && IsNumeric(Field(row, "cpc"))
    && !Field(row, "outbound_clicks").Text? && IsNumeric(Field(row, "website_ctr"))
    && IsList(Field(row, "video_thruplay_watched_actions")) && IsList(Field(row, "video_p100_watched_actions"))
    && IsList(Field(row, "actions")) && IsList(Field(row, "cost_per_action_type"))
  }

  /**
   * The comprehensive metrics of one row: the launch date passed
   * through, the first 'video_view' counts with no estimate, the
   * registrations and cost per registration.
   */
  predicate ComprehensiveOfRow(row: Row, dateLaunched: Value, c: ComprehensiveMetrics) {
    && c.dateLaunched == dateLaunched
    && FloatOf(row, "spend") == Ok(c.spend) && IntOf(row, "impressions") == Ok(c.impressions)
    && IntOf(row, "clicks") == Ok(c.clicks)
    && FloatOf(row, "cpm") == Ok(c.cpm) && FloatOf(row, "cpc") == Ok(c.cpc)
    && c.outboundClicks == CountOf(row, "outbound_clicks")
    && ComprehensiveDestinationCtr(row, c.impressions, c.outboundClicks) == Ok(c.ctrDestination)
    && c.video3SecViews == FirstVideoViews(EntriesOf(row, "video_thruplay_watched_actions"))
    && c.videoP100Watched == FirstVideoViews(EntriesOf(row, "video_p100_watched_actions"))
    && c.registrations == Registrations(row)
    && c.cpr == Cpr(FirstValue(EntriesOf(row, "cost_per_action_type"), RegistrationTypes), c.spend, c.registrations)
  }

  /** `get_comprehensive_ad_metrics` after the request: None on no data and on any exception. */
  method GetComprehensiveAdMetrics(data: seq<Row>, dateLaunched: Value) returns (r: Option<ComprehensiveMetrics>)
    ensures data == [] ==> r.None?
    ensures data != [] && ComprehensiveShaped(data[0]) ==> r.Some?
    ensures r.Some? ==> data != [] && ComprehensiveOfRow(data[0], dateLaunched, r.value)
  {
    if data == [] {
      return None;
    }
    var res := ComprehensiveFromRow(data[0], dateLaunched);
    r := if res.Ok? then Some(res.value) else None;
  }

  method ComprehensiveFromRow(row: Row, dateLaunched: Value) returns (r: Result<ComprehensiveMetrics, Fault>)
    ensures ComprehensiveShaped(row) ==> r.Ok?
    ensures r.Ok? ==> ComprehensiveOfRow(row, dateLaunched, r.value)
  {
    var spend :- FloatOf(row, "spend");
    var cpm :- FloatOf(row, "cpm");
    var impressions :- IntOf(row, "impressions");
    var cpc :- FloatOf(row, "cpc");
    var clicks :- IntOf(row, "clicks");
    var outbound :- CountField(row, "outbound_clicks", true);
    var ctrDestination :- ComprehensiveDestinationCtr(row, impressions, outbound);
    var v3 :- VideoViews(row, "video_thruplay_watched_actions");
    var v100 :- VideoViews(row, "video_p100_watched_actions");
    var actions :- ListOf(row, "actions");
    var reg := FindFirst(actions, RegistrationTypes);
    var registrations := if reg.Some? then Trunc(reg.value) else 0;
    var costs :- ListOf(row, "cost_per_action_type");
    var cost := FindFirst(costs, RegistrationTypes);
    return Ok(ComprehensiveMetrics(dateLaunched, spend, cpm, impressions, cpc, clicks,
                                   outbound, ctrDestination, v3, v100, registrations,
                                   Cpr(cost, spend, registrations)));
  }

  function ComprehensiveDict(c: ComprehensiveMetrics): Dict {
    map["date_launched" := c.dateLaunched, "spend" := Float(c.spend), "cpm" := Float(c.cpm),
        "impressions" := Int(c.impressions), "cpc" := Float(c.cpc), "clicks" := Int(c.clicks),
        "outbound_clicks" := Int(c.outboundClicks), "ctr_destination" := c.ctrDestination,
        "video_3_sec_views" := Int(c.video3SecViews), "video_p100_watched" := Int(c.videoP100Watched),
        "registrations" := Int(c.registrations), "cpr" := c.cpr]
  }
}
