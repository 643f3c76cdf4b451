/*
 * DataValidator of src/data_validator.py: the required-field, spend,
 * timeframe and anomaly checks on one ad record, the ordered issue
 * list they build, and the partition of a list of ads into valid and
 * invalid ones. Issues are tagged values; their message text is not
 * modelled. "Today" is a parameter.
 */
module DataValidation {
  import opened Common
  import opened Dates
  import MetaFields
  import MetaDetailed

  /** One entry of the issue list. */
  datatype Issue =
    | MissingField(field: string)
    | MissingMetric(metric: string)
    | MissingAgeGender
    | MissingBreakdowns
    | SpendBelow(spend: real, threshold: real)
    | InsufficientData(days: int)
    | HighCtr(ctr: real)
    | ZeroImpressionsWithSpend
    | Negative(metric: string, value: real)
    | ConversionsExceedClicks
    | HighRoas(roas: real)

  /** The issues `_check_anomalies` raises: flagged, but they never make an ad invalid. */
  predicate IsAnomaly(i: Issue) {
    i.HighCtr? || i.ZeroImpressionsWithSpend? || i.Negative? || i.ConversionsExceedClicks? || i.HighRoas?
  }

  const RequiredFields: seq<string> := ["ad_id", "ad_name", "campaign_name", "created_time", "metrics"]
  const RequiredMetrics: seq<string> := ["spend", "impressions", "clicks", "conversions", "ctr", "cpm", "cpa"]

  /** Python's `key in v`: a key of a dictionary, a substring of a text, an element of a list; None where `in` raises TypeError. */
  function In(key: string, v: Value): (r: Option<bool>)
    ensures r.Some? <==> v.Dict? || v.Str? || v.List?
    ensures v.Dict? ==> r == Some(key in v.fields)
  {
    match v
    case Dict(fields) => Some(key in fields)
    case Str(s) => Some(Substring(key, s))
    case List(items) => Some(Str(key) in items)
    case _ => None
  }

  /** `t` occurs in `s`. */
  predicate Substring(t: string, s: string) {
    exists i :: 0 <= i <= |s| && OccursAt(t, s, i)
  }

  predicate OccursAt(t: string, s: string, i: nat)
    requires i <= |s|
  {
    t <= s[i..]
  }

  /** A value `in` can search. */
  predicate Searchable(v: Value) {
    v.Dict? || v.Str? || v.List?
  }

  /**
   * `_check_required_fields` raises TypeError when `in` is undefined on
   * the metrics or the breakdowns, or when breakdowns that are not a
   * dictionary contain 'age_gender' and are then indexed by it.
   */
  predicate RequiredRaises(ad: Dict) {
    ("metrics" in ad && !Searchable(ad["metrics"]))
    || ("breakdowns" in ad && BreakdownsRaise(ad["breakdowns"]))
  }

  predicate BreakdownsRaise(b: Value) {
    !Searchable(b) || (!b.Dict? && In("age_gender", b) == Some(true))
  }

  /** A key that is absent or holds a number (booleans included, as in Python). */
  predicate NumOk(m: Dict, k: string) {
    k in m ==> IsNumber(m[k])
  }

  /** The eight metrics `_check_spend_threshold` and `_check_anomalies` compare with numbers. */
  predicate ComparedAreNumbers(m: Dict) {
    NumOk(m, "spend") && NumOk(m, "impressions") && NumOk(m, "clicks") && NumOk(m, "conversions")
    && NumOk(m, "ctr") && NumOk(m, "cpm") && NumOk(m, "cpa") && NumOk(m, "roas")
  }

  /**
   * Reading the metrics raises: `.get` on metrics that are not a
   * dictionary (AttributeError), or an order comparison on a compared
   * metric that holds something other than a number (TypeError).
   * Other keys, such as the rankings or the video dictionary, are never
   * compared.
   */
  predicate MetricsRaise(ad: Dict) {
    "metrics" in ad && (!ad["metrics"].Dict? || !ComparedAreNumbers(ad["metrics"].fields))
  }

  /** The records validate_ad_data takes without raising. */
  predicate Checkable(ad: Dict) {
    !RequiredRaises(ad) && !MetricsRaise(ad)
  }

  function Metrics(ad: Dict): Dict
    requires "metrics" in ad && ad["metrics"].Dict?
  {
    ad["metrics"].fields
  }

  /** `metrics.get(k, 0)` */
  function Metric(ad: Dict, k: string): real
    requires "metrics" in ad && ad["metrics"].Dict? && NumOk(Metrics(ad), k)
  {
    if k in Metrics(ad) then NumberOf(Metrics(ad)[k]) else 0.0
  }

  /** A field that is missing or falsy. */
  predicate Missing(ad: Dict, f: string) {
    f !in ad || !Truthy(ad[f])
  }

  /** The required fields that are missing or falsy, in the order they are listed. */
  function MissingFields(ad: Dict, fields: seq<string>): seq<Issue> {
    if fields == [] then []
    else
      var f := fields[|fields| - 1];
      MissingFields(ad, fields[..|fields| - 1]) + (if Missing(ad, f) then [MissingField(f)] else [])
  }

  /** The required metrics the metrics section lacks (`field not in metrics`), in order. */
  function MissingMetrics(metrics: Value, keys: seq<string>): seq<Issue>
    requires Searchable(metrics)
  {
    if keys == [] then []
    else
      var k := keys[|keys| - 1];
      MissingMetrics(metrics, keys[..|keys| - 1]) + (if In(k, metrics) == Some(false) then [MissingMetric(k)] else [])
  }

  /**
   * The breakdown issue: no breakdowns section, no age_gender in it, or
   * (for a dictionary) a falsy one.
   */
  function BreakdownIssues(ad: Dict): seq<Issue>
    requires !RequiredRaises(ad)
  {
    if "breakdowns" !in ad then [MissingBreakdowns]
    else if In("age_gender", ad["breakdowns"]) == Some(false) then [MissingAgeGender]
    else if ad["breakdowns"].Dict? && !Truthy(ad["breakdowns"].fields["age_gender"]) then [MissingAgeGender]
    else []
  }

  /** `_check_required_fields` */
  function RequiredIssues(ad: Dict): seq<Issue>
    requires !RequiredRaises(ad)
  {
    MissingFields(ad, RequiredFields)
    + (if "metrics" in ad then MissingMetrics(ad["metrics"], RequiredMetrics) else [])
    + BreakdownIssues(ad)
  }

  /** A field is reported missing exactly when it is one of the listed fields and missing or falsy. */
  lemma {:induction false} MissingFieldsMeaning(ad: Dict, fields: seq<string>, f: string)
    ensures MissingField(f) in MissingFields(ad, fields) <==> f in fields && Missing(ad, f)
    ensures forall i :: i in MissingFields(ad, fields) ==> i.MissingField?
    ensures |MissingFields(ad, fields)| <= |fields|
    decreases |fields|
  {
    if fields != [] {
      MissingFieldsMeaning(ad, fields[..|fields| - 1], f);
      assert fields == fields[..|fields| - 1] + [fields[|fields| - 1]];
    }
  }

  /** A metric is reported missing exactly when it is required and not in the metrics section. */
  lemma {:induction false} MissingMetricsMeaning(metrics: Value, keys: seq<string>, k: string)
    requires Searchable(metrics)
    ensures MissingMetric(k) in MissingMetrics(metrics, keys) <==> k in keys && In(k, metrics) == Some(false)
    ensures metrics.Dict? ==> (MissingMetric(k) in MissingMetrics(metrics, keys) <==> k in keys && k !in metrics.fields)
    ensures forall i :: i in MissingMetrics(metrics, keys) ==> i.MissingMetric?
    decreases |keys|
  {
    if keys != [] {
      MissingMetricsMeaning(metrics, keys[..|keys| - 1], k);
      assert keys == keys[..|keys| - 1] + [keys[|keys| - 1]];
    }
  }

  /** `_check_anomalies`: the anomalies in the order they are checked. */
  function Anomalies(ad: Dict): seq<Issue>
    requires !MetricsRaise(ad)
  {
    if "metrics" !in ad then []
    else RateAnomalies(ad) + NegativeValues(Metrics(ad), RequiredMetrics) + RatioAnomalies(ad)
  }

  /** A click-through rate above 10%, then impressions of 0 with money spent. */
  function RateAnomalies(ad: Dict): seq<Issue>
    requires "metrics" in ad && !MetricsRaise(ad)
  {
    (if Metric(ad, "ctr") > 10.0 then [HighCtr(Metric(ad, "ctr"))] else [])
    + (if Metric(ad, "impressions") == 0.0 && Metric(ad, "spend") > 0.0 then [ZeroImpressionsWithSpend] else [])
  }

  /** More conversions than (a positive number of) clicks, then a ROAS above 20. */
  function RatioAnomalies(ad: Dict): seq<Issue>
    requires "metrics" in ad && !MetricsRaise(ad)
  {
    (if Metric(ad, "clicks") > 0.0 && Metric(ad, "conversions") > Metric(ad, "clicks")
     then [ConversionsExceedClicks] else [])
    + (if Metric(ad, "roas") > 20.0 then [HighRoas(Metric(ad, "roas"))] else [])
  }

  /** The present metrics among keys whose value is negative, in order. */
  function NegativeValues(metrics: Dict, keys: seq<string>): seq<Issue>
    requires forall k :: k in keys ==> NumOk(metrics, k)
  {
    if keys == [] then []
    else
      var k := keys[|keys| - 1];
      assert k in keys && NumOk(metrics, k);
      assert forall j :: j in keys[..|keys| - 1] ==> j in keys;
      NegativeValues(metrics, keys[..|keys| - 1])
      + (if k in metrics && NumberOf(metrics[k]) < 0.0 then [Negative(k, NumberOf(metrics[k]))] else [])
  }

  lemma {:induction false} NegativeValuesAreAnomalies(metrics: Dict, keys: seq<string>)
    requires forall k :: k in keys ==> NumOk(metrics, k)
    ensures forall i :: i in NegativeValues(metrics, keys) ==> IsAnomaly(i)
    ensures forall i :: i in NegativeValues(metrics, keys) ==> i.Negative? && i.value < 0.0
    decreases |keys|
  {
    if keys != [] {
      assert forall j :: j in keys[..|keys| - 1] ==> j in keys;
      NegativeValuesAreAnomalies(metrics, keys[..|keys| - 1]);
    }
  }

  /** Every issue `_check_anomalies` reports is an anomaly, and none without metrics. */
  lemma AnomaliesAreAnomalies(ad: Dict)
    requires !MetricsRaise(ad)
    ensures forall i :: i in Anomalies(ad) ==> IsAnomaly(i)
    ensures "metrics" !in ad ==> Anomalies(ad) == []
  {
    if "metrics" in ad {
      NegativeValuesAreAnomalies(Metrics(ad), RequiredMetrics);
    }
  }

  /** The required-field issues are never anomalies. */
  lemma RequiredAreNotAnomalies(ad: Dict)
    requires !RequiredRaises(ad)
    ensures forall i :: i in RequiredIssues(ad) ==> !IsAnomaly(i)
  {
    MissingFieldsMeaning(ad, RequiredFields, "");
    if "metrics" in ad {
      MissingMetricsMeaning(ad["metrics"], RequiredMetrics, "");
    }
  }

  /**
   * The records the pipeline validates take the checks without raising:
   * metrics built by get_detailed_ad_metrics (from a row, or the empty
   * template) hold numbers under every compared key, whatever their
   * rankings and video dictionary hold, and the breakdowns are a
   * dictionary.
   */
  lemma DetailedRecordsCheckable(ad: Dict, row: MetaFields.Row, d: MetaDetailed.DetailedMetrics)
    requires d == MetaDetailed.EmptyMetricsTemplate || MetaDetailed.DetailedOfRow(row, d)
    requires "metrics" in ad && ad["metrics"] == Dict(MetaDetailed.DetailedDict(d))
    requires "breakdowns" in ad ==> ad["breakdowns"].Dict?
    ensures Checkable(ad)
  {
    if d != MetaDetailed.EmptyMetricsTemplate {
      DerivedAreNumbers(row, d);
    }
    DetailedDictNumbers(d);
  }

  lemma DerivedAreNumbers(row: MetaFields.Row, d: MetaDetailed.DetailedMetrics)
    requires MetaDetailed.DetailedOfRow(row, d)
    ensures IsNumber(d.cpm) && IsNumber(d.cpa) && IsNumber(d.roas)
  {
  }

  /** The compared keys of a detailed-metrics dictionary hold numbers once its derived rates do. */
  lemma DetailedDictNumbers(d: MetaDetailed.DetailedMetrics)
    requires IsNumber(d.cpm) && IsNumber(d.cpa) && IsNumber(d.roas)
    ensures ComparedAreNumbers(MetaDetailed.DetailedDict(d))
  {
  }

  /** The outcome of validate_ad. */
  datatype Verdict = Verdict(valid: bool, reason: Option<Issue>)

  /** The outcome of validate_ad_data: the flag and the issues, or an exception raised by a check. */
  datatype Outcome = Checked(valid: bool, issues: seq<Issue>) | Raised

  /** The outcome of validate_multiple_ads. */
  datatype Summary = Summary(validAds: seq<Dict>, invalidAds: seq<Value>, issues: map<Value, seq<Issue>>,
                             totalAds: nat, validCount: nat, invalidCount: nat)

  /** `ad_data.get('ad_id', 'unknown')` */
  function AdId(ad: Dict): Value {
    if "ad_id" in ad then ad["ad_id"] else Str("unknown")
  }

  /** A value that can key a Python dict: lists and dicts cannot (TypeError). */
  predicate Hashable(v: Value) {
    !v.List? && !v.Dict?
  }

  /** Python's `==` on values that can key a dict: numbers (booleans included) compare by value. */
  predicate PyEq(a: Value, b: Value) {
    if IsNumber(a) && IsNumber(b) then NumberOf(a) == NumberOf(b) else a == b
  }

  /**
   * The key a Python dict files a value under. Keys that compare equal
   * are one key (True, 1 and 1.0; False, 0 and 0.0), so a whole number
   * is filed under its integer.
   */
  function KeyOf(v: Value): Value {
    match v
    case Bool(b) => Int(if b then 1 else 0)
    case Float(x) => if x == x.Floor as real then Int(x.Floor) else v
    case _ => v
  }

  /** Two ids land on the same dict entry exactly when Python finds them equal. */
  lemma KeyOfMeaning(a: Value, b: Value)
    requires Hashable(a) && Hashable(b)
    ensures KeyOf(a) == KeyOf(b) <==> PyEq(a, b)
  {
  }

  class DataValidator {
    const spendThreshold: real
    const daysThreshold: int

    constructor (spendThreshold: real, daysThreshold: int)
      ensures this.spendThreshold == spendThreshold && this.daysThreshold == daysThreshold
    {
      this.spendThreshold := spendThreshold;
      this.daysThreshold := daysThreshold;
    }

    /** The spend check reads the metrics without raising: a dictionary whose spend, if any, is a number. */
    predicate SpendReadable(ad: Dict) {
      "metrics" in ad ==> ad["metrics"].Dict? && NumOk(Metrics(ad), "spend")
    }

    /** `_check_spend_threshold`: there are metrics and their spend (0 when absent) reaches the threshold. */
    predicate SpendOk(ad: Dict)
      requires SpendReadable(ad)
    {
      "metrics" in ad && Metric(ad, "spend") >= spendThreshold
    }

    /**
     * `_check_timeframe`: the date part of created_time parses and at
     * least `daysThreshold` whole days lie between it and today.
     */
    predicate TimeframeOk(ad: Dict, today: Date)
      requires Dates.Valid(today)
    {
      "created_time" in ad && ad["created_time"].Str?
      && var created := ParseDate(DatePart(ad["created_time"].s));
      created.Some? && DaysBetween(created.value, today) >= daysThreshold
    }

    /** An ad is valid when nothing required is missing and both the spend and the timeframe checks pass. */
    predicate ValidFlag(ad: Dict, today: Date)
      requires Checkable(ad) && Dates.Valid(today)
    {
      RequiredIssues(ad) == [] && SpendOk(ad) && TimeframeOk(ad, today)
    }

    /** The issue list of validate_ad_data, in check order. */
    function IssuesOf(ad: Dict, today: Date): seq<Issue>
      requires Checkable(ad) && Dates.Valid(today)
    {
      RequiredIssues(ad) + GateIssues(ad, today) + Anomalies(ad)
    }

    /** The failed spend check, then the failed timeframe check. */
    function GateIssues(ad: Dict, today: Date): seq<Issue>
      requires SpendReadable(ad) && Dates.Valid(today)
    {
      (if SpendOk(ad) then [] else [SpendBelow(if "metrics" in ad then Metric(ad, "spend") else 0.0, spendThreshold)])
      + (if TimeframeOk(ad, today) then [] else [InsufficientData(daysThreshold)])
    }

    /** The spend threshold is inclusive: spending exactly the threshold passes. */
    lemma SpendThresholdInclusive(ad: Dict)
      requires "metrics" in ad && ad["metrics"].Dict? && "spend" in Metrics(ad) && IsNumber(Metrics(ad)["spend"])
      requires NumberOf(Metrics(ad)["spend"]) == spendThreshold
      ensures SpendReadable(ad) && SpendOk(ad)
    {
    }

    /** An ad created `n >= daysThreshold` days ago, written as YYYY-MM-DD, passes the timeframe check. */
    lemma OldEnoughPasses(ad: Dict, today: Date, n: nat)
      requires Dates.Valid(today) && n <= DayNumber(today) && n >= daysThreshold
      requires "created_time" in ad && ad["created_time"] == Str(FormatDate(SubtractDays(today, n)))
      ensures TimeframeOk(ad, today)
    {
      var d := SubtractDays(today, n);
      ParseFormatRoundTrip(d);
      assert 'T' !in FormatDate(d) by {
        DigitsHaveNoT(d);
      }
      assert DatePart(FormatDate(d)) == FormatDate(d);
    }

    /**
     * Anomalies never decide validity: an ad is invalid exactly when
     * its issue list starts with something other than an anomaly, and a
     * valid ad carries anomalies only.
     */
    lemma AnomaliesOnlyFlag(ad: Dict, today: Date)
      requires Checkable(ad) && Dates.Valid(today)
      ensures ValidFlag(ad, today) ==> forall i :: i in IssuesOf(ad, today) ==> IsAnomaly(i)
      ensures !ValidFlag(ad, today) <==> IssuesOf(ad, today) != [] && !IsAnomaly(IssuesOf(ad, today)[0])
    {
      AnomaliesAreAnomalies(ad);
      RequiredAreNotAnomalies(ad);
      var issues := IssuesOf(ad, today);
      if RequiredIssues(ad) != [] {
        assert issues[0] == RequiredIssues(ad)[0];
        assert RequiredIssues(ad)[0] in RequiredIssues(ad);
      }
    }

    /** `_check_required_fields`, with its loops; None where it raises. */
    method CheckRequiredFields(ad: Dict) returns (r: Option<seq<Issue>>)
      ensures r.None? <==> RequiredRaises(ad)
      ensures r.Some? ==> r.value == RequiredIssues(ad)
    {
      var found := [];
      for i := 0 to |RequiredFields|
        invariant found == MissingFields(ad, RequiredFields[..i])
      {
        assert RequiredFields[..i + 1][..i] == RequiredFields[..i];
        var f := RequiredFields[i];
        if f !in ad || !Truthy(ad[f]) {
          found := found + [MissingField(f)];
        }
      }
      assert RequiredFields[..|RequiredFields|] == RequiredFields;
      if "metrics" in ad {
        var metrics := ad["metrics"];
        if !Searchable(metrics) {
          return None;
        }
        var missing := [];
        for i := 0 to |RequiredMetrics|
          invariant missing == MissingMetrics(metrics, RequiredMetrics[..i])
        {
          assert RequiredMetrics[..i + 1][..i] == RequiredMetrics[..i];
          if In(RequiredMetrics[i], metrics) == Some(false) {
            missing := missing + [MissingMetric(RequiredMetrics[i])];
          }
        }
        assert RequiredMetrics[..|RequiredMetrics|] == RequiredMetrics;
        found := found + missing;
      }
      if "breakdowns" in ad {
        var breakdowns := ad["breakdowns"];
        if !Searchable(breakdowns) {
          return None;
        }
        if In("age_gender", breakdowns) == Some(false) {
          found := found + [MissingAgeGender];
        } else if !breakdowns.Dict? {
          return None;
        } else if !Truthy(breakdowns.fields["age_gender"]) {
          found := found + [MissingAgeGender];
        }
      } else {
        found := found + [MissingBreakdowns];
      }
      return Some(found);
    }

    /** `_check_anomalies`, with its loop over the core metrics; None where it raises. */
    method CheckAnomalies(ad: Dict) returns (r: Option<seq<Issue>>)
      ensures r.None? <==> MetricsRaise(ad)
      ensures r.Some? ==> r.value == Anomalies(ad)
    {
      if "metrics" !in ad {
        return Some([]);
      }
      if !ad["metrics"].Dict? || !ComparedAreNumbers(ad["metrics"].fields) {
        return None;
      }
      var metrics := ad["metrics"].fields;
      var found := [];
      if Metric(ad, "ctr") > 10.0 {
        found := found + [HighCtr(Metric(ad, "ctr"))];
      }
      if Metric(ad, "impressions") == 0.0 && Metric(ad, "spend") > 0.0 {
        found := found + [ZeroImpressionsWithSpend];
      }
      assert found == RateAnomalies(ad);
      var negatives := [];
      for i := 0 to |RequiredMetrics|
        invariant negatives == NegativeValues(metrics, RequiredMetrics[..i])
      {
        assert RequiredMetrics[..i + 1][..i] == RequiredMetrics[..i];
        var k := RequiredMetrics[i];
        if k in metrics && NumberOf(metrics[k]) < 0.0 {
          negatives := negatives + [Negative(k, NumberOf(metrics[k]))];
        }
      }
      assert RequiredMetrics[..|RequiredMetrics|] == RequiredMetrics;
      var ratios := [];
      if Metric(ad, "clicks") > 0.0 && Metric(ad, "conversions") > Metric(ad, "clicks") {
        ratios := ratios + [ConversionsExceedClicks];
      }
      if Metric(ad, "roas") > 20.0 {
        ratios := ratios + [HighRoas(Metric(ad, "roas"))];
      }
      assert ratios == RatioAnomalies(ad);
      return Some(found + negatives + ratios);
    }

    /**
     * `validate_ad_data`: the validity flag and the issue list, or Raised
     * when one of the checks raises (it catches nothing itself).
     */
    method ValidateAdData(ad: Dict, today: Date) returns (r: Outcome)
      requires Dates.Valid(today)
      ensures r.Raised? <==> !Checkable(ad)
      ensures r.Checked? ==> r.valid == ValidFlag(ad, today) && r.issues == IssuesOf(ad, today)
    {
      var issues := [];
      var valid := true;
      var required := CheckRequiredFields(ad);
      if required.None? {
        return Raised;
      }
      if required.value != [] {
        issues := issues + required.value;
        valid := false;
      }
      assert issues == RequiredIssues(ad);
      if !SpendReadable(ad) {
        return Raised;
      }
      var gates := [];
      if !SpendOk(ad) {
        gates := gates + [SpendBelow(if "metrics" in ad then Metric(ad, "spend") else 0.0, spendThreshold)];
        valid := false;
      }
      if !TimeframeOk(ad, today) {
        gates := gates + [InsufficientData(daysThreshold)];
        valid := false;
      }
      assert gates == GateIssues(ad, today);
      var anomalies := CheckAnomalies(ad);
      if anomalies.None? {
        return Raised;
      }
      return Checked(valid, issues + gates + anomalies.value);
    }

    /** `validate_ad`: the flag, and the first issue as the reason when invalid; None when a check raises. */
    method ValidateAd(ad: Dict, today: Date) returns (v: Option<Verdict>)
      requires Dates.Valid(today)
      ensures v.None? <==> !Checkable(ad)
      ensures v.Some? ==> v.value.valid == ValidFlag(ad, today)
      ensures v.Some? ==> (v.value.reason.Some? <==> !v.value.valid)
      ensures v.Some? && v.value.reason.Some? ==>
                v.value.reason.value == IssuesOf(ad, today)[0] && !IsAnomaly(v.value.reason.value)
    {
      var outcome := ValidateAdData(ad, today);
      if outcome.Raised? {
        return None;
      }
      AnomaliesOnlyFlag(ad, today);
      if !outcome.valid && outcome.issues != [] {
        return Some(Verdict(false, Some(outcome.issues[0])));
      }
      return Some(Verdict(outcome.valid, None));
    }

    /**
     * The loop of validate_multiple_ads stops on this ad: validating it
     * raises, or it is invalid and its id cannot key the issues dict.
     */
    predicate StopsOn(ad: Dict, today: Date)
      requires Dates.Valid(today)
    {
      !Checkable(ad) || (!ValidFlag(ad, today) && !Hashable(AdId(ad)))
    }

    /** The loop runs through all of these ads. */
    predicate NoStops(ads: seq<Dict>, today: Date)
      requires Dates.Valid(today)
    {
      forall j :: 0 <= j < |ads| ==> !StopsOn(ads[j], today)
    }

    lemma NoStopsStep(ads: seq<Dict>, i: nat, today: Date)
      requires Dates.Valid(today) && i < |ads| && NoStops(ads[..i], today) && !StopsOn(ads[i], today)
      ensures NoStops(ads[..i + 1], today)
    {
      var s := ads[..i + 1];
      forall j | 0 <= j < |s|
        ensures !StopsOn(s[j], today)
      {
        if j < i {
          assert s[j] == ads[..i][j];
        }
      }
    }

    /**
     * `validate_multiple_ads`: the ads split in input order, with the
     * issues of the invalid ones; None when the loop raises on some ad.
     */
    method ValidateMultipleAds(ads: seq<Dict>, today: Date) returns (s: Option<Summary>)
      requires Dates.Valid(today)
      ensures s.None? <==> exists i :: 0 <= i < |ads| && StopsOn(ads[i], today)
      ensures s.Some? ==> s.value.totalAds == |ads| && s.value.validCount == |s.value.validAds|
                          && s.value.invalidCount == |s.value.invalidAds|
                          && s.value.validCount + s.value.invalidCount == s.value.totalAds
      ensures s.Some? ==> AllCheckable(ads) && s.value == Split(ads, today)
    {
      var valid: seq<Dict> := [];
      var invalid: seq<Value> := [];
      var issues: map<Value, seq<Issue>> := map[];
      for i := 0 to |ads|
        invariant AllCheckable(ads[..i])
        invariant Split(ads[..i], today) == Summary(valid, invalid, issues, i, |valid|, |invalid|)
        invariant |valid| + |invalid| == i
        invariant NoStops(ads[..i], today)
      {
        var outcome := ValidateAdData(ads[i], today);
        if outcome.Raised? {
          assert StopsOn(ads[i], today);
          return None;
        }
        if !outcome.valid && !Hashable(AdId(ads[i])) {
          assert StopsOn(ads[i], today);
          return None;
        }
        NoStopsStep(ads, i, today);
        AllCheckableStep(ads, i);
        SplitStep(ads, i, today, outcome.valid, outcome.issues, valid, invalid, issues);
        if outcome.valid {
          valid := valid + [ads[i]];
        } else {
          invalid := invalid + [AdId(ads[i])];
          issues := issues[KeyOf(AdId(ads[i])) := outcome.issues];
        }
      }
      assert ads[..|ads|] == ads;
      s := Some(Summary(valid, invalid, issues, |ads|, |valid|, |invalid|));
    }

    /** One more ad extends the split by its verdict. */
    lemma SplitStep(ads: seq<Dict>, i: nat, today: Date, ok: bool, found: seq<Issue>,
                    valid: seq<Dict>, invalid: seq<Value>, issues: map<Value, seq<Issue>>)
      requires Dates.Valid(today) && i < |ads| && AllCheckable(ads[..i + 1]) && AllCheckable(ads[..i])
      requires Checkable(ads[i]) && ok == ValidFlag(ads[i], today) && found == IssuesOf(ads[i], today)
      requires Split(ads[..i], today) == Summary(valid, invalid, issues, i, |valid|, |invalid|)
      ensures Split(ads[..i + 1], today) ==
        if ok then Summary(valid + [ads[i]], invalid, issues, i + 1, |valid| + 1, |invalid|)
        else Summary(valid, invalid + [AdId(ads[i])], issues[KeyOf(AdId(ads[i])) := found], i + 1, |valid|, |invalid| + 1)
    {
      assert ads[..i + 1][..i] == ads[..i];
    }

    /** The partition of validate_multiple_ads, ad by ad. */
    function Split(ads: seq<Dict>, today: Date): (s: Summary)
      requires Dates.Valid(today) && AllCheckable(ads)
    {
      if ads == [] then Summary([], [], map[], 0, 0, 0)
      else
        var ad := ads[|ads| - 1];
        var s := Split(ads[..|ads| - 1], today);
        if ValidFlag(ad, today)
        then s.(validAds := s.validAds + [ad], totalAds := s.totalAds + 1, validCount := s.validCount + 1)
        else s.(invalidAds := s.invalidAds + [AdId(ad)], issues := s.issues[KeyOf(AdId(ad)) := IssuesOf(ad, today)],
                totalAds := s.totalAds + 1, invalidCount := s.invalidCount + 1)
    }

    /** The counts of the split add up to the number of ads. */
    lemma {:induction false} SplitCounts(ads: seq<Dict>, today: Date)
      requires Dates.Valid(today) && AllCheckable(ads)
      ensures Split(ads, today).validCount == |Split(ads, today).validAds|
      ensures Split(ads, today).invalidCount == |Split(ads, today).invalidAds|
      ensures Split(ads, today).validCount + Split(ads, today).invalidCount == |ads|
      decreases |ads|
    {
      if ads != [] {
        SplitCounts(ads[..|ads| - 1], today);
      }
    }

    /** Only valid ads are kept as valid, and only ads of the input. */
    lemma {:induction false} SplitKeepsValid(ads: seq<Dict>, today: Date)
      requires Dates.Valid(today) && AllCheckable(ads)
      ensures forall a :: a in Split(ads, today).validAds ==> a in ads && Checkable(a) && ValidFlag(a, today)
      decreases |ads|
    {
      if ads != [] {
        var n := |ads| - 1;
        SplitKeepsValid(ads[..n], today);
        assert forall a :: a in ads[..n] ==> a in ads;
      }
    }

    /** The issues are keyed by exactly the ids of the invalid ads, equal ids sharing one key. */
    lemma {:induction false} SplitIssueKeys(ads: seq<Dict>, today: Date)
      requires Dates.Valid(today) && AllCheckable(ads)
      ensures Split(ads, today).issues.Keys == set id | id in Split(ads, today).invalidAds :: KeyOf(id)
      decreases |ads|
    {
      if ads != [] {
        SplitIssueKeys(ads[..|ads| - 1], today);
      }
    }

    /** Ad i is the last invalid ad whose id files under `key`. */
    predicate LastInvalidWithKey(ads: seq<Dict>, today: Date, key: Value, i: int)
      requires Dates.Valid(today) && AllCheckable(ads)
    {
      && 0 <= i < |ads| && KeyOf(AdId(ads[i])) == key && !ValidFlag(ads[i], today)
      && forall j :: i < j < |ads| ==> KeyOf(AdId(ads[j])) != key || ValidFlag(ads[j], today)
    }

    /** Each recorded issue list is that of the last invalid ad whose id files under that key. */
    lemma {:induction false} SplitIssueSource(ads: seq<Dict>, today: Date, key: Value)
      requires Dates.Valid(today) && AllCheckable(ads)
      requires key in Split(ads, today).issues
      ensures exists i :: LastInvalidWithKey(ads, today, key, i) && Split(ads, today).issues[key] == IssuesOf(ads[i], today)
      decreases |ads|
    {
      var n := |ads| - 1;
      var last := ads[n];
      if !ValidFlag(last, today) && key == KeyOf(AdId(last)) {
        assert LastInvalidWithKey(ads, today, key, n);
      } else {
        var p := ads[..n];
        assert AllCheckable(p) by {
          forall j | 0 <= j < |p|
            ensures Checkable(p[j])
          {
            assert p[j] == ads[j];
          }
        }
        SplitIssueSource(p, today, key);
        var i :| LastInvalidWithKey(p, today, key, i) && Split(p, today).issues[key] == IssuesOf(p[i], today);
        LastInvalidExtends(ads, today, key, i);
      }
    }

    /** The last invalid ad with a key stays the last when an ad that does not file under it follows. */
    lemma LastInvalidExtends(ads: seq<Dict>, today: Date, key: Value, i: int)
      requires Dates.Valid(today) && AllCheckable(ads) && |ads| > 0
      requires AllCheckable(ads[..|ads| - 1]) && LastInvalidWithKey(ads[..|ads| - 1], today, key, i)
      requires KeyOf(AdId(ads[|ads| - 1])) != key || ValidFlag(ads[|ads| - 1], today)
      ensures LastInvalidWithKey(ads, today, key, i)
    {
      var p := ads[..|ads| - 1];
      assert forall j :: 0 <= j < |p| ==> ads[j] == p[j];
    }
  }

  /** Every ad of the list is validated without raising. */
  predicate AllCheckable(ads: seq<Dict>) {
    forall i :: 0 <= i < |ads| ==> Checkable(ads[i])
  }

  lemma AllCheckableStep(ads: seq<Dict>, i: nat)
    requires i < |ads| && AllCheckable(ads[..i]) && Checkable(ads[i])
    ensures AllCheckable(ads[..i + 1])
  {
    var s := ads[..i + 1];
    forall j | 0 <= j < |s|
      ensures Checkable(s[j])
    {
      if j < i {
        assert s[j] == ads[..i][j];
      }
    }
  }

  lemma DigitsHaveNoT(d: Date)
    requires Dates.Valid(d)
    ensures 'T' !in FormatDate(d)
  {
    var s := FormatDate(d);
    forall i | 0 <= i < |s|
      ensures s[i] != 'T'
    {
      assert s[i] == '-' || IsDigit(s[i]);
    }
  }
}
