/*
 * The record sanitiser and the summaries of src/pipeline_manager.py:
 * `_ensure_required_metrics` (back-fill of hook_rate, viewthrough_rate,
 * cpc and click_to_reg at every level), `_filter_fields_for_json`
 * (recompute the video rates, drop the listed keys, round floats to two
 * places), `_prepare_dashboard_summary` and `_complete_run`.
 *
 * Python mutates a deep copy of each record in place; since nothing
 * else can observe that copy, the model returns the updated value.
 */
module Pipeline {
  import opened Common
  import opened Sorting
  import MetaClient

  const RequiredMetrics: seq<string> := ["hook_rate", "viewthrough_rate", "cpc", "click_to_reg"]
  const RequiredSet: set<string> := {"hook_rate", "viewthrough_rate", "cpc", "click_to_reg"}
  const MetricsDenylist: seq<string> :=
    ["cpp", "reach", "unique_ctr", "quality_ranking", "conversion_values", "conversion_rate_ranking",
     "engagement_rate_ranking", "roas", "unique_clicks"]
  const CreativeDenylist: seq<string> := ["name", "object_type", "thumbnail_url", "description", "body", "title"]
  /** Keys the rounding passes leave alone: the rates, and the labels of each kind of breakdown. */
  const RateKeys: set<string> := {"hook_rate", "viewthrough_rate"}
  const AgeGenderKeep: set<string> := {"hook_rate", "viewthrough_rate", "age", "gender"}
  const PlatformKeep: set<string> := {"hook_rate", "viewthrough_rate", "platform", "position", "device"}

  /** One breakdown section; other breakdown kinds are carried along untouched. */
  datatype Breakdowns = Breakdowns(ageGender: Option<seq<Dict>>, platform: Option<seq<Dict>>, others: Dict)
  /** The `ad_data` record: metrics, breakdowns and creative, and the keys the sanitiser never touches. */
  datatype AdData = AdData(metrics: Option<Dict>, breakdowns: Option<Breakdowns>, creative: Option<Dict>, others: Dict)
  /** One analysed ad: its `ad_data`, its `analysis_result`, and anything else. */
  datatype AnalyzedAd = AnalyzedAd(adData: Option<AdData>, analysisResult: Option<Dict>, others: Dict)

  // ---- reading numbers ----

  predicate NumOk(m: Dict, k: string) {
    k in m ==> IsNumber(m[k])
  }

  /** The nested `video` dictionary, or nothing when it is absent or not a dictionary. */
  function Video(m: Dict): Dict {
    if "video" in m && m["video"].Dict? then m["video"].fields else map[]
  }

  /** The keys the rate rules compare with 0 hold numbers. */
  predicate Readable(m: Dict) {
    NumOk(m, "impressions") && NumOk(m, "clicks") && NumOk(m, "spend") && NumOk(m, "conversions")
    && NumOk(m, "video_3_sec_views") && NumOk(m, "video_p100_watched")
    && NumOk(Video(m), "p25") && NumOk(Video(m), "p100") && NumOk(Video(m), "views")
  }

  /** The top-level metrics also read `video.p25` without a type check, so a `video` there must be a dictionary. */
  predicate TopReadable(m: Dict) {
    Readable(m) && ("video" in m ==> m["video"].Dict?)
  }

  predicate EntriesReadable(o: Option<seq<Dict>>) {
    o.Some? ==> forall i :: 0 <= i < |o.value| ==> Readable(o.value[i])
  }

  predicate AdReadable(ad: AnalyzedAd) {
    ad.adData.Some? ==>
      (ad.adData.value.metrics.Some? ==> TopReadable(ad.adData.value.metrics.value))
      && (ad.adData.value.breakdowns.Some? ==>
            EntriesReadable(ad.adData.value.breakdowns.value.ageGender)
            && EntriesReadable(ad.adData.value.breakdowns.value.platform))
  }

  /** m and r agree on every key outside ks. */
  ghost predicate SameOutside(m: Dict, r: Dict, ks: set<string>) {
    forall k :: k !in ks ==> (k in m <==> k in r) && (k in m ==> r[k] == m[k])
  }

  /** Changing only the required metrics changes none of the numbers the rate rules read. */
  lemma ReadableOutside(m: Dict, r: Dict)
    requires Readable(m) && SameOutside(m, r, RequiredSet)
    ensures Readable(r) && Video(r) == Video(m)
    ensures Num(r, "impressions") == Num(m, "impressions") && Num(r, "clicks") == Num(m, "clicks")
    ensures Num(r, "spend") == Num(m, "spend") && Num(r, "conversions") == Num(m, "conversions")
    ensures Num(r, "video_3_sec_views") == Num(m, "video_3_sec_views")
    ensures Num(r, "video_p100_watched") == Num(m, "video_p100_watched")
    ensures ("video" in r ==> r["video"].Dict?) <==> ("video" in m ==> m["video"].Dict?)
  {
    assert "video" !in RequiredSet && "impressions" !in RequiredSet && "clicks" !in RequiredSet;
    assert "spend" !in RequiredSet && "conversions" !in RequiredSet;
    assert "video_3_sec_views" !in RequiredSet && "video_p100_watched" !in RequiredSet;
  }

  /** `value / base * 100` */
  function Pct(value: real, base: real): real
    requires base != 0.0
  {
    value / base * 100.0
  }

  /** Hook rate: video.p25, else video_3_sec_views, per impression, as a percentage rounded to 2 places; 0 when neither is positive. */
  function HookRate(m: Dict): real
    requires Readable(m) && Num(m, "impressions") > 0.0
  {
    if Num(Video(m), "p25") > 0.0 then Round2(Pct(Num(Video(m), "p25"), Num(m, "impressions")))
    else if Num(m, "video_3_sec_views") > 0.0 then Round2(Pct(Num(m, "video_3_sec_views"), Num(m, "impressions")))
    else 0.0
  }

  /** View-through rate: video.p100, else video_p100_watched, per impression, rounded the same way. */
  function ViewthroughRate(m: Dict): real
    requires Readable(m) && Num(m, "impressions") > 0.0
  {
    if Num(Video(m), "p100") > 0.0 then Round2(Pct(Num(Video(m), "p100"), Num(m, "impressions")))
    else if Num(m, "video_p100_watched") > 0.0 then Round2(Pct(Num(m, "video_p100_watched"), Num(m, "impressions")))
    else 0.0
  }

  // ---- dictionary edits ----

  /** The missing keys among `keys` set to 0, in order; nothing else changes. */
  function FillFrom(m: Dict, keys: seq<string>): (r: Dict)
    ensures r.Keys == m.Keys + (set k | k in keys)
    ensures forall k :: k in m ==> r[k] == m[k]
    ensures forall k :: k in r && k !in m ==> r[k] == Int(0)
  {
    if keys == [] then m
    else
      var p := FillFrom(m, keys[..|keys| - 1]);
      var k := keys[|keys| - 1];
      assert keys == keys[..|keys| - 1] + [k];
      if k in p then p else p[k := Int(0)]
  }

  /** `for f in fields: if f in m: del m[f]` */
  function Dropped(m: Dict, fields: seq<string>): (r: Dict)
  {
    map k | k in m && k !in fields :: m[k]
  }

  /** A value as the rounding passes leave it: a float outside `keep` rounded to 2 places, anything else as it was. */
  function RoundValue(k: string, v: Value, keep: set<string>): Value {
    if v.Float? && k !in keep then Float(Round2(v.f)) else v
  }

  /** `for key, value in list(m.items()): ... m[key] = round(value, 2)` */
  function Rounded(m: Dict, keep: set<string>): (r: Dict)
  {
    map k | k in m :: RoundValue(k, m[k], keep)
  }

  /** After a rounding pass every float outside `keep` is already at 2 places, and nothing else changed. */
  lemma RoundedMeaning(m: Dict, keep: set<string>)
    ensures Rounded(m, keep).Keys == m.Keys
    ensures forall k :: k in m && k !in keep && m[k].Float? ==>
              Rounded(m, keep)[k].Float? && Round2(Rounded(m, keep)[k].f) == Rounded(m, keep)[k].f
    ensures forall k :: k in m && (k in keep || !m[k].Float?) ==> Rounded(m, keep)[k] == m[k]
  {
    forall k | k in m && k !in keep && m[k].Float? {
      Round2Idempotent(m[k].f);
    }
  }

  /** A second rounding pass changes nothing. */
  lemma RoundedIdempotent(m: Dict, keep: set<string>)
    ensures Rounded(Rounded(m, keep), keep) == Rounded(m, keep)
  {
    RoundedMeaning(m, keep);
    RoundedMeaning(Rounded(m, keep), keep);
  }

  /** One more key fills that key in when it is missing. */
  lemma FillFromStep(m: Dict, keys: seq<string>, i: nat, r: Dict)
    requires i < |keys| && r == FillFrom(m, keys[..i])
    ensures FillFrom(m, keys[..i + 1]) == if keys[i] in r then r else r[keys[i] := Int(0)]
  {
    assert keys[..i + 1][..i] == keys[..i];
  }

  method FillRequired(m: Dict) returns (r: Dict)
    ensures r == FillFrom(m, RequiredMetrics)
  {
    r := m;
    for i := 0 to |RequiredMetrics|
      invariant r == FillFrom(m, RequiredMetrics[..i])
    {
      FillFromStep(m, RequiredMetrics, i, r);
      if RequiredMetrics[i] !in r {
        r := r[RequiredMetrics[i] := Int(0)];
      }
    }
    assert RequiredMetrics[..|RequiredMetrics|] == RequiredMetrics;
  }

  /** Deletes each listed key that is present. */
  method DropFields(m: Dict, fields: seq<string>) returns (r: Dict)
    ensures r == Dropped(m, fields)
  {
    r := m;
    for i := 0 to |fields|
      invariant r == Dropped(m, fields[..i])
    {
      if fields[i] in r {
        r := map k | k in r && k != fields[i] :: r[k];
      }
      assert r == Dropped(m, fields[..i + 1]);
    }
    assert fields[..|fields|] == fields;
  }

  /** Rounds each float value outside `keep`, key by key. */
  method RoundFloats(m: Dict, keep: set<string>) returns (r: Dict)
    ensures r == Rounded(m, keep)
  {
    r := m;
    var todo := m.Keys;
    while todo != {}
      invariant todo <= m.Keys && r.Keys == m.Keys
      invariant forall k :: k in m ==> r[k] == if k in todo then m[k] else RoundValue(k, m[k], keep)
      decreases |todo|
    {
      var k :| k in todo;
      r := r[k := RoundValue(k, r[k], keep)];
      todo := todo - {k};
    }
  }

  // ---- _ensure_required_metrics ----

  /**
   * The hook and view-through rates added to the top-level metrics,
   * only when impressions are positive and only where missing.
   */
  function WithRates(m: Dict): (r: Dict)
    requires TopReadable(m)
    ensures SameOutside(m, r, RateKeys)
    ensures forall k :: k in m ==> k in r && r[k] == m[k]
  {
    if Num(m, "impressions") > 0.0 then
      var h := if "hook_rate" in m then m else m["hook_rate" := Float(HookRate(m))];
      if "viewthrough_rate" in m then h else h["viewthrough_rate" := Float(ViewthroughRate(m))]
    else m
  }

  /** The function-local `video_p25`: bound only when the top-level metrics take the hook-rate path. */
  function TopP25(m: Dict): Option<real>
    requires TopReadable(m)
  {
    if Num(m, "impressions") > 0.0 && "hook_rate" !in m then Some(Num(Video(m), "p25")) else None
  }

  /** A missing cpc and click_to_reg derived from clicks when clicks are positive, then the required keys filled with 0. */
  function FillDerived(m: Dict): (r: Dict)
    requires Readable(m)
    ensures SameOutside(m, r, RequiredSet)
    ensures forall k :: k in m ==> k in r && r[k] == m[k]
    ensures r.Keys == m.Keys + RequiredSet
  {
    var clicks := Num(m, "clicks");
    var c := if "cpc" !in m && clicks > 0.0
             then m["cpc" := if Num(m, "spend") > 0.0 then Float(Num(m, "spend") / clicks) else Int(0)]
             else m;
    var t := if "click_to_reg" !in m && clicks > 0.0
             then c["click_to_reg" := if Num(m, "conversions") > 0.0 then Float(Pct(Num(m, "conversions"), clicks)) else Int(0)]
             else c;
    FillFrom(t, RequiredMetrics)
  }

  /** The cpc and click_to_reg that FillDerived adds where they were missing. */
  lemma FillDerivedValues(m: Dict)
    requires Readable(m)
    ensures "cpc" !in m && Num(m, "clicks") > 0.0 ==>
              FillDerived(m)["cpc"] == if Num(m, "spend") > 0.0 then Float(Num(m, "spend") / Num(m, "clicks")) else Int(0)
    ensures "click_to_reg" !in m && Num(m, "clicks") > 0.0 ==>
              FillDerived(m)["click_to_reg"] ==
                if Num(m, "conversions") > 0.0 then Float(Pct(Num(m, "conversions"), Num(m, "clicks"))) else Int(0)
    ensures "cpc" !in m && Num(m, "clicks") <= 0.0 ==> FillDerived(m)["cpc"] == Int(0)
    ensures "click_to_reg" !in m && Num(m, "clicks") <= 0.0 ==> FillDerived(m)["click_to_reg"] == Int(0)
  {
  }

  /** The back-filled top-level metrics. */
  function EnsureTop(m: Dict): (r: Dict)
    requires TopReadable(m)
    ensures SameOutside(m, r, RequiredSet) && TopReadable(r)
    ensures forall k :: k in m ==> k in r && r[k] == m[k]
    ensures r.Keys == m.Keys + RequiredSet
  {
    var w := WithRates(m);
    ReadableOutside(m, w);
    var r := FillDerived(w);
    ReadableOutside(w, r);
    r
  }

  /** The breakdown entries whose back-fill reaches the unbound `video_p25`. */
  predicate HitsUnboundP25(b: Dict, p25: Option<real>)
    requires Readable(b)
  {
    "hook_rate" !in b && Num(b, "impressions") > 0.0 && Num(Video(b), "views") > 0.0 && p25.None?
  }

  /**
   * One breakdown entry back-filled. A missing hook rate comes from the
   * top-level `video_p25` when the entry's video views are positive, and
   * Python raises when that local was never bound.
   */
  function EnsureEntry(b: Dict, p25: Option<real>): (r: Result<Dict, string>)
    requires Readable(b)
    ensures r.Err? <==> HitsUnboundP25(b, p25)
    ensures r.Ok? ==> SameOutside(b, r.value, RequiredSet) && Readable(r.value)
    ensures r.Ok? ==> (forall k :: k in b ==> k in r.value && r.value[k] == b[k]) && r.value.Keys == b.Keys + RequiredSet
  {
    if HitsUnboundP25(b, p25) then Err("video_p25 is not bound")
    else
      var v := EntryRates(b, p25);
      ReadableOutside(b, v);
      var r := FillDerived(v);
      ReadableOutside(v, r);
      Ok(r)
  }

  /**
   * The rates of one breakdown entry: a missing hook rate from the
   * top-level `video_p25` when the entry's video views are positive.
   */
  function EntryRates(b: Dict, p25: Option<real>): (r: Dict)
    requires Readable(b) && !HitsUnboundP25(b, p25)
    ensures SameOutside(b, r, RateKeys)
    ensures forall k :: k in b ==> k in r && r[k] == b[k]
  {
    var impr := Num(b, "impressions");
    var h := if "hook_rate" !in b && impr > 0.0 then
               b["hook_rate" := Float(
                   if Num(Video(b), "views") > 0.0 then Round2(Pct(p25.value, impr))
                   else if Num(b, "video_3_sec_views") > 0.0 then Round2(Pct(Num(b, "video_3_sec_views"), impr))
                   else 0.0)]
             else b;
    if "viewthrough_rate" !in b && impr > 0.0 then h["viewthrough_rate" := Float(ViewthroughRate(b))] else h
  }

  /** The entries back-filled in order; the first failure ends the loop. */
  function EnsureEntries(s: seq<Dict>, p25: Option<real>): (r: Result<seq<Dict>, string>)
    requires forall i :: 0 <= i < |s| ==> Readable(s[i])
    ensures r.Ok? ==> |r.value| == |s| && forall i :: 0 <= i < |s| ==> EnsureEntry(s[i], p25) == Ok(r.value[i])
  {
    if s == [] then Ok([])
    else
      var init :- EnsureEntries(s[..|s| - 1], p25);
      var e :- EnsureEntry(s[|s| - 1], p25);
      EntriesExtend(s, p25, init, e);
      Ok(init + [e])
  }

  /** The entries filled so far, followed by the last one. */
  lemma EntriesExtend(s: seq<Dict>, p25: Option<real>, init: seq<Dict>, e: Dict)
    requires forall i :: 0 <= i < |s| ==> Readable(s[i])
    requires s != [] && |init| == |s| - 1 && EnsureEntry(s[|s| - 1], p25) == Ok(e)
    requires forall i :: 0 <= i < |s| - 1 ==> EnsureEntry(s[..|s| - 1][i], p25) == Ok(init[i])
    ensures forall i :: 0 <= i < |s| ==> EnsureEntry(s[i], p25) == Ok((init + [e])[i])
  {
    forall i | 0 <= i < |s| ensures EnsureEntry(s[i], p25) == Ok((init + [e])[i]) {
      if i < |s| - 1 {
        assert s[..|s| - 1][i] == s[i];
      }
    }
  }

  /** The loop fails exactly when one of the entries reaches the unbound local. */
  lemma {:induction false} EnsureEntriesFails(s: seq<Dict>, p25: Option<real>)
    requires forall i :: 0 <= i < |s| ==> Readable(s[i])
    ensures EnsureEntries(s, p25).Err? <==> exists i :: 0 <= i < |s| && HitsUnboundP25(s[i], p25)
    decreases |s|
  {
    if s != [] {
      var n := |s| - 1;
      EnsureEntriesFails(s[..n], p25);
      if exists i :: 0 <= i < n && HitsUnboundP25(s[..n][i], p25) {
        var i :| 0 <= i < n && HitsUnboundP25(s[..n][i], p25);
        assert s[i] == s[..n][i];
      }
      if exists i :: 0 <= i < |s| && HitsUnboundP25(s[i], p25) {
        var i :| 0 <= i < |s| && HitsUnboundP25(s[i], p25);
        if i < n {
          assert s[..n][i] == s[i];
        }
      }
    }
  }

  /** The entries of a breakdown list all hold the required metrics and kept every value they had. */
  ghost predicate EntriesFilled(before: Option<seq<Dict>>, after: Option<seq<Dict>>) {
    (before.Some? <==> after.Some?)
    && (before.Some? ==>
          |after.value| == |before.value|
          && forall i :: 0 <= i < |before.value| ==>
               RequiredSet <= after.value[i].Keys
               && forall k :: k in before.value[i] ==> k in after.value[i] && after.value[i][k] == before.value[i][k])
  }

  /**
   * The back-filled record: the four required metrics are present in the
   * top-level metrics and in every age_gender and platform entry, no value
   * that was already there has changed, and nothing else is touched.
   */
  ghost predicate DataFilled(d: AdData, e: AdData) {
    e.others == d.others && e.creative == d.creative
    && (d.metrics.Some? <==> e.metrics.Some?)
    && (d.metrics.Some? ==>
          RequiredSet <= e.metrics.value.Keys
          && forall k :: k in d.metrics.value ==> k in e.metrics.value && e.metrics.value[k] == d.metrics.value[k])
    && (d.breakdowns.Some? <==> e.breakdowns.Some?)
    && (d.breakdowns.Some? ==>
          EntriesFilled(d.breakdowns.value.ageGender, e.breakdowns.value.ageGender)
          && EntriesFilled(d.breakdowns.value.platform, e.breakdowns.value.platform)
          && e.breakdowns.value.others == d.breakdowns.value.others)
  }

  function EnsureList(o: Option<seq<Dict>>, p25: Option<real>): (r: Result<Option<seq<Dict>>, string>)
    requires EntriesReadable(o)
    ensures r.Ok? ==> EntriesFilled(o, r.value) && EntriesReadable(r.value)
  {
    if o.None? then Ok(None)
    else
      var e :- EnsureEntries(o.value, p25);
      Ok(Some(e))
  }

  /** `_ensure_required_metrics` on one analysed ad. */
  function EnsureRequired(ad: AnalyzedAd): (r: Result<AnalyzedAd, string>)
    requires AdReadable(ad)
    ensures r.Ok? ==> AdReadable(r.value) && r.value.others == ad.others && r.value.analysisResult == ad.analysisResult
    ensures r.Ok? ==> (ad.adData.None? <==> r.value.adData.None?)
    ensures r.Ok? && ad.adData.Some? ==> DataFilled(ad.adData.value, r.value.adData.value)
  {
    if ad.adData.None? then Ok(ad)
    else
      var d := ad.adData.value;
      var metrics := if d.metrics.Some? then Some(EnsureTop(d.metrics.value)) else None;
      var p25 := if d.metrics.Some? then TopP25(d.metrics.value) else None;
      if d.breakdowns.None? then Ok(ad.(adData := Some(d.(metrics := metrics))))
      else
        var age :- EnsureList(d.breakdowns.value.ageGender, p25);
        var platform :- EnsureList(d.breakdowns.value.platform, p25);
        Ok(ad.(adData := Some(d.(metrics := metrics,
                                breakdowns := Some(d.breakdowns.value.(ageGender := age, platform := platform))))))
  }

  /**
   * `_ensure_required_metrics` raises exactly when some breakdown entry
   * lacks a hook rate, has positive impressions and positive video views,
   * while the top-level metrics did not bind `video_p25`.
   */
  lemma EnsureRequiredFails(ad: AnalyzedAd)
    requires AdReadable(ad) && ad.adData.Some? && ad.adData.value.breakdowns.Some?
    ensures var d := ad.adData.value; var b := d.breakdowns.value;
      var p25 := if d.metrics.Some? then TopP25(d.metrics.value) else None;
      EnsureRequired(ad).Err? <==>
        (b.ageGender.Some? && exists i :: 0 <= i < |b.ageGender.value| && HitsUnboundP25(b.ageGender.value[i], p25))
        || (b.platform.Some? && exists i :: 0 <= i < |b.platform.value| && HitsUnboundP25(b.platform.value[i], p25))
  {
    var d := ad.adData.value;
    var b := d.breakdowns.value;
    var p25 := if d.metrics.Some? then TopP25(d.metrics.value) else None;
    if b.ageGender.Some? {
      EnsureEntriesFails(b.ageGender.value, p25);
    }
    if b.platform.Some? {
      EnsureEntriesFails(b.platform.value, p25);
    }
  }

  /** Back-fills the entries of one breakdown list, one at a time. */
  method EnsureEntriesInPlace(s: seq<Dict>, p25: Option<real>) returns (r: Result<seq<Dict>, string>)
    requires forall i :: 0 <= i < |s| ==> Readable(s[i])
    ensures r == EnsureEntries(s, p25)
  {
    var done: seq<Dict> := [];
    for i := 0 to |s|
      invariant EnsureEntries(s[..i], p25) == Ok(done)
    {
      var e := EnsureEntry(s[i], p25);
      if e.Err? {
        EnsureEntriesStop(s, p25, i);
        return e.PropagateFailure();
      }
      EnsureEntriesStep(s, p25, i, done);
      done := done + [e.value];
    }
    assert s[..|s|] == s;
    return Ok(done);
  }

  /** One more entry back-filled extends the result by that entry. */
  lemma EnsureEntriesStep(s: seq<Dict>, p25: Option<real>, i: nat, done: seq<Dict>)
    requires forall j :: 0 <= j < |s| ==> Readable(s[j])
    requires i < |s| && EnsureEntries(s[..i], p25) == Ok(done) && EnsureEntry(s[i], p25).Ok?
    ensures EnsureEntries(s[..i + 1], p25) == Ok(done + [EnsureEntry(s[i], p25).value])
  {
    assert s[..i + 1][..i] == s[..i];
  }

  /** A failure at entry i fails the whole loop with the same error. */
  lemma {:induction false} EnsureEntriesStop(s: seq<Dict>, p25: Option<real>, i: nat)
    requires forall j :: 0 <= j < |s| ==> Readable(s[j])
    requires i < |s| && EnsureEntries(s[..i], p25).Ok? && EnsureEntry(s[i], p25).Err?
    ensures EnsureEntries(s, p25) == Err(EnsureEntry(s[i], p25).error)
    decreases |s| - i
  {
    assert s[..i + 1][..i] == s[..i];
    assert EnsureEntries(s[..i + 1], p25) == Err(EnsureEntry(s[i], p25).error);
    PrefixErrStays(s, p25, i + 1);
  }

  /** Once a prefix fails, every longer prefix fails with the same error. */
  lemma {:induction false} PrefixErrStays(s: seq<Dict>, p25: Option<real>, n: nat)
    requires forall j :: 0 <= j < |s| ==> Readable(s[j])
    requires n <= |s| && EnsureEntries(s[..n], p25).Err?
    ensures EnsureEntries(s, p25) == EnsureEntries(s[..n], p25)
    decreases |s| - n
  {
    if n < |s| {
      assert s[..n + 1][..n] == s[..n];
      PrefixErrStays(s, p25, n + 1);
    } else {
      assert s[..n] == s;
    }
  }

  /** `_ensure_required_metrics`, breakdown list by breakdown list. */
  method EnsureRequiredMetrics(ad: AnalyzedAd) returns (r: Result<AnalyzedAd, string>)
    requires AdReadable(ad)
    ensures r == EnsureRequired(ad)
  {
    if ad.adData.None? {
      return Ok(ad);
    }
    var d := ad.adData.value;
    var metrics := if d.metrics.Some? then Some(EnsureTop(d.metrics.value)) else None;
    var p25 := if d.metrics.Some? then TopP25(d.metrics.value) else None;
    if d.breakdowns.None? {
      return Ok(ad.(adData := Some(d.(metrics := metrics))));
    }
    var b := d.breakdowns.value;
    var age := b.ageGender;
    if age.Some? {
      var e := EnsureEntriesInPlace(age.value, p25);
      if e.Err? {
        return e.PropagateFailure();
      }
      age := Some(e.value);
    }
    var platform := b.platform;
    if platform.Some? {
      var e := EnsureEntriesInPlace(platform.value, p25);
      if e.Err? {
        return e.PropagateFailure();
      }
      platform := Some(e.value);
    }
    return Ok(ad.(adData := Some(d.(metrics := metrics, breakdowns := Some(b.(ageGender := age, platform := platform))))));
  }

  // ---- _filter_fields_for_json ----

  /** The top-level rates recomputed, overwriting old values, when impressions are positive. */
  function RecomputeTop(m: Dict): (r: Dict)
    requires TopReadable(m)
    ensures SameOutside(m, r, RateKeys)
  {
    if Num(m, "impressions") > 0.0
    then m["hook_rate" := Float(HookRate(m))]["viewthrough_rate" := Float(ViewthroughRate(m))]
    else m
  }

  /** The sanitised top-level metrics: rates recomputed, listed keys dropped, required keys filled, floats rounded. */
  function CleanMetrics(m: Dict): Dict
    requires TopReadable(m)
  {
    Rounded(FillFrom(Dropped(RecomputeTop(m), MetricsDenylist), RequiredMetrics), RateKeys)
  }

  /** A breakdown rate without a video dictionary: the unrounded percentage, or the integer 0. */
  function RawRate(b: Dict, k: string): Value
    requires Readable(b) && Num(b, "impressions") > 0.0 && NumOk(b, k)
  {
    if Num(b, k) > 0.0 then Float(Pct(Num(b, k), Num(b, "impressions"))) else Int(0)
  }

  /** The rates of one breakdown entry recomputed when its impressions are positive. */
  function RecomputeEntry(b: Dict): (r: Dict)
    requires Readable(b)
    ensures SameOutside(b, r, RateKeys)
  {
    if Num(b, "impressions") <= 0.0 then b
    else if "video" in b && b["video"].Dict?
    then b["hook_rate" := Float(HookRate(b))]["viewthrough_rate" := Float(ViewthroughRate(b))]
    else b["hook_rate" := RawRate(b, "video_3_sec_views")]["viewthrough_rate" := RawRate(b, "video_p100_watched")]
  }

  function RecomputeAll(s: seq<Dict>): (r: seq<Dict>)
    requires forall i :: 0 <= i < |s| ==> Readable(s[i])
  {
    seq(|s|, i requires 0 <= i < |s| => RecomputeEntry(s[i]))
  }

  /** The required keys filled and the floats outside `keep` rounded, entry by entry. */
  function CleanAll(s: seq<Dict>, keep: set<string>): (r: seq<Dict>)
  {
    seq(|s|, i requires 0 <= i < |s| => Rounded(FillFrom(s[i], RequiredMetrics), keep))
  }

  /**
   * The breakdown passes. The age_gender rounding pass sits inside the
   * platform check, so it runs only when there is a platform breakdown,
   * and then Python raises when there is no age_gender breakdown.
   */
  function CleanBreakdowns(b: Breakdowns): Result<Breakdowns, string>
    requires EntriesReadable(b.ageGender) && EntriesReadable(b.platform)
  {
    var age := if b.ageGender.Some? then Some(RecomputeAll(b.ageGender.value)) else None;
    var platform := if b.platform.Some? then Some(RecomputeAll(b.platform.value)) else None;
    if platform.None? then Ok(b.(ageGender := age))
    else if age.None? then Err("age_gender breakdown missing")
    else Ok(b.(ageGender := Some(CleanAll(age.value, AgeGenderKeep)),
               platform := Some(CleanAll(platform.value, PlatformKeep))))
  }

  /** One record as `_filter_fields_for_json` leaves its deep copy. */
  function FilterAd(ad: AnalyzedAd): (r: Result<AnalyzedAd, string>)
    requires AdReadable(ad)
    ensures r.Ok? ==> r.value.others == ad.others && r.value.analysisResult == ad.analysisResult
    ensures r.Ok? ==> (r.value.adData.Some? <==> ad.adData.Some?)
    ensures r.Ok? && ad.adData.Some? ==> r.value.adData.value.others == ad.adData.value.others
    ensures EnsureRequired(ad).Err? ==> r.Err?
  {
    var e :- EnsureRequired(ad);
    if e.adData.None? then Ok(e)
    else
      var d := e.adData.value;
      var metrics := if d.metrics.Some? then Some(CleanMetrics(d.metrics.value)) else None;
      var creative := if d.creative.Some? then Some(Dropped(d.creative.value, CreativeDenylist)) else None;
      if d.breakdowns.None? then Ok(e.(adData := Some(d.(metrics := metrics, creative := creative))))
      else
        var b :- CleanBreakdowns(d.breakdowns.value);
        Ok(e.(adData := Some(d.(metrics := metrics, breakdowns := Some(b), creative := creative))))
  }

  /** Every record filtered, in order; the first failure fails the whole call. */
  function FilterAll(ads: seq<AnalyzedAd>): (r: Result<seq<AnalyzedAd>, string>)
    requires forall i :: 0 <= i < |ads| ==> AdReadable(ads[i])
    ensures r.Ok? ==> |r.value| == |ads| && forall i :: 0 <= i < |ads| ==> FilterAd(ads[i]) == Ok(r.value[i])
    ensures r.Err? <==> exists i :: 0 <= i < |ads| && FilterAd(ads[i]).Err?
    decreases |ads|
  {
    if ads == [] then Ok([])
    else
      var head := FilterAd(ads[0]);
      var tail := FilterAll(ads[1..]);
      assert forall i :: 1 <= i < |ads| ==> ads[i] == ads[1..][i - 1];
      if head.Err? then head.PropagateFailure()
      else if tail.Err? then
        assert exists i :: 0 <= i < |ads| && FilterAd(ads[i]).Err? by {
          var j :| 0 <= j < |ads[1..]| && FilterAd(ads[1..][j]).Err?;
          assert ads[j + 1] == ads[1..][j];
        }
        tail.PropagateFailure()
      else Ok([head.value] + tail.value)
  }

  /** No required metric is on the deny list. */
  lemma RequiredNotDenied()
    ensures forall k :: k in RequiredSet ==> k !in MetricsDenylist
  {
    assert "hook_rate" !in MetricsDenylist;
    assert "viewthrough_rate" !in MetricsDenylist;
    assert "cpc" !in MetricsDenylist;
    assert "click_to_reg" !in MetricsDenylist;
  }

  /** The keys of the metrics filter's output: those that came in or are required, less the listed ones. */
  lemma CleanMetricsKeys(m: Dict)
    requires TopReadable(m)
    ensures forall k :: k in CleanMetrics(EnsureTop(m)) <==> (k in m || k in RequiredSet) && k !in MetricsDenylist
  {
    var e := EnsureTop(m);
    var t := RecomputeTop(e);
    assert t.Keys == m.Keys + RequiredSet;
    FilledKeys(t);
    RoundedMeaning(FillFrom(Dropped(t, MetricsDenylist), RequiredMetrics), RateKeys);
  }

  /** Dropping the denied keys and filling the required ones. */
  lemma FilledKeys(t: Dict)
    ensures forall k :: k in FillFrom(Dropped(t, MetricsDenylist), RequiredMetrics) <==>
                          (k in t || k in RequiredSet) && k !in MetricsDenylist
  {
    var dr := Dropped(t, MetricsDenylist);
    assert forall k :: k in dr <==> k in t && k !in MetricsDenylist;
    assert (set k | k in RequiredMetrics) == RequiredSet;
    RequiredNotDenied();
  }

  /** Every float in the output other than the two rates is already at 2 places. */
  lemma CleanMetricsRounded(m: Dict)
    requires TopReadable(m)
    ensures var out := CleanMetrics(m);
      forall k :: k in out && k !in RateKeys && out[k].Float? ==> Round2(out[k].f) == out[k].f
  {
    var f := FillFrom(Dropped(RecomputeTop(m), MetricsDenylist), RequiredMetrics);
    RoundedMeaning(f, RateKeys);
  }

  /** Integers and non-numbers that came in, and are neither listed nor a rate, come out unchanged. */
  lemma CleanMetricsKeepsOthers(m: Dict)
    requires TopReadable(m)
    ensures var out := CleanMetrics(EnsureTop(m));
      forall k :: k in m && k !in MetricsDenylist && k !in RateKeys && !m[k].Float? ==> k in out && out[k] == m[k]
  {
    var e := EnsureTop(m);
    var f := FillFrom(Dropped(RecomputeTop(e), MetricsDenylist), RequiredMetrics);
    RoundedMeaning(f, RateKeys);
  }

  /** With positive impressions the output rates are the recomputed ones, from the metrics as they came in. */
  lemma CleanMetricsRates(m: Dict)
    requires TopReadable(m) && Num(m, "impressions") > 0.0
    ensures var out := CleanMetrics(EnsureTop(m));
      "hook_rate" in out && "viewthrough_rate" in out
      && out["hook_rate"] == Float(HookRate(m)) && out["viewthrough_rate"] == Float(ViewthroughRate(m))
  {
    var e := EnsureTop(m);
    ReadableOutside(m, e);
    var t := RecomputeTop(e);
    assert t["hook_rate"] == Float(HookRate(m)) && t["viewthrough_rate"] == Float(ViewthroughRate(m)) by {
      assert HookRate(e) == HookRate(m) && ViewthroughRate(e) == ViewthroughRate(m);
    }
    var dr := Dropped(t, MetricsDenylist);
    assert dr["hook_rate"] == t["hook_rate"] && dr["viewthrough_rate"] == t["viewthrough_rate"] by {
      RequiredNotDenied();
    }
    var f := FillFrom(dr, RequiredMetrics);
    assert f["hook_rate"] == dr["hook_rate"] && f["viewthrough_rate"] == dr["viewthrough_rate"];
    assert "hook_rate" in RateKeys && "viewthrough_rate" in RateKeys;
    RoundedMeaning(f, RateKeys);
  }

  /** Of the creative fields only the listed ones go; every other one survives unchanged. */
  lemma CreativeMeaning(c: Dict)
    ensures forall k :: k in Dropped(c, CreativeDenylist) <==> k in c && k !in CreativeDenylist
    ensures forall k :: k in Dropped(c, CreativeDenylist) ==> Dropped(c, CreativeDenylist)[k] == c[k]
  {
  }

  /** A platform breakdown without an age_gender one makes the filter raise. */
  lemma PlatformWithoutAgeGenderFails(ad: AnalyzedAd)
    requires AdReadable(ad) && EnsureRequired(ad).Ok? && ad.adData.Some? && ad.adData.value.breakdowns.Some?
    requires ad.adData.value.breakdowns.value.platform.Some? && ad.adData.value.breakdowns.value.ageGender.None?
    ensures FilterAd(ad).Err?
  {
    var e := EnsureRequired(ad).value;
    assert e.adData.value.breakdowns.value.ageGender.None?;
  }

  /** Without a platform breakdown the age_gender entries get their rates recomputed but are neither filled nor rounded. */
  lemma AgeGenderUnroundedWithoutPlatform(ad: AnalyzedAd)
    requires AdReadable(ad) && EnsureRequired(ad).Ok? && ad.adData.Some? && ad.adData.value.breakdowns.Some?
    requires ad.adData.value.breakdowns.value.platform.None? && ad.adData.value.breakdowns.value.ageGender.Some?
    ensures var e := EnsureRequired(ad).value.adData.value.breakdowns.value;
      FilterAd(ad).Ok?
      && FilterAd(ad).value.adData.value.breakdowns.value.ageGender == Some(RecomputeAll(e.ageGender.value))
  {
  }

  /** Sanitises each entry of one breakdown list, in order. */
  method CleanEntries(s: seq<Dict>, keep: set<string>) returns (r: seq<Dict>)
    ensures r == CleanAll(s, keep)
  {
    r := [];
    for i := 0 to |s|
      invariant r == CleanAll(s[..i], keep)
    {
      var filled := FillRequired(s[i]);
      var rounded := RoundFloats(filled, keep);
      r := r + [rounded];
    }
    assert s[..|s|] == s;
  }

  /** `_filter_fields_for_json` on one deep copy. */
  method FilterOne(ad: AnalyzedAd) returns (r: Result<AnalyzedAd, string>)
    requires AdReadable(ad)
    ensures r == FilterAd(ad)
  {
    var e := EnsureRequiredMetrics(ad);
    if e.Err? {
      return e.PropagateFailure();
    }
    var copy := e.value;
    if copy.adData.None? {
      return Ok(copy);
    }
    var d := copy.adData.value;
    var metrics := d.metrics;
    if metrics.Some? {
      var m := RecomputeTop(metrics.value);
      m := DropFields(m, MetricsDenylist);
      m := FillRequired(m);
      m := RoundFloats(m, RateKeys);
      metrics := Some(m);
    }
    var breakdowns := d.breakdowns;
    if breakdowns.Some? {
      var b := breakdowns.value;
      var age := if b.ageGender.Some? then Some(RecomputeAll(b.ageGender.value)) else None;
      var platform := if b.platform.Some? then Some(RecomputeAll(b.platform.value)) else None;
      if platform.Some? {
        if age.None? {
          return Err("age_gender breakdown missing");
        }
        var cleanAge := CleanEntries(age.value, AgeGenderKeep);
        var cleanPlatform := CleanEntries(platform.value, PlatformKeep);
        age, platform := Some(cleanAge), Some(cleanPlatform);
      }
      breakdowns := Some(b.(ageGender := age, platform := platform));
    }
    var creative := d.creative;
    if creative.Some? {
      var c := DropFields(creative.value, CreativeDenylist);
      creative := Some(c);
    }
    return Ok(copy.(adData := Some(d.(metrics := metrics, breakdowns := breakdowns, creative := creative))));
  }

  /** `_filter_fields_for_json`: one sanitised copy per input record, in order. */
  method FilterFieldsForJson(ads: seq<AnalyzedAd>) returns (r: Result<seq<AnalyzedAd>, string>)
    requires forall i :: 0 <= i < |ads| ==> AdReadable(ads[i])
    ensures r == FilterAll(ads)
  {
    var done: seq<AnalyzedAd> := [];
    assert ads[0..] == ads;
    ThenEmpty(FilterAll(ads));
    for i := 0 to |ads|
      invariant FilterAll(ads) == Then(done, FilterAll(ads[i..]))
    {
      var f := FilterOne(ads[i]);
      FilterAllStep(ads, i);
      if f.Err? {
        return f.PropagateFailure();
      }
      ThenAppend(done, f.value, FilterAll(ads[i + 1..]));
      done := done + [f.value];
    }
    assert ads[|ads|..] == [];
    assert done + [] == done;
    return Ok(done);
  }

  /** Filtering from record i on is filtering record i, then the rest. */
  lemma FilterAllStep(ads: seq<AnalyzedAd>, i: nat)
    requires forall j :: 0 <= j < |ads| ==> AdReadable(ads[j])
    requires i < |ads|
    ensures FilterAll(ads[i..]) ==
              if FilterAd(ads[i]).Err? then Err(FilterAd(ads[i]).error)
              else Then([FilterAd(ads[i]).value], FilterAll(ads[i + 1..]))
  {
    assert ads[i..][0] == ads[i] && ads[i..][1..] == ads[i + 1..];
  }

  /** `done` followed by the rest of the results, or the failure of the rest. */
  function Then<T>(done: seq<T>, rest: Result<seq<T>, string>): Result<seq<T>, string> {
    if rest.Ok? then Ok(done + rest.value) else rest
  }

  lemma ThenEmpty<T>(rest: Result<seq<T>, string>)
    ensures Then([], rest) == rest
  {
    if rest.Ok? {
      assert [] + rest.value == rest.value;
    }
  }

  lemma ThenAppend<T>(done: seq<T>, x: T, rest: Result<seq<T>, string>)
    ensures Then(done, Then([x], rest)) == Then(done + [x], rest)
  {
    if rest.Ok? {
      assert done + ([x] + rest.value) == done + [x] + rest.value;
    }
  }

  // ---- _prepare_dashboard_summary ----

  /** One entry of the top and bottom performer lists. */
  datatype Performer = Performer(adId: Value, adName: Value, score: real)

  datatype DashboardSummary = DashboardSummary(date: string, adsAnalyzed: nat, avgScore: real,
                                               topPerformers: seq<Performer>, bottomPerformers: seq<Performer>)

  /** The analysis result holds a readable score: benchmark_comparison, when there, a dictionary with a numeric score. */
  predicate ScoreReadable(ad: AnalyzedAd) {
    ad.analysisResult.Some? ==>
      var a := ad.analysisResult.value;
      "benchmark_comparison" in a ==>
        a["benchmark_comparison"].Dict? && NumOk(a["benchmark_comparison"].fields, "overall_performance_score")
  }

  /** `analysis_result.get("benchmark_comparison", {}).get("overall_performance_score", 0)` */
  function ScoreOf(ad: AnalyzedAd): real
    requires ScoreReadable(ad) && ad.analysisResult.Some?
  {
    var a := ad.analysisResult.value;
    if "benchmark_comparison" in a then Num(a["benchmark_comparison"].fields, "overall_performance_score") else 0.0
  }

  /** The scores of the ads that have an analysis result, in order. */
  function Scores(ads: seq<AnalyzedAd>): seq<real>
    requires forall i :: 0 <= i < |ads| ==> ScoreReadable(ads[i])
  {
    if ads == [] then []
    else
      var last := ads[|ads| - 1];
      Scores(ads[..|ads| - 1]) + (if last.analysisResult.Some? then [ScoreOf(last)] else [])
  }

  /** The performer entries of the ads that have both ad data and an analysis result, in order. */
  function Performers(ads: seq<AnalyzedAd>): seq<Performer>
    requires forall i :: 0 <= i < |ads| ==> ScoreReadable(ads[i])
  {
    if ads == [] then []
    else
      var last := ads[|ads| - 1];
      Performers(ads[..|ads| - 1])
      + (if last.adData.Some? && last.analysisResult.Some?
         then [Performer(Get(last.adData.value.others, "ad_id", Str("unknown")),
                         Get(last.adData.value.others, "ad_name", Str("Unknown Ad")), ScoreOf(last))]
         else [])
  }

  /** `sum(s) / len(s) if s else 0` */
  function Mean(s: seq<real>): real {
    if s == [] then 0.0 else SumReals(s) / |s| as real
  }

  function ScoreKey(p: Performer): real { p.score }
  function NegatedScore(p: Performer): real { -p.score }

  /** `_prepare_dashboard_summary`, with today's date passed in. */
  function PrepareDashboardSummary(ads: seq<AnalyzedAd>, today: string): DashboardSummary
    requires forall i :: 0 <= i < |ads| ==> ScoreReadable(ads[i])
  {
    DashboardSummary(today, |ads|, Mean(Scores(ads)),
                     MetaClient.Take(SortDesc(Performers(ads), ScoreKey), 5),
                     MetaClient.Take(SortDesc(Performers(ads), NegatedScore), 5))
  }

  lemma {:induction false} SumBounds(s: seq<real>, lo: real, hi: real)
    requires forall i :: 0 <= i < |s| ==> lo <= s[i] <= hi
    ensures |s| as real * lo <= SumReals(s) <= |s| as real * hi
    decreases |s|
  {
    if s != [] {
      SumBounds(s[..|s| - 1], lo, hi);
      assert s[|s| - 1] == s[|s| - 1];
    }
  }

  /** The average lies between any lower and upper bound of the scores. */
  lemma MeanBounds(s: seq<real>, lo: real, hi: real)
    requires s != [] && forall i :: 0 <= i < |s| ==> lo <= s[i] <= hi
    ensures lo <= Mean(s) <= hi
  {
    SumBounds(s, lo, hi);
    assert Mean(s) == SumReals(s) / |s| as real;
    DivBetween(SumReals(s), |s| as real, lo, hi);
  }

  lemma DivBetween(x: real, n: real, lo: real, hi: real)
    requires n > 0.0 && n * lo <= x <= n * hi
    ensures lo <= x / n <= hi
  {
    var m := x / n;
    assert (m - lo) * n == x - n * lo;
    assert (hi - m) * n == n * hi - x;
  }

  /**
   * The top list has at most five performers, best first, and none of
   * the performers left out scores higher than any of them.
   */
  lemma TopPerformersRanked(ads: seq<AnalyzedAd>, today: string)
    requires forall i :: 0 <= i < |ads| ==> ScoreReadable(ads[i])
    ensures var t := PrepareDashboardSummary(ads, today).topPerformers; var p := Performers(ads);
      |t| == (if |p| < 5 then |p| else 5)
      && multiset(t) <= multiset(p)
      && (forall i, j :: 0 <= i < j < |t| ==> t[i].score >= t[j].score)
      && (forall q, x :: q in t && x in multiset(p) - multiset(t) ==> q.score >= x.score)
  {
    var p := Performers(ads);
    assert PrepareDashboardSummary(ads, today).topPerformers == MetaClient.Take(SortDesc(p, ScoreKey), 5);
    SortDescCorrect(p, ScoreKey);
    TopOfSorted(SortDesc(p, ScoreKey), ScoreKey);
  }

  /**
   * The bottom list has at most five performers, worst first, and none
   * of the performers left out scores lower than any of them.
   */
  lemma BottomPerformersRanked(ads: seq<AnalyzedAd>, today: string)
    requires forall i :: 0 <= i < |ads| ==> ScoreReadable(ads[i])
    ensures var t := PrepareDashboardSummary(ads, today).bottomPerformers; var p := Performers(ads);
      |t| == (if |p| < 5 then |p| else 5)
      && multiset(t) <= multiset(p)
      && (forall i, j :: 0 <= i < j < |t| ==> t[i].score <= t[j].score)
      && (forall q, x :: q in t && x in multiset(p) - multiset(t) ==> q.score <= x.score)
  {
    var p := Performers(ads);
    var s := SortDesc(p, NegatedScore);
    var t := MetaClient.Take(s, 5);
    assert PrepareDashboardSummary(ads, today).bottomPerformers == t;
    SortDescCorrect(p, NegatedScore);
    TopOfSorted(s, NegatedScore);
    forall i, j | 0 <= i < j < |t| ensures t[i].score <= t[j].score {
      assert t[i] == s[i] && t[j] == s[j];
      assert NegatedScore(s[i]) >= NegatedScore(s[j]);
    }
    forall q, x | q in t && x in multiset(p) - multiset(t) ensures q.score <= x.score {
      assert NegatedScore(q) >= NegatedScore(x);
    }
  }

  /** The first five of a sorted list rank at least as high as all the others. */
  lemma TopOfSorted(s: seq<Performer>, key: Performer -> real)
    requires SortedDesc(s, key)
    ensures var t := MetaClient.Take(s, 5);
      multiset(t) <= multiset(s)
      && forall q, x :: q in t && x in multiset(s) - multiset(t) ==> key(q) >= key(x)
  {
    var t := MetaClient.Take(s, 5);
    var rest := s[|t|..];
    assert s == t + rest;
    assert multiset(s) - multiset(t) == multiset(rest);
    forall q, x | q in t && x in multiset(s) - multiset(t)
      ensures key(q) >= key(x)
    {
      var i :| 0 <= i < |t| && t[i] == q;
      assert x in rest;
      var j :| 0 <= j < |rest| && rest[j] == x;
      assert s[i] == q && s[|t| + j] == x;
    }
  }

  // ---- _complete_run ----

  predicate IsZero(v: Value) {
    IsNumber(v) && NumberOf(v) == 0.0
  }

  /** The run statistics whose counters, when present, are integers. */
  predicate CountersOk(stats: Dict) {
    ("success_count" in stats ==> stats["success_count"].Int?) && ("error_count" in stats ==> stats["error_count"].Int?)
  }

  function Count(stats: Dict, k: string): int
    requires k in stats ==> stats[k].Int?
  {
    if k in stats then stats[k].i else 0
  }

  /**
   * `_complete_run`: the duration rounded to 2 places is recorded, and a
   * missing or zero ad_count becomes success_count + error_count.
   */
  function CompleteRun(stats: Dict, duration: real): (r: Dict)
    requires CountersOk(stats)
    ensures r.Keys == stats.Keys + {"run_duration_seconds", "ad_count"}
    ensures r["run_duration_seconds"] == Float(Round2(duration))
    ensures ("ad_count" !in stats || IsZero(stats["ad_count"])) ==>
              r["ad_count"] == Int(Count(stats, "success_count") + Count(stats, "error_count"))
    ensures "ad_count" in stats && !IsZero(stats["ad_count"]) ==> r["ad_count"] == stats["ad_count"]
    ensures forall k :: k in stats && k != "run_duration_seconds" && k != "ad_count" ==> r[k] == stats[k]
  {
    var timed := stats["run_duration_seconds" := Float(Round2(duration))];
    if "ad_count" !in stats || IsZero(stats["ad_count"])
    then timed["ad_count" := Int(Count(stats, "success_count") + Count(stats, "error_count"))]
    else timed
  }

  /** After completion the ad count is zero only when no ad succeeded or failed; a second completion keeps it. */
  lemma CompleteRunCount(stats: Dict, duration: real, later: real)
    requires CountersOk(stats)
    ensures IsZero(CompleteRun(stats, duration)["ad_count"]) ==>
              Count(stats, "success_count") + Count(stats, "error_count") == 0
    ensures CountersOk(CompleteRun(stats, duration))
    ensures CompleteRun(CompleteRun(stats, duration), later)["ad_count"] == CompleteRun(stats, duration)["ad_count"]
  {
    var r := CompleteRun(stats, duration);
    assert Count(r, "success_count") == Count(stats, "success_count");
    assert Count(r, "error_count") == Count(stats, "error_count");
  }
}
