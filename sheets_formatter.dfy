/*
 * SheetsFormatter of src/sheets_formatter.py: one display row per
 * analysed ad (`format_ad_data_for_sheets`), the formula and formatted
 * text cells added to it (`create_sheets_formulas`), and the fixed
 * 14-column grid with its header (`format_for_sheets_api`).
 *
 * The three steps are always chained in this order, so the rows between
 * them are typed records rather than free-form dictionaries.
 */
module SheetsFormatting {
  import opened Common
  import opened Dates
  import Pipeline

  // ---- reading the analysed ad ----

  /** An age_gender row: numeric conversions, cpr and ctr, textual gender and age. */
  predicate SegmentReadable(d: Dict) {
    Pipeline.NumOk(d, "conversions") && Pipeline.NumOk(d, "cpr") && Pipeline.NumOk(d, "ctr")
    && ("gender" in d ==> d["gender"].Str?) && ("age" in d ==> d["age"].Str?)
  }

  /** The metrics the formatter reads as numbers hold numbers. */
  predicate MetricsReadable(m: Dict) {
    Pipeline.NumOk(m, "spend") && Pipeline.NumOk(m, "impressions") && Pipeline.NumOk(m, "clicks")
    && Pipeline.NumOk(m, "ctr") && Pipeline.NumOk(m, "cpm") && Pipeline.NumOk(m, "cpc")
    && Pipeline.NumOk(m, "hook_rate") && Pipeline.NumOk(m, "viewthrough_rate")
    && Pipeline.NumOk(m, "cpr") && Pipeline.NumOk(m, "cpa") && Pipeline.NumOk(m, "conversions")
    && Pipeline.NumOk(m, "video_3_sec_views") && Pipeline.NumOk(m, "video_p100_watched")
    && Pipeline.NumOk(Pipeline.Video(m), "p25") && Pipeline.NumOk(Pipeline.Video(m), "p100")
  }

  /** `ad_info`: falsy when it is an empty dictionary. */
  predicate InfoPresent(d: Option<Pipeline.AdData>) {
    d.Some? && (d.value.metrics.Some? || d.value.breakdowns.Some? || d.value.creative.Some? || d.value.others != map[])
  }

  predicate AnalysisPresent(a: Option<Dict>) {
    a.Some? && a.value != map[]
  }

  function MetricsOf(d: Pipeline.AdData): Dict {
    if d.metrics.Some? then d.metrics.value else map[]
  }

  function CreativeOf(d: Pipeline.AdData): Dict {
    if d.creative.Some? then d.creative.value else map[]
  }

  /** What the formatter needs of an analysed ad it does not skip. */
  predicate EntryReadable(ad: Pipeline.AnalyzedAd) {
    InfoPresent(ad.adData) && AnalysisPresent(ad.analysisResult) ==>
      var d := ad.adData.value;
      var a := ad.analysisResult.value;
      MetricsReadable(MetricsOf(d))
      && ("created_time" in d.others ==> d.others["created_time"].Str?)
      && ("ad_name" in d.others ==> d.others["ad_name"].Str?)
      && ("video_url" in CreativeOf(d) ==> CreativeOf(d)["video_url"].Str?)
      && ("image_url" in CreativeOf(d) ==> CreativeOf(d)["image_url"].Str?)
      && (d.breakdowns.Some? && d.breakdowns.value.ageGender.Some? ==>
            forall x :: x in d.breakdowns.value.ageGender.value ==> SegmentReadable(x))
      && ("benchmark_comparison" in a ==>
            a["benchmark_comparison"].Dict? && Pipeline.NumOk(a["benchmark_comparison"].fields, "overall_performance_score"))
      && ("insights" in a ==> a["insights"].Dict? && SummaryReadable(a["insights"].fields))
  }

  /** A truthy insights summary is a list of texts. */
  predicate SummaryReadable(insights: Dict) {
    "summary" in insights && Truthy(insights["summary"]) ==>
      insights["summary"].List? && forall i :: 0 <= i < |insights["summary"].items| ==> insights["summary"].items[i].Str?
  }

  function Text(d: Dict, k: string, dflt: string): string
    requires k in d ==> d[k].Str?
  {
    if k in d then d[k].s else dflt
  }

  // ---- format_ad_data_for_sheets ----

  /** One display row, before the formula cells are added. */
  datatype FormattedAd = FormattedAd(
    launched: string, adName: string, adLink: string, creativeAngle: string, status: string, action: string,
    spend: Value, impressions: Value, clicks: Value, conversions: Value,
    ctr: Value, cpm: Value, cpc: Value, hookRate: Value, viewthroughRate: Value, ctrDestination: Value,
    cprValue: Value, cprPercentChange: int, demographics: seq<string>, aiAnalysis: seq<string>)

  /** `created_time` rewritten from YYYY-MM-DD to MM/DD/YYYY when it has a 'T' and its date part parses. */
  function Launched(created: string): string {
    if created != "" && 'T' in created then
      match ParseDate(DatePart(created))
      case Some(d) => FormatUsDate(d)
      case None => created
    else created
  }

  /** A timestamp written from a date and a time keeps the date, in US order. */
  lemma LaunchedFromTimestamp(d: Date, time: string)
    requires Dates.Valid(d)
    ensures Launched(FormatDate(d) + "T" + time) == FormatUsDate(d)
  {
    var s := FormatDate(d) + "T" + time;
    assert 'T' !in FormatDate(d) by {
      forall i | 0 <= i < |FormatDate(d)| ensures FormatDate(d)[i] != 'T' {
        assert FormatDate(d)[i] == '-' || IsDigit(FormatDate(d)[i]);
      }
    }
    assert s == FormatDate(d) + ("T" + time);
    assert s[|FormatDate(d)|] == 'T';
    assert 'T' in s;
    DatePartPrefix(FormatDate(d), "T" + time);
    ParseFormatRoundTrip(d);
  }

  /** The date part of a 'T'-free text followed by "T..." is that text. */
  lemma {:induction false} DatePartPrefix(a: string, b: string)
    requires 'T' !in a && b != [] && b[0] == 'T'
    ensures DatePart(a + b) == a
    decreases |a|
  {
    if a == [] {
      assert a + b == b;
    } else {
      assert (a + b)[1..] == a[1..] + b;
      DatePartPrefix(a[1..], b);
    }
  }

  /** The status and the action for a performance score. */
  function StatusAction(score: real): (r: (string, string))
  {
    if score >= 20.0 then ("Winning", "Scale")
    else if score <= -20.0 then ("Losing", "Stop")
    else ("Average", "Monitor")
  }

  /** Each status goes with exactly one range of scores. */
  lemma StatusActionRanges(score: real)
    ensures StatusAction(score).0 == "Winning" <==> score >= 20.0
    ensures StatusAction(score).0 == "Losing" <==> score <= -20.0
    ensures StatusAction(score).0 == "Average" <==> -20.0 < score < 20.0
    ensures StatusAction(score).1 == (if score >= 20.0 then "Scale" else if score <= -20.0 then "Stop" else "Monitor")
  {
    assert "Winning" != "Losing" && "Winning" != "Average" && "Losing" != "Average";
  }

  function Score(a: Dict): real
    requires "benchmark_comparison" in a ==>
      a["benchmark_comparison"].Dict? && Pipeline.NumOk(a["benchmark_comparison"].fields, "overall_performance_score")
  {
    if "benchmark_comparison" in a then Num(a["benchmark_comparison"].fields, "overall_performance_score") else 0.0
  }

  /** `m.get(k, 0)` */
  function Raw(m: Dict, k: string): Value {
    Get(m, k, Int(0))
  }

  /** `metrics.get("cpr", 0) or metrics.get("cpa", 0)` */
  function CprValue(m: Dict): (r: Value)
    ensures Truthy(Raw(m, "cpr")) ==> r == Raw(m, "cpr")
    ensures !Truthy(Raw(m, "cpr")) ==> r == Raw(m, "cpa")
  {
    if Truthy(Raw(m, "cpr")) then Raw(m, "cpr") else Raw(m, "cpa")
  }

  /** ctr: when it is 0 and impressions and clicks are positive, clicks per impression as a fraction. */
  function CtrCell(m: Dict): Value
    requires MetricsReadable(m)
  {
    if Num(m, "ctr") == 0.0 && Num(m, "impressions") > 0.0 && Num(m, "clicks") > 0.0
    then Float(Num(m, "clicks") / Num(m, "impressions"))
    else Raw(m, "ctr")
  }

  /** cpm: when it is 0 and impressions are positive, spend per thousand impressions. */
  function CpmCell(m: Dict): Value
    requires MetricsReadable(m)
  {
    if Num(m, "cpm") == 0.0 && Num(m, "impressions") > 0.0
    then Float(Num(m, "spend") / Num(m, "impressions") * 1000.0)
    else Raw(m, "cpm")
  }

  /** cpc: when it is 0 and clicks are positive, spend per click. */
  function CpcCell(m: Dict): Value
    requires MetricsReadable(m)
  {
    if Num(m, "cpc") == 0.0 && Num(m, "clicks") > 0.0
    then Float(Num(m, "spend") / Num(m, "clicks"))
    else Raw(m, "cpc")
  }

  /**
   * A video rate when the stored one is 0: from the nested video count
   * when there is a video dictionary (the direct count is then not
   * consulted), else from the direct count; rounded to 2 places.
   */
  function VideoRateCell(m: Dict, rate: string, nested: string, direct: string): Value
    requires MetricsReadable(m)
    requires (rate == "hook_rate" && nested == "p25" && direct == "video_3_sec_views")
          || (rate == "viewthrough_rate" && nested == "p100" && direct == "video_p100_watched")
  {
    var impressions := Num(m, "impressions");
    if Num(m, rate) != 0.0 then Raw(m, rate)
    else if "video" in m && m["video"].Dict? then
      if impressions > 0.0 && Num(Pipeline.Video(m), nested) > 0.0
      then Float(Round2(Num(Pipeline.Video(m), nested) / impressions * 100.0))
      else Raw(m, rate)
    else if direct in m && impressions > 0.0 && Num(m, direct) > 0.0
    then Float(Round2(Num(m, direct) / impressions * 100.0))
    else Raw(m, rate)
  }

  /** The fallbacks apply only where the stored value is 0: a non-zero value is always kept. */
  lemma FallbacksOnlyReplaceZero(m: Dict)
    requires MetricsReadable(m)
    ensures Num(m, "ctr") != 0.0 ==> CtrCell(m) == Raw(m, "ctr")
    ensures Num(m, "cpm") != 0.0 ==> CpmCell(m) == Raw(m, "cpm")
    ensures Num(m, "cpc") != 0.0 ==> CpcCell(m) == Raw(m, "cpc")
    ensures Num(m, "hook_rate") != 0.0 ==> VideoRateCell(m, "hook_rate", "p25", "video_3_sec_views") == Raw(m, "hook_rate")
    ensures Num(m, "viewthrough_rate") != 0.0 ==>
              VideoRateCell(m, "viewthrough_rate", "p100", "video_p100_watched") == Raw(m, "viewthrough_rate")
    ensures Num(m, "impressions") <= 0.0 ==> CpmCell(m) == Raw(m, "cpm")
    ensures Num(m, "clicks") <= 0.0 ==> CpcCell(m) == Raw(m, "cpc") && CtrCell(m) == Raw(m, "ctr")
  {
  }

  function Ctr(d: Dict): real
    requires SegmentReadable(d)
  {
    Num(d, "ctr")
  }

  function Conversions(d: Dict): real
    requires SegmentReadable(d)
  {
    Num(d, "conversions")
  }

  /** `sorted(convertors, key=lambda x: x.get("cpr", float("inf")))[0]`: x's key is below y's. */
  predicate CprBelow(x: Dict, y: Dict)
    requires SegmentReadable(x) && SegmentReadable(y)
  {
    "cpr" in x && ("cpr" !in y || Num(x, "cpr") < Num(y, "cpr"))
  }

  /** The first row with the lowest cpr, a missing cpr counting as infinite. */
  function LowestCpr(s: seq<Dict>): (r: Dict)
    requires s != [] && forall x :: x in s ==> SegmentReadable(x)
    ensures r in s && SegmentReadable(r)
    ensures forall i :: 0 <= i < |s| ==> !CprBelow(s[i], r)
    ensures exists i :: 0 <= i < |s| && s[i] == r && forall j :: 0 <= j < i ==> CprBelow(r, s[j])
  {
    if |s| == 1 then s[0]
    else
      var b := LowestCpr(s[..|s| - 1]);
      var x := s[|s| - 1];
      if CprBelow(x, b) then x else b
  }

  /** The first row with the highest ctr (0 when missing): `sorted(..., reverse=True)[0]`. */
  function HighestCtr(s: seq<Dict>): (r: Dict)
    requires s != [] && forall x :: x in s ==> SegmentReadable(x)
    ensures r in s && SegmentReadable(r)
    ensures forall i :: 0 <= i < |s| ==> Ctr(s[i]) <= Ctr(r)
    ensures exists i :: 0 <= i < |s| && s[i] == r && forall j :: 0 <= j < i ==> Ctr(s[j]) < Ctr(r)
  {
    if |s| == 1 then s[0]
    else
      var b := HighestCtr(s[..|s| - 1]);
      var x := s[|s| - 1];
      if Ctr(x) > Ctr(b) then x else b
  }

  /** The rows with conversions above 0, in order. */
  function Convertors(s: seq<Dict>): (r: seq<Dict>)
    requires forall x :: x in s ==> SegmentReadable(x)
    ensures forall i :: 0 <= i < |r| ==> r[i] in s && Conversions(r[i]) > 0.0
    ensures forall i :: 0 <= i < |s| && Conversions(s[i]) > 0.0 ==> s[i] in r
  {
    if s == [] then []
    else
      var init := Convertors(s[..|s| - 1]);
      var x := s[|s| - 1];
      init + (if Conversions(x) > 0.0 then [x] else [])
  }

  /** The demographic sentences of one ad; never empty. */
  function Demographics(b: Option<Pipeline.Breakdowns>): (r: seq<string>)
    requires b.Some? && b.value.ageGender.Some? ==>
      forall x :: x in b.value.ageGender.value ==> SegmentReadable(x)
    ensures r != []
  {
    var found :=
      if b.Some? && b.value.ageGender.Some? && b.value.ageGender.value != [] then
        var rows := b.value.ageGender.value;
        var convertors := Convertors(rows);
        var strong :=
          if convertors != [] then
            var best := LowestCpr(convertors);
            ["Strong performance with " + Text(best, "gender", "Unknown") + " " + Text(best, "age", "18-65") + "."]
          else [];
        var engaged := HighestCtr(rows);
        strong + (if engaged != map[]
                  then ["Consistent engagement from " + Text(engaged, "gender", "Unknown") + " " + Text(engaged, "age", "18-65") + "."]
                  else [])
      else [];
    if found == [] then ["No significant demographic patterns identified."] else found
  }

  /** The AI analysis lines: the insights summary when it is truthy, else one placeholder; never empty. */
  function AiAnalysis(a: Dict): (r: seq<string>)
    requires "insights" in a ==> a["insights"].Dict? && SummaryReadable(a["insights"].fields)
    ensures r != []
  {
    var summary :=
      if "insights" in a && "summary" in a["insights"].fields && Truthy(a["insights"].fields["summary"])
      then var items := a["insights"].fields["summary"].items; seq(|items|, i requires 0 <= i < |items| => items[i].s)
      else [];
    if summary == [] then ["Awaiting AI analysis."] else summary
  }

  /** `creative.get("video_url") or creative.get("image_url") or ""` */
  function AdLink(c: Dict): string
    requires "video_url" in c ==> c["video_url"].Str?
    requires "image_url" in c ==> c["image_url"].Str?
  {
    if Text(c, "video_url", "") != "" then Text(c, "video_url", "")
    else Text(c, "image_url", "")
  }

  /** The display row of one analysed ad, or nothing when its ad data or analysis is empty. */
  function FormatEntry(ad: Pipeline.AnalyzedAd): (r: Option<FormattedAd>)
    requires EntryReadable(ad)
    ensures r.Some? <==> InfoPresent(ad.adData) && AnalysisPresent(ad.analysisResult)
    ensures r.Some? ==> r.value.demographics != [] && r.value.aiAnalysis != []
    ensures r.Some? ==> (r.value.status, r.value.action) == StatusAction(Score(ad.analysisResult.value))
    ensures r.Some? ==> r.value.cprValue == CprValue(MetricsOf(ad.adData.value)) && r.value.cprPercentChange == 0
    ensures r.Some? ==> Numeric(r.value)
  {
    if !InfoPresent(ad.adData) || !AnalysisPresent(ad.analysisResult) then None
    else
      var d := ad.adData.value;
      var a := ad.analysisResult.value;
      var m := MetricsOf(d);
      var sa := StatusAction(Score(a));
      Some(FormattedAd(
        Launched(Text(d.others, "created_time", "")), Text(d.others, "ad_name", ""), AdLink(CreativeOf(d)),
        "Unknown", sa.0, sa.1,
        Raw(m, "spend"), Raw(m, "impressions"), Raw(m, "clicks"), Raw(m, "conversions"),
        CtrCell(m), CpmCell(m), CpcCell(m),
        VideoRateCell(m, "hook_rate", "p25", "video_3_sec_views"),
        VideoRateCell(m, "viewthrough_rate", "p100", "video_p100_watched"),
        Raw(m, "ctr_destination"), CprValue(m), 0, Demographics(d.breakdowns), AiAnalysis(a)))
  }

  /** The present values, in order. */
  function Present<T>(s: seq<Option<T>>): (r: seq<T>)
    ensures |r| <= |s|
    ensures forall j :: 0 <= j < |r| ==> Some(r[j]) in s
  {
    if s == [] then []
    else Present(s[..|s| - 1]) + (if s[|s| - 1].Some? then [s[|s| - 1].value] else [])
  }

  /** With nothing missing, every value is kept in its place. */
  lemma {:induction false} PresentComplete<T>(s: seq<Option<T>>)
    requires forall i :: 0 <= i < |s| ==> s[i].Some?
    ensures |Present(s)| == |s|
    ensures forall i :: 0 <= i < |s| ==> Present(s)[i] == s[i].value
    decreases |s|
  {
    if s != [] {
      PresentComplete(s[..|s| - 1]);
    }
  }

  /** With everything missing, nothing is kept. */
  lemma {:induction false} PresentNone<T>(s: seq<Option<T>>)
    requires forall i :: 0 <= i < |s| ==> s[i].None?
    ensures Present(s) == []
    decreases |s|
  {
    if s != [] {
      PresentNone(s[..|s| - 1]);
    }
  }

  function Entries(ads: seq<Pipeline.AnalyzedAd>): (r: seq<Option<FormattedAd>>)
    requires forall i :: 0 <= i < |ads| ==> EntryReadable(ads[i])
    ensures |r| == |ads| && forall i :: 0 <= i < |ads| ==> r[i] == FormatEntry(ads[i])
  {
    seq(|ads|, i requires 0 <= i < |ads| && EntryReadable(ads[i]) => FormatEntry(ads[i]))
  }

  /** The display rows of the ads not skipped, in input order. */
  function FormatAll(ads: seq<Pipeline.AnalyzedAd>): (r: seq<FormattedAd>)
    requires forall i :: 0 <= i < |ads| ==> EntryReadable(ads[i])
  {
    Present(Entries(ads))
  }

  /** Every row is the display row of one of the ads. */
  lemma FormatAllFrom(ads: seq<Pipeline.AnalyzedAd>)
    requires forall i :: 0 <= i < |ads| ==> EntryReadable(ads[i])
    ensures |FormatAll(ads)| <= |ads|
    ensures forall j :: 0 <= j < |FormatAll(ads)| ==> exists i :: 0 <= i < |ads| && FormatEntry(ads[i]) == Some(FormatAll(ads)[j])
  {
    var e := Entries(ads);
    forall j | 0 <= j < |FormatAll(ads)|
      ensures exists i :: 0 <= i < |ads| && FormatEntry(ads[i]) == Some(FormatAll(ads)[j])
    {
      var i :| 0 <= i < |e| && e[i] == Some(FormatAll(ads)[j]);
    }
  }

  /** With no ad skipped, row i is ad i's display row. */
  lemma FormatAllComplete(ads: seq<Pipeline.AnalyzedAd>)
    requires forall i :: 0 <= i < |ads| ==> EntryReadable(ads[i]) && FormatEntry(ads[i]).Some?
    ensures |FormatAll(ads)| == |ads|
    ensures forall i :: 0 <= i < |ads| ==> FormatAll(ads)[i] == FormatEntry(ads[i]).value
  {
    PresentComplete(Entries(ads));
  }

  /** With every ad skipped, there are no rows. */
  lemma FormatAllNone(ads: seq<Pipeline.AnalyzedAd>)
    requires forall i :: 0 <= i < |ads| ==> EntryReadable(ads[i]) && FormatEntry(ads[i]).None?
    ensures FormatAll(ads) == []
  {
    PresentNone(Entries(ads));
  }

  /** Every display row holds numbers where the formula step reads them. */
  lemma FormatAllNumeric(ads: seq<Pipeline.AnalyzedAd>)
    requires forall i :: 0 <= i < |ads| ==> EntryReadable(ads[i])
    ensures forall j :: 0 <= j < |FormatAll(ads)| ==> Numeric(FormatAll(ads)[j])
  {
    FormatAllFrom(ads);
  }

  /** `format_ad_data_for_sheets` */
  method FormatAdDataForSheets(ads: seq<Pipeline.AnalyzedAd>) returns (r: seq<FormattedAd>)
    requires forall i :: 0 <= i < |ads| ==> EntryReadable(ads[i])
    ensures r == FormatAll(ads)
  {
    r := [];
    for i := 0 to |ads|
      invariant r == Present(Entries(ads)[..i])
    {
      assert Entries(ads)[..i + 1][..i] == Entries(ads)[..i];
      var e := FormatEntry(ads[i]);
      if e.None? {
        continue;
      }
      r := r + [e.value];
    }
    assert Entries(ads)[..|ads|] == Entries(ads);
  }

  // ---- number text ----

  /** A natural number in decimal, without leading zeros. */
  function NatText(n: nat): (s: string)
    ensures s != [] && AllDigits(s)
    ensures DigitsValue(s) == n
  {
    if n < 10 then [DigitChar(n)]
    else
      var s := NatText(n / 10) + [DigitChar(n % 10)];
      assert s[..|s| - 1] == NatText(n / 10);
      s
  }

  /** `f"{x:.2f}"` on the exact value: half-even rounding to cents, a leading '-' when negative. */
  function Fixed2(x: real): (s: string)
  {
    var n := RoundHalfEven(x * 100.0);
    var a := if n < 0 then -n else n;
    (if n < 0 then "-" else "") + NatText(a / 100) + "." + Digits(a % 100, 2)
  }

  /** The text reads back as the value rounded to cents: whole part, '.', two digits. */
  lemma Fixed2Reads(x: real)
    requires x >= 0.0
    ensures var s := Fixed2(x);
      |s| >= 4 && s[|s| - 3] == '.' && AllDigits(s[..|s| - 3]) && AllDigits(s[|s| - 2..])
      && (DigitsValue(s[..|s| - 3]) * 100 + DigitsValue(s[|s| - 2..])) as real / 100.0 == Round2(x)
  {
    var n := RoundHalfEven(x * 100.0);
    assert n >= 0;
    var s := Fixed2(x);
    assert s == NatText(n / 100) + "." + Digits(n % 100, 2);
    assert s[..|s| - 3] == NatText(n / 100);
    assert s[|s| - 2..] == Digits(n % 100, 2);
    DigitsRoundTrip(n % 100, 2);
  }

  function Money(x: real): string { "£" + Fixed2(x) }
  function Percent(x: real): string { Fixed2(x) + "%" }

  // ---- create_sheets_formulas ----

  /** A display row with its formula and text cells; the row it came from is kept whole. */
  datatype SheetsAd = SheetsAd(
    ad: FormattedAd, adNameFormula: string, spendFormatted: string, cpmFormatted: string, cpcFormatted: string,
    cprFormatted: string, ctrFormatted: string, hookRateFormatted: string, viewthroughRateFormatted: string,
    demographicsFormatted: string, aiAnalysisFormatted: string)

  /** A HYPERLINK formula when there is a link, else the plain name. */
  function NameFormula(link: string, name: string): (r: string)
    ensures link == "" ==> r == name
    ensures link != "" ==> r == "=HYPERLINK(\"" + link + "\", \"" + name + "\")"
  {
    if link != "" then "=HYPERLINK(\"" + link + "\", \"" + name + "\")" else name
  }

  /** The items as "• item" lines joined by newlines. */
  function Bullets(items: seq<string>): (r: string)
  {
    Join(seq(|items|, i requires 0 <= i < |items| => "• " + items[i]), "\n")
  }

  /** Every bulleted list of at least one item starts with a bullet. */
  lemma BulletsStart(items: seq<string>)
    requires items != []
    ensures |Bullets(items)| >= 2 && Bullets(items)[..2] == "• "
  {
    var parts := seq(|items|, i requires 0 <= i < |items| => "• " + items[i]);
    JoinStartsWithFirst(parts, "\n");
    assert parts[0][..2] == "• ";
  }

  lemma JoinStartsWithFirst(parts: seq<string>, sep: string)
    requires parts != []
    ensures parts[0] <= Join(parts, sep)
  {
  }

  function NumberOr0(v: Value): real {
    if IsNumber(v) then NumberOf(v) else 0.0
  }

  predicate Numeric(f: FormattedAd) {
    IsNumber(f.spend) && IsNumber(f.impressions) && IsNumber(f.clicks) && IsNumber(f.cpm) && IsNumber(f.cpc)
    && IsNumber(f.cprValue) && IsNumber(f.ctr) && IsNumber(f.hookRate) && IsNumber(f.viewthroughRate)
  }

  /**
   * The formula and text cells of one row. Every number cell of a display
   * row holds a number (FormatAllNumeric), so reading a non-number as 0
   * never applies to the rows create_sheets_formulas receives.
   */
  function SheetsRow(f: FormattedAd): (r: SheetsAd)
    ensures r.ad == f
    ensures r.adNameFormula == NameFormula(f.adLink, f.adName)
  {
    var spend := NumberOr0(f.spend);
    var cpm := if NumberOr0(f.cpm) == 0.0 && NumberOr0(f.impressions) > 0.0
               then spend / NumberOr0(f.impressions) * 1000.0 else NumberOr0(f.cpm);
    var cpc := if NumberOr0(f.cpc) == 0.0 && NumberOr0(f.clicks) > 0.0
               then spend / NumberOr0(f.clicks) else NumberOr0(f.cpc);
    var cpr := if Truthy(f.cprValue) then NumberOr0(f.cprValue) else 0.0;
    SheetsAd(f, NameFormula(f.adLink, f.adName), Money(spend), Money(cpm), Money(cpc), Money(cpr),
             Percent(NumberOr0(f.ctr)), Percent(NumberOr0(f.hookRate)), Percent(NumberOr0(f.viewthroughRate)),
             Bullets(f.demographics), Bullets(f.aiAnalysis))
  }

  /** `create_sheets_formulas`: one row per display row, built from that row, in the same order. */
  method CreateSheetsFormulas(ads: seq<FormattedAd>) returns (r: seq<SheetsAd>)
    ensures r == Map(ads, SheetsRow)
    ensures |r| == |ads| && forall i :: 0 <= i < |ads| ==> r[i] == SheetsRow(ads[i])
  {
    r := [];
    for i := 0 to |ads|
      invariant r == Map(ads[..i], SheetsRow)
    {
      MapStep(ads, SheetsRow, i);
      r := r + [SheetsRow(ads[i])];
    }
    assert ads[..|ads|] == ads;
    MapAt(ads, SheetsRow);
  }

  // ---- format_for_sheets_api ----

  const Header: seq<string> :=
    ["Launch Date", "Ad Name", "Creative Angle", "Status", "Action", "Spend", "CPM", "Hook Rate",
     "VT Rate", "CTR", "CPC", "CPR", "Demographics", "AI Analysis"]

  /** The 14 cells of one row, in column order. */
  function Cells(s: SheetsAd): (r: seq<string>)
    ensures |r| == |Header| == 14
  {
    [s.ad.launched, s.adNameFormula, s.ad.creativeAngle, s.ad.status, s.ad.action, s.spendFormatted,
     s.cpmFormatted, s.hookRateFormatted, s.viewthroughRateFormatted, s.ctrFormatted, s.cpcFormatted,
     s.cprFormatted, s.demographicsFormatted, s.aiAnalysisFormatted]
  }

  /** The grid for the Sheets API: the header, then one row of 14 cells per ad. */
  function Grid(ads: seq<SheetsAd>): (rows: seq<seq<string>>)
    ensures |rows| == |ads| + 1 && rows[0] == Header
    ensures forall i :: 0 <= i < |rows| ==> |rows[i]| == 14
    ensures forall i :: 0 <= i < |ads| ==> rows[i + 1] == Cells(ads[i])
  {
    [Header] + seq(|ads|, i requires 0 <= i < |ads| => Cells(ads[i]))
  }

  /** `format_for_sheets_api` */
  method FormatForSheetsApi(ads: seq<SheetsAd>) returns (rows: seq<seq<string>>)
    ensures rows == Grid(ads)
    ensures |rows| == |ads| + 1 && rows[0] == Header
    ensures forall i :: 0 <= i < |rows| ==> |rows[i]| == 14
    ensures forall i :: 0 <= i < |ads| ==> rows[i + 1] == Cells(ads[i])
  {
    rows := [Header];
    for i := 0 to |ads|
      invariant |rows| == i + 1 && rows[0] == Header
      invariant forall j :: 0 <= j < |rows| ==> |rows[j]| == 14
      invariant forall j :: 0 <= j < i ==> rows[j + 1] == Cells(ads[j])
    {
      rows := rows + [Cells(ads[i])];
    }
    assert rows == Grid(ads);
  }
}
