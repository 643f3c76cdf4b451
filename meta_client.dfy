/*
 * The state and the selection logic of MetaApiClient in
 * src/meta_api_client.py: account resolution in __init__, the
 * rate-limit rule of _make_api_request, the ad-discovery count of
 * _handle_pagination, the two-stage filter of find_eligible_ads, the
 * exact-date filter of get_eligible_ads, the status/limit filter of
 * get_any_recent_ads and the creative clean-up of
 * get_ad_creative_details. Every HTTP reply and the clock are inputs.
 */
module MetaClient {
  import opened Common
  import opened Dates
  import opened Sorting

  /** The account used for GBR when no account is configured. */
  const DemoAccountId: string := "1042125899190941"

  /** The wait between requests never goes below two seconds. */
  const MinWait: real := 2.0

  /** Ads are queried for spend fifty at a time. */
  const BatchSize: nat := 50

  // ---- construction ----

  /** The explicit account, else the region's configured one, else the demo account for GBR. */
  function ResolveAccountId(region: string, explicitId: string, accounts: map<string, string>): (r: string)
    ensures explicitId != "" ==> r == explicitId
    ensures explicitId == "" && region in accounts && accounts[region] != "" ==> r == accounts[region]
    ensures r == "" <==> explicitId == "" && (region !in accounts || accounts[region] == "") && region != "GBR"
  {
    var id := if explicitId != "" then explicitId else if region in accounts then accounts[region] else "";
    if id == "" && region == "GBR" then DemoAccountId else id
  }

  /** The ValueError of `__init__`: an account and a token are both needed. */
  predicate HasCredentials(region: string, explicitId: string, accounts: map<string, string>, token: string) {
    ResolveAccountId(region, explicitId, accounts) != "" && token != ""
  }

  // ---- the rate-limit rule ----

  /** What one request got back: its status and what its text says. */
  datatype Reply = Reply(status: int, limitReached: bool, permissionDenied: bool)

  /** One try of a request: the clock when it starts and the reply it gets. */
  datatype Attempt = Attempt(now: real, reply: Reply)

  /** A 429, or a body saying the user request limit was reached: wait longer and retry. */
  predicate Limited(r: Reply) {
    r.status == 429 || r.limitReached
  }

  function Max(a: real, b: real): real {
    if a >= b then a else b
  }

  /** The wait after one reply. */
  function NextWait(w: real, r: Reply): real {
    if Limited(r) then w * 2.0
    else if r.status == 200 then Max(MinWait, w / 1.5)
    else w
  }

  /** The wait after a run of replies. */
  function WaitAfter(w: real, attempts: seq<Attempt>): real {
    if attempts == [] then w
    else NextWait(WaitAfter(w, attempts[..|attempts| - 1]), attempts[|attempts| - 1].reply)
  }

  /** The wait never drops below two seconds. */
  lemma {:induction false} WaitStaysAboveMin(w: real, attempts: seq<Attempt>)
    requires w >= MinWait
    ensures WaitAfter(w, attempts) >= MinWait
    decreases |attempts|
  {
    if attempts != [] {
      WaitStaysAboveMin(w, attempts[..|attempts| - 1]);
    }
  }

  function Pow(b: real, n: nat): (r: real)
    requires b >= 1.0
    ensures r >= 1.0
  {
    if n == 0 then 1.0 else b * Pow(b, n - 1)
  }

  /** Every limit reply doubles the wait. */
  lemma {:induction false} LimitsDouble(w: real, attempts: seq<Attempt>)
    requires forall i :: 0 <= i < |attempts| ==> Limited(attempts[i].reply)
    ensures WaitAfter(w, attempts) == w * Pow(2.0, |attempts|)
    decreases |attempts|
  {
    if attempts != [] {
      var n := |attempts| - 1;
      LimitsDouble(w, attempts[..n]);
      assert WaitAfter(w, attempts) == w * Pow(2.0, n) * 2.0;
    }
  }

  /** Successes shrink the wait by a factor 1.5 each, down to two seconds. */
  lemma {:induction false} SuccessesRecover(w: real, attempts: seq<Attempt>)
    requires w >= MinWait
    requires forall i :: 0 <= i < |attempts| ==> attempts[i].reply.status == 200 && !attempts[i].reply.limitReached
    ensures WaitAfter(w, attempts) == Max(MinWait, w / Pow(1.5, |attempts|))
    decreases |attempts|
  {
    if attempts != [] {
      var n := |attempts| - 1;
      SuccessesRecover(w, attempts[..n]);
      var p := Pow(1.5, n);
      var q := w / p;
      assert WaitAfter(w, attempts[..n]) == Max(MinWait, q);
      assert w / Pow(1.5, n + 1) == q / 1.5;
      if q < MinWait {
        assert Max(MinWait, q) / 1.5 < MinWait;
        assert q / 1.5 < MinWait;
      }
    }
  }

  /** How a request ended. */
  datatype Outcome =
    | Answered(attempt: nat)       // the 200 reply at that attempt
    | VideoFallback(attempt: nat)  // a permission error on a video or creative URL: empty video lists
    | Failed(attempt: nat, status: int)
    | Exhausted                    // every reply given was a limit reply

  /** The first attempt from i on whose reply is not a limit reply decides. */
  function OutcomeFrom(attempts: seq<Attempt>, mediaUrl: bool, i: nat): (o: Outcome)
    requires i <= |attempts|
    ensures o.Exhausted? <==> forall j :: i <= j < |attempts| ==> Limited(attempts[j].reply)
    ensures !o.Exhausted? ==> i <= o.attempt < |attempts| && !Limited(attempts[o.attempt].reply)
                              && forall j :: i <= j < o.attempt ==> Limited(attempts[j].reply)
    decreases |attempts| - i
  {
    if i == |attempts| then Exhausted
    else
      var r := attempts[i].reply;
      if Limited(r) then OutcomeFrom(attempts, mediaUrl, i + 1)
      else if r.status == 200 then Answered(i)
      else if r.permissionDenied && mediaUrl then VideoFallback(i)
      else Failed(i, r.status)
  }

  /** How many attempts an outcome used up. */
  function Used(o: Outcome, n: nat): nat {
    if o.Exhausted? then n else o.attempt + 1
  }

  /** The time `_make_api_request` sleeps before a request so that `wait` seconds separate it from the last one. */
  function ThrottleSleep(now: real, last: real, wait: real): (s: real)
    requires wait >= 0.0
    ensures s >= 0.0
    ensures now + s >= last + wait
    ensures now - last >= wait ==> s == 0.0
  {
    if now - last < wait then wait - (now - last) else 0.0
  }

  /** The throttle's state: the wait between requests and the time of the last one. */
  datatype Throttling = Throttling(wait: real, last: real)

  /**
   * The throttle after a run of tries: each try is recorded at the later
   * of its own clock and the last request plus the wait, and its reply
   * updates the wait.
   */
  function ThrottleAfter(t: Throttling, attempts: seq<Attempt>): Throttling {
    if attempts == [] then t
    else
      var p := ThrottleAfter(t, attempts[..|attempts| - 1]);
      var a := attempts[|attempts| - 1];
      Throttling(NextWait(p.wait, a.reply), Max(a.now, p.last + p.wait))
  }

  /** One more try extends the throttle by that try. */
  lemma ThrottleStep(t: Throttling, attempts: seq<Attempt>, i: nat)
    requires i < |attempts|
    ensures var p := ThrottleAfter(t, attempts[..i]);
            ThrottleAfter(t, attempts[..i + 1])
            == Throttling(NextWait(p.wait, attempts[i].reply), Max(attempts[i].now, p.last + p.wait))
  {
    assert attempts[..i + 1][..i] == attempts[..i];
  }

  /** The throttle's wait follows the rate-limit rule. */
  lemma {:induction false} ThrottleWaitFollowsRule(t: Throttling, attempts: seq<Attempt>)
    ensures ThrottleAfter(t, attempts).wait == WaitAfter(t.wait, attempts)
    decreases |attempts|
  {
    if attempts != [] {
      ThrottleWaitFollowsRule(t, attempts[..|attempts| - 1]);
    }
  }

  /**
   * With a wait that is not negative, the recorded request time never
   * goes back, and every try is recorded no earlier than it starts.
   */
  lemma {:induction false} ClockOnlyAdvances(t: Throttling, attempts: seq<Attempt>)
    requires t.wait >= 0.0
    ensures ThrottleAfter(t, attempts).wait >= 0.0
    ensures ThrottleAfter(t, attempts).last >= t.last
    ensures forall i :: 0 <= i < |attempts| ==> ThrottleAfter(t, attempts).last >= attempts[i].now
    decreases |attempts|
  {
    if attempts != [] {
      var n := |attempts| - 1;
      ClockOnlyAdvances(t, attempts[..n]);
      assert forall i :: 0 <= i < n ==> attempts[i] == attempts[..n][i];
    }
  }

  /** The items of a first page and of the following pages up to the first one that did not answer 200. */
  function PagedItems<T>(first: seq<T>, next: seq<(int, seq<T>)>): seq<T>
    decreases |next|
  {
    if next == [] then first
    else if next[0].0 != 200 then first
    else PagedItems(first + next[0].1, next[1..])
  }

  /**
   * One `_handle_pagination` call as its requests went: the tries of the
   * first request, the items of the first page when it answered, and the
   * status and items of each later page.
   */
  datatype Paging<T> = Paging(attempts: seq<Attempt>, first: seq<T>, next: seq<(int, seq<T>)>)

  /** The tries the first request used up (ads and insights URLs are not media URLs). */
  function Tried(attempts: seq<Attempt>): seq<Attempt> {
    attempts[..Used(OutcomeFrom(attempts, false, 0), |attempts|)]
  }

  /** What `_handle_pagination` returns: the items of its pages, or None when the first request raised. */
  function PagedResult<T>(p: Paging<T>): Option<seq<T>> {
    if OutcomeFrom(p.attempts, false, 0).Answered? then Some(PagedItems(p.first, p.next)) else None
  }

  function Flatten<T>(parts: seq<seq<T>>): seq<T> {
    if parts == [] then [] else Flatten(parts[..|parts| - 1]) + parts[|parts| - 1]
  }

  lemma {:induction false} FlattenAppend<T>(parts: seq<seq<T>>, p: seq<T>)
    ensures Flatten(parts + [p]) == Flatten(parts) + p
  {
    assert (parts + [p])[..|parts|] == parts;
  }

  // ---- ads and their filters ----

  /** An ad as the ads endpoint lists it (campaign and adset flattened). */
  datatype Ad = Ad(id: Option<string>, name: Option<string>,
                   campaignId: Option<string>, campaignName: Option<string>,
                   adsetId: Option<string>, adsetName: Option<string>,
                   createdTime: Option<string>, status: Option<string>, effectiveStatus: Option<string>)

  /** A `created_time` that is present and not empty. */
  predicate HasCreated(ad: Ad) {
    ad.createdTime.Some? && ad.createdTime.value != ""
  }

  /** The creation date: the date part of the timestamp, parsed. */
  function CreatedDate(ad: Ad): Option<Date>
    requires HasCreated(ad)
  {
    ParseDate(DatePart(ad.createdTime.value))
  }

  /** A creation time strptime rejects: find_eligible_ads gives up and returns []. */
  predicate Unparsable(ad: Ad) {
    HasCreated(ad) && CreatedDate(ad).None?
  }

  predicate AnyUnparsable(ads: seq<Ad>) {
    exists i :: 0 <= i < |ads| && Unparsable(ads[i])
  }

  predicate InList(x: Option<string>, l: seq<string>) {
    x.Some? && x.value in l
  }

  /**
   * The scope rule: no filter lets every ad through, one filter must
   * match, and with both the ad may match either.
   */
  predicate InScope(ad: Ad, adsets: seq<string>, campaigns: seq<string>) {
    if adsets == [] && campaigns == [] then true
    else if campaigns == [] then InList(ad.adsetId, adsets)
    else if adsets == [] then InList(ad.campaignId, campaigns)
    else InList(ad.adsetId, adsets) || InList(ad.campaignId, campaigns)
  }

  /** An ad old enough and in scope. */
  predicate PassesStage1(ad: Ad, cutoff: Date, adsets: seq<string>, campaigns: seq<string>) {
    HasCreated(ad) && CreatedDate(ad).Some? && AtOrBefore(CreatedDate(ad).value, cutoff)
    && InScope(ad, adsets, campaigns)
  }

  /** The ads of stage 1, in listing order. */
  function Stage1(ads: seq<Ad>, cutoff: Date, adsets: seq<string>, campaigns: seq<string>): seq<Ad> {
    if ads == [] then []
    else
      var last := ads[|ads| - 1];
      Stage1(ads[..|ads| - 1], cutoff, adsets, campaigns)
      + (if PassesStage1(last, cutoff, adsets, campaigns) then [last] else [])
  }

  /** Stage 1 keeps exactly the ads that pass it. */
  lemma {:induction false} Stage1Members(ads: seq<Ad>, cutoff: Date, adsets: seq<string>, campaigns: seq<string>, ad: Ad)
    ensures ad in Stage1(ads, cutoff, adsets, campaigns) <==> ad in ads && PassesStage1(ad, cutoff, adsets, campaigns)
    ensures |Stage1(ads, cutoff, adsets, campaigns)| <= |ads|
    decreases |ads|
  {
    if ads != [] {
      var n := |ads| - 1;
      Stage1Members(ads[..n], cutoff, adsets, campaigns, ad);
      assert ads == ads[..n] + [ads[n]];
    }
  }

  /** A spend row of the insights endpoint for the spend window. */
  datatype SpendRow = SpendRow(adId: Option<string>, adName: Option<string>,
                               campaignId: Option<string>, campaignName: Option<string>,
                               adsetId: Option<string>, adsetName: Option<string>, spend: Option<real>)

  /** `float(insight.get('spend', 0))` */
  function SpendOf(row: SpendRow): real {
    if row.spend.Some? then row.spend.value else 0.0
  }

  /**
   * The spend query of the b-th batch. A batch past the given queries
   * made one that got no reply at all, so it counts as failed.
   */
  function QueryAt(queries: seq<Paging<SpendRow>>, b: nat): Paging<SpendRow> {
    if b < |queries| then queries[b] else Paging([], [], [])
  }

  /** The rows the spend query of the b-th batch returned, all pages read; None where it raised. */
  function ReplyAt(queries: seq<Paging<SpendRow>>, b: nat): Option<seq<SpendRow>> {
    PagedResult(QueryAt(queries, b))
  }

  /** The spend queries of the first n batches all answered. */
  predicate AllAnswered(queries: seq<Paging<SpendRow>>, n: nat) {
    forall b :: 0 <= b < n ==> ReplyAt(queries, b).Some?
  }

  /** The answers of the first n batches respect the GREATER_THAN spend filter of the request. */
  predicate HonoursFilter(queries: seq<Paging<SpendRow>>, n: nat, minSpend: real) {
    forall b, r :: 0 <= b < n && ReplyAt(queries, b).Some? && r in ReplyAt(queries, b).value ==> SpendOf(r) > minSpend
  }

  /** The ads an ad listing found: none when it raised. */
  function Listed(listing: Paging<Ad>): seq<Ad> {
    if PagedResult(listing).Some? then PagedResult(listing).value else []
  }

  /**
   * The throttle after the spend queries of batches b to n - 1 in order,
   * up to and including the first one that raised.
   */
  function ThrottleAfterQueries(t: Throttling, queries: seq<Paging<SpendRow>>, b: nat, n: nat): Throttling
    decreases n - b
  {
    if b >= n then t
    else
      var u := ThrottleAfter(t, Tried(QueryAt(queries, b).attempts));
      if ReplyAt(queries, b).None? then u else ThrottleAfterQueries(u, queries, b + 1, n)
  }

  /** `next(ad for ad in batch if ad.get('id') == id)` */
  function FirstWithId(batch: seq<Ad>, id: Option<string>): (r: Option<Ad>)
    ensures r.Some? ==> r.value in batch && r.value.id == id
    ensures r.None? ==> forall i :: 0 <= i < |batch| ==> batch[i].id != id
  {
    if batch == [] then None
    else if batch[0].id == id then Some(batch[0])
    else FirstWithId(batch[1..], id)
  }

  /** An ad that met both criteria. */
  datatype EligibleAd = EligibleAd(adId: Option<string>, adName: Option<string>,
                                   campaignId: Option<string>, campaignName: Option<string>,
                                   adsetId: Option<string>, adsetName: Option<string>,
                                   createdTime: Option<string>, status: Option<string>, spend: real)

  /** Python's `a or b` on optional text. */
  function Or(a: Option<string>, b: Option<string>): Option<string> {
    if a.Some? && a.value != "" then a else b
  }

  /** The insight's fields, falling back on the listed ad's. */
  function EligibleOf(row: SpendRow, ad: Ad): EligibleAd {
    EligibleAd(row.adId, Or(row.adName, if ad.name.Some? then ad.name else Some("")),
               Or(row.campaignId, ad.campaignId), Or(row.campaignName, ad.campaignName),
               Or(row.adsetId, ad.adsetId), Or(row.adsetName, ad.adsetName),
               ad.createdTime, ad.status, SpendOf(row))
  }

  /** The answered rows with a matching ad in the batch, formatted, in answer order. */
  function Matched(batch: seq<Ad>, rows: seq<SpendRow>): seq<EligibleAd> {
    if rows == [] then []
    else
      var row := rows[|rows| - 1];
      var m := FirstWithId(batch, row.adId);
      Matched(batch, rows[..|rows| - 1]) + (if m.Some? then [EligibleOf(row, m.value)] else [])
  }

  /** The matched ads of every batch, batch after batch, when every spend query answered. */
  function Collected(batches: seq<seq<Ad>>, queries: seq<Paging<SpendRow>>): seq<EligibleAd>
    requires AllAnswered(queries, |batches|)
  {
    if batches == [] then []
    else
      var n := |batches| - 1;
      Collected(batches[..n], queries) + Matched(batches[n], ReplyAt(queries, n).value)
  }

  /**
   * Every collected ad spent strictly more than the minimum, provided
   * the endpoint honours the spend filter of the request.
   */
  lemma {:induction false} CollectedAboveMin(batches: seq<seq<Ad>>, queries: seq<Paging<SpendRow>>, minSpend: real)
    requires AllAnswered(queries, |batches|) && HonoursFilter(queries, |batches|, minSpend)
    ensures forall e :: e in Collected(batches, queries) ==> e.spend > minSpend
    decreases |batches|
  {
    if batches != [] {
      var n := |batches| - 1;
      CollectedAboveMin(batches[..n], queries, minSpend);
      MatchedAboveMin(batches[n], minSpend, ReplyAt(queries, n).value);
    }
  }

  lemma {:induction false} MatchedAboveMin(batch: seq<Ad>, minSpend: real, rows: seq<SpendRow>)
    requires forall r :: r in rows ==> SpendOf(r) > minSpend
    ensures forall e :: e in Matched(batch, rows) ==> e.spend > minSpend
    decreases |rows|
  {
    if rows != [] {
      MatchedAboveMin(batch, minSpend, rows[..|rows| - 1]);
    }
  }

  /**
   * Only listed ads become eligible, whatever the endpoint answers:
   * each collected ad carries the id, creation time and status of an
   * ad of the batches.
   */
  lemma {:induction false} CollectedFromBatches(batches: seq<seq<Ad>>, queries: seq<Paging<SpendRow>>)
    requires AllAnswered(queries, |batches|)
    ensures forall e :: e in Collected(batches, queries) ==>
              exists a :: a in Flatten(batches) && a.id == e.adId && a.createdTime == e.createdTime && a.status == e.status
    decreases |batches|
  {
    if batches != [] {
      var n := |batches| - 1;
      CollectedFromBatches(batches[..n], queries);
      MatchedFromBatch(batches[n], ReplyAt(queries, n).value);
      assert Flatten(batches) == Flatten(batches[..n]) + batches[n];
    }
  }

  lemma {:induction false} MatchedFromBatch(batch: seq<Ad>, rows: seq<SpendRow>)
    ensures forall e :: e in Matched(batch, rows) ==>
              exists a :: a in batch && a.id == e.adId && a.createdTime == e.createdTime && a.status == e.status
    decreases |rows|
  {
    if rows != [] {
      MatchedFromBatch(batch, rows[..|rows| - 1]);
    }
  }

  /** The sort key of the result: `x.get('spend', 0)`. */
  function SpendKey(e: EligibleAd): real {
    e.spend
  }

  /** The ads created exactly `days` days before today, in listing order. */
  function ExactDate(ads: seq<Ad>, target: string): seq<Ad> {
    if ads == [] then []
    else
      var ad := ads[|ads| - 1];
      ExactDate(ads[..|ads| - 1], target)
      + (if ad.createdTime.Some? && DatePart(ad.createdTime.value) == target then [ad] else [])
  }

  /** An ad kept by the exact-date filter was created on the target day. */
  lemma {:induction false} ExactDateMeaning(ads: seq<Ad>, today: Date, days: nat, ad: Ad)
    requires Valid(today) && days <= DayNumber(today)
    requires ad in ExactDate(ads, FormatDate(SubtractDays(today, days)))
    ensures ad in ads && ad.createdTime.Some?
    ensures ParseDate(DatePart(ad.createdTime.value)) == Some(SubtractDays(today, days))
    decreases |ads|
  {
    var target := FormatDate(SubtractDays(today, days));
    var n := |ads| - 1;
    if ad in ExactDate(ads[..n], target) {
      ExactDateMeaning(ads[..n], today, days, ad);
    } else {
      ParseFormatRoundTrip(SubtractDays(today, days));
    }
  }

  /** A row of get_any_recent_ads. */
  datatype RecentAd = RecentAd(adId: Option<string>, adName: Option<string>, campaignName: Option<string>,
                               createdTime: Option<string>, status: string)

  predicate ActiveOrPaused(ad: Ad) {
    ad.effectiveStatus == Some("ACTIVE") || ad.effectiveStatus == Some("PAUSED")
  }

  function RecentOf(ad: Ad): RecentAd
    requires ActiveOrPaused(ad)
  {
    RecentAd(ad.id, ad.name, ad.campaignName, ad.createdTime, ad.effectiveStatus.value)
  }

  function ActiveAds(ads: seq<Ad>): seq<RecentAd> {
    if ads == [] then []
    else
      var ad := ads[|ads| - 1];
      ActiveAds(ads[..|ads| - 1]) + (if ActiveOrPaused(ad) then [RecentOf(ad)] else [])
  }

  /** Python's `s[:k]`: a negative k drops that many elements from the end. */
  function Take<T>(s: seq<T>, k: int): (r: seq<T>)
    ensures r <= s
    ensures 0 <= k <= |s| ==> |r| == k
    ensures k >= |s| ==> r == s
  {
    if k >= |s| then s
    else if k >= 0 then s[..k]
    else if |s| + k > 0 then s[..|s| + k]
    else []
  }

  /** The list get_any_recent_ads returns. */
  function RecentAds(ads: seq<Ad>, limit: int, minSpend: Option<real>): seq<RecentAd> {
    var formatted := ActiveAds(ads);
    var pre := if minSpend.Some? && minSpend.value > 0.0 then Take(formatted, limit * 2) else formatted;
    Take(pre, limit)
  }

  /** For a non-negative limit the spend pre-cut changes nothing: the result is the first `limit` active ads. */
  lemma RecentAdsPrecutHarmless(ads: seq<Ad>, limit: int, minSpend: Option<real>)
    requires limit >= 0
    ensures RecentAds(ads, limit, minSpend) == Take(ActiveAds(ads), limit)
    ensures |RecentAds(ads, limit, minSpend)| <= limit
  {
  }

  // ---- creative clean-up ----

  /** "" becomes None. */
  function Blanked(v: Value): (r: Value)
    ensures r != Str("")
    ensures v != Str("") ==> r == v
  {
    if v == Str("") then Null else v
  }

  /** The creative after the clean-up: blanks made None, then body and title backfilled. */
  function Cleaned(d: Dict): (r: Dict) {
    var blank := map k | k in d :: Blanked(d[k]);
    var withBody := if "primary_text" in blank && "body" !in blank
                    then blank["body" := blank["primary_text"]] else blank;
    if "headline" in withBody && "title" !in withBody
    then withBody["title" := withBody["headline"]] else withBody
  }

  /** No value stays "", the keys only grow by body and title, and a second clean-up changes nothing. */
  lemma CleanedMeaning(d: Dict)
    ensures forall k :: k in Cleaned(d) ==> Cleaned(d)[k] != Str("")
    ensures Cleaned(d).Keys == d.Keys
                               + (if "primary_text" in d && "body" !in d then {"body"} else {})
                               + (if "headline" in d && "title" !in d then {"title"} else {})
    ensures forall k :: k in d && k != "body" && k != "title" ==> Cleaned(d)[k] == Blanked(d[k])
    ensures Cleaned(Cleaned(d)) == Cleaned(d)
  {
  }

  // ---- the client ----

  class MetaApiClient {
    var region: string
    var adAccountId: string
    var accessToken: string
    /** Seconds to keep between two requests. */
    var rateLimitWait: real
    /** Clock time of the last request. */
    var lastRequestTime: real
    /** How many ads the last ad listing returned. */
    var totalAdsRetrieved: int
    /** How many ads the last find_eligible_ads kept in stage 1. */
    var adsWithinThreshold: int

    predicate Valid()
      reads this
    {
      rateLimitWait >= MinWait
    }

    /** `__init__` for credentials that are there (otherwise it raises ValueError, see Create). */
    constructor (region: string, explicitId: string, accounts: map<string, string>, token: string)
      requires HasCredentials(region, explicitId, accounts, token)
      ensures Valid()
      ensures this.region == region && adAccountId == ResolveAccountId(region, explicitId, accounts)
      ensures accessToken == token
      ensures rateLimitWait == 2.0 && lastRequestTime == 0.0
      ensures totalAdsRetrieved == 0 && adsWithinThreshold == 0
    {
      this.region := region;
      adAccountId := ResolveAccountId(region, explicitId, accounts);
      accessToken := token;
      rateLimitWait := 2.0;
      lastRequestTime := 0.0;
      totalAdsRetrieved := 0;
      adsWithinThreshold := 0;
    }

    /** `MetaApiClient(...)`: a client, or the error when the account or the token is missing. */
    static method Create(region: string, explicitId: string, accounts: map<string, string>, token: string)
      returns (r: Result<MetaApiClient, string>)
      ensures r.Ok? <==> HasCredentials(region, explicitId, accounts, token)
      ensures r.Ok? ==> fresh(r.value) && r.value.Valid() && r.value.rateLimitWait == 2.0
                        && r.value.adAccountId == ResolveAccountId(region, explicitId, accounts)
    {
      if !HasCredentials(region, explicitId, accounts, token) {
        return Err("META_AD_ACCOUNT_ID_" + region + " and META_ACCESS_TOKEN must be provided");
      }
      var c := new MetaApiClient(region, explicitId, accounts, token);
      return Ok(c);
    }

    /** The throttle at the head of `_make_api_request`: sleep, then record the request time. */
    method Throttle(now: real) returns (sleep: real)
      requires Valid()
      modifies this
      ensures rateLimitWait == old(rateLimitWait) && region == old(region) && adAccountId == old(adAccountId)
      ensures sleep == ThrottleSleep(now, old(lastRequestTime), rateLimitWait)
      ensures lastRequestTime == now + sleep
      ensures lastRequestTime >= old(lastRequestTime) + rateLimitWait
      ensures accessToken == old(accessToken)
      ensures totalAdsRetrieved == old(totalAdsRetrieved) && adsWithinThreshold == old(adsWithinThreshold)
    {
      var sinceLast := now - lastRequestTime;
      sleep := 0.0;
      if sinceLast < rateLimitWait {
        sleep := rateLimitWait - sinceLast;
      }
      lastRequestTime := now + sleep;
    }

    /**
     * `_make_api_request` over the replies its tries get: each try is
     * throttled; a limit reply doubles the wait and retries, a 200
     * lowers it towards two seconds and answers, anything else fails,
     * except a permission error on a media URL.
     */
    method MakeApiRequest(attempts: seq<Attempt>, mediaUrl: bool) returns (o: Outcome)
      requires Valid()
      modifies this
      ensures Valid()
      ensures o == OutcomeFrom(attempts, mediaUrl, 0)
      ensures rateLimitWait == WaitAfter(old(rateLimitWait), attempts[..Used(o, |attempts|)])
      ensures Throttling(rateLimitWait, lastRequestTime)
              == ThrottleAfter(Throttling(old(rateLimitWait), old(lastRequestTime)), attempts[..Used(o, |attempts|)])
      ensures Used(o, |attempts|) > 0 ==> lastRequestTime >= attempts[Used(o, |attempts|) - 1].now
      ensures Used(o, |attempts|) == 0 ==> lastRequestTime == old(lastRequestTime)
      ensures region == old(region) && adAccountId == old(adAccountId) && accessToken == old(accessToken)
      ensures totalAdsRetrieved == old(totalAdsRetrieved) && adsWithinThreshold == old(adsWithinThreshold)
    {
      var i := 0;
      o := Exhausted;
      while i < |attempts| && o.Exhausted?
        invariant 0 <= i <= |attempts| && Valid()
        invariant o.Exhausted? ==> OutcomeFrom(attempts, mediaUrl, 0) == OutcomeFrom(attempts, mediaUrl, i)
        invariant !o.Exhausted? ==> o == OutcomeFrom(attempts, mediaUrl, 0) && i == o.attempt + 1
        invariant Throttling(rateLimitWait, lastRequestTime)
                  == ThrottleAfter(Throttling(old(rateLimitWait), old(lastRequestTime)), attempts[..i])
        invariant i > 0 ==> lastRequestTime >= attempts[i - 1].now
        invariant i == 0 ==> lastRequestTime == old(lastRequestTime)
        invariant region == old(region) && adAccountId == old(adAccountId) && accessToken == old(accessToken)
        invariant totalAdsRetrieved == old(totalAdsRetrieved) && adsWithinThreshold == old(adsWithinThreshold)
      {
        label Try:
        var sleep := Throttle(attempts[i].now);
        var r := attempts[i].reply;
        ThrottleStep(Throttling(old(rateLimitWait), old(lastRequestTime)), attempts, i);
        assert lastRequestTime == Max(attempts[i].now, old@Try(lastRequestTime) + rateLimitWait);
        if Limited(r) {
          rateLimitWait := rateLimitWait * 2.0;
        } else if r.status == 200 {
          rateLimitWait := Max(MinWait, rateLimitWait / 1.5);
          o := Answered(i);
        } else if r.permissionDenied && mediaUrl {
          o := VideoFallback(i);
        } else {
          o := Failed(i, r.status);
        }
        assert rateLimitWait == NextWait(old@Try(rateLimitWait), r);
        i := i + 1;
      }
      if o.Exhausted? {
        assert attempts[..i] == attempts;
      }
      assert Used(o, |attempts|) == i;
      ThrottleWaitFollowsRule(Throttling(old(rateLimitWait), old(lastRequestTime)), attempts[..i]);
    }

    /**
     * `_handle_pagination`: the first page through `_make_api_request`,
     * then each next page until one does not answer 200. The next pages
     * bypass the throttle, so only the first request moves it. When the
     * first request raises, so does the call; an ad listing that
     * succeeds records how many ads it found.
     */
    method HandlePagination<T>(p: Paging<T>, adDiscovery: bool) returns (r: Option<seq<T>>)
      requires Valid()
      modifies this
      ensures Valid()
      ensures r == PagedResult(p)
      ensures Throttling(rateLimitWait, lastRequestTime)
              == ThrottleAfter(Throttling(old(rateLimitWait), old(lastRequestTime)), Tried(p.attempts))
      ensures totalAdsRetrieved == if adDiscovery && r.Some? then |r.value| else old(totalAdsRetrieved)
      ensures region == old(region) && adAccountId == old(adAccountId) && accessToken == old(accessToken)
      ensures adsWithinThreshold == old(adsWithinThreshold)
    {
      var o := MakeApiRequest(p.attempts, false);
      if !o.Answered? {
        return None;
      }
      var all := p.first;
      var i := 0;
      while i < |p.next| && p.next[i].0 == 200
        invariant 0 <= i <= |p.next|
        invariant PagedItems(p.first, p.next) == PagedItems(all, p.next[i..])
      {
        assert p.next[i..][1..] == p.next[i + 1..];
        all := all + p.next[i].1;
        i := i + 1;
      }
      if adDiscovery {
        totalAdsRetrieved := |all|;
      }
      return Some(all);
    }

    /**
     * `find_eligible_ads` on the account's ad listing and the spend
     * queries, batch by batch: stage 1 by creation date and scope, then
     * the spend query in batches of fifty, then a stable sort by spend,
     * highest first. A listing that raises or is empty, an unparsable
     * creation date or a spend query that raises ends the search with [].
     */
    method FindEligibleAds(listing: Paging<Ad>, today: Date, days: nat, minSpend: real,
                           adsets: seq<string>, campaigns: seq<string>, queries: seq<Paging<SpendRow>>)
      returns (r: seq<EligibleAd>, batches: seq<seq<Ad>>)
      requires Valid()
      requires Dates.Valid(today) && days <= DayNumber(today)
      modifies this
      ensures Valid()
      ensures PagedResult(listing).None? ==>
                r == [] && batches == [] && totalAdsRetrieved == old(totalAdsRetrieved)
      ensures PagedResult(listing).Some? ==> totalAdsRetrieved == |Listed(listing)|
      ensures Listed(listing) == [] ==> r == [] && adsWithinThreshold == old(adsWithinThreshold)
      ensures var allAds := Listed(listing);
              allAds != [] && AnyUnparsable(allAds) ==> r == [] && adsWithinThreshold == old(adsWithinThreshold)
      ensures var allAds := Listed(listing);
              allAds != [] && !AnyUnparsable(allAds) ==>
                var stage1 := Stage1(allAds, SubtractDays(today, days), adsets, campaigns);
                && adsWithinThreshold == |stage1|
                && Flatten(batches) == stage1
                && (forall i :: 0 <= i < |batches| ==> 0 < |batches[i]| <= BatchSize)
                && (forall i :: 0 <= i < |batches| - 1 ==> |batches[i]| == BatchSize)
                && (!AllAnswered(queries, |batches|) ==> r == [])
                && (AllAnswered(queries, |batches|) ==>
                      && SortedDesc(r, SpendKey)
                      && multiset(r) == multiset(Collected(batches, queries))
                      && (forall k :: WithKey(r, SpendKey, k) == WithKey(Collected(batches, queries), SpendKey, k)))
      ensures Throttling(rateLimitWait, lastRequestTime)
              == ThrottleAfterQueries(ThrottleAfter(Throttling(old(rateLimitWait), old(lastRequestTime)), Tried(listing.attempts)),
                                      queries, 0, |batches|)
      ensures region == old(region) && adAccountId == old(adAccountId) && accessToken == old(accessToken)
    {
      batches := [];
      var listed := HandlePagination(listing, true);
      if listed.None? || listed.value == [] {
        return [], [];
      }
      var allAds := listed.value;
      assert allAds == Listed(listing);
      var cutoff := SubtractDays(today, days);
      var stage1 := FilterByCreation(allAds, cutoff, adsets, campaigns);
      if stage1.None? {
        return [], [];
      }
      adsWithinThreshold := |stage1.value|;
      if stage1.value == [] {
        return [], [];
      }
      batches := Chunk(stage1.value, BatchSize);
      var eligible := QueryBatches(batches, queries);
      if eligible.None? {
        return [], batches;
      }
      r := SortByKeyDesc(eligible.value, SpendKey);
    }

    /**
     * The spend query batch after batch (the outer loop of stage 2); None
     * when a query raises, which abandons the whole search. Each query
     * moves the throttle; the queries after a failed one are never made.
     */
    method QueryBatches(batches: seq<seq<Ad>>, queries: seq<Paging<SpendRow>>) returns (eligible: Option<seq<EligibleAd>>)
      requires Valid()
      modifies this
      ensures Valid()
      ensures eligible.None? <==> !AllAnswered(queries, |batches|)
      ensures eligible.Some? ==> eligible.value == Collected(batches, queries)
      ensures Throttling(rateLimitWait, lastRequestTime)
              == ThrottleAfterQueries(Throttling(old(rateLimitWait), old(lastRequestTime)), queries, 0, |batches|)
      ensures region == old(region) && adAccountId == old(adAccountId) && accessToken == old(accessToken)
      ensures totalAdsRetrieved == old(totalAdsRetrieved) && adsWithinThreshold == old(adsWithinThreshold)
    {
      var found := [];
      for b := 0 to |batches|
        invariant Valid()
        invariant AllAnswered(queries, b)
        invariant found == Collected(batches[..b], queries)
        invariant ThrottleAfterQueries(Throttling(old(rateLimitWait), old(lastRequestTime)), queries, 0, |batches|)
                  == ThrottleAfterQueries(Throttling(rateLimitWait, lastRequestTime), queries, b, |batches|)
        invariant region == old(region) && adAccountId == old(adAccountId) && accessToken == old(accessToken)
        invariant totalAdsRetrieved == old(totalAdsRetrieved) && adsWithinThreshold == old(adsWithinThreshold)
      {
        assert batches[..b + 1][..b] == batches[..b];
        var reply := HandlePagination(QueryAt(queries, b), false);
        if reply.None? {
          return None;
        }
        var matched := MatchBatch(batches[b], reply.value);
        found := found + matched;
      }
      assert batches[..|batches|] == batches;
      return Some(found);
    }
  }

  /** The ads of a batch the spend rows name, formatted (the inner loop of stage 2). */
  method MatchBatch(batch: seq<Ad>, rows: seq<SpendRow>) returns (r: seq<EligibleAd>)
    ensures r == Matched(batch, rows)
    ensures |r| <= |rows|
  {
    r := [];
    for i := 0 to |rows|
      invariant r == Matched(batch, rows[..i]) && |r| <= i
    {
      assert rows[..i + 1][..i] == rows[..i];
      var m := FirstWithId(batch, rows[i].adId);
      if m.Some? {
        r := r + [EligibleOf(rows[i], m.value)];
      }
    }
    assert rows[..|rows|] == rows;
  }

  /**
   * The stage-1 loop: skip ads without a creation time, raise on one
   * that does not parse, keep an ad created on or before the cutoff
   * when the scope flags say so.
   */
  method FilterByCreation(ads: seq<Ad>, cutoff: Date, adsets: seq<string>, campaigns: seq<string>)
    returns (r: Option<seq<Ad>>)
    ensures r.None? <==> AnyUnparsable(ads)
    ensures r.Some? ==> r.value == Stage1(ads, cutoff, adsets, campaigns)
  {
    var kept: seq<Ad> := [];
    for i := 0 to |ads|
      invariant kept == Stage1(ads[..i], cutoff, adsets, campaigns)
      invariant forall j :: 0 <= j < i ==> !Unparsable(ads[j])
    {
      assert ads[..i + 1][..i] == ads[..i];
      var ad := ads[i];
      if !HasCreated(ad) {
        continue;
      }
      var created := ParseDate(DatePart(ad.createdTime.value));
      if created.None? {
        return None;
      }
      if AtOrBefore(created.value, cutoff) {
        var keepAd := true;
        if adsets != [] {
          keepAd := keepAd && InList(ad.adsetId, adsets);
        }
        if campaigns != [] {
          var inCampaign := InList(ad.campaignId, campaigns);
          if adsets != [] {
            keepAd := keepAd || inCampaign;
          } else {
            keepAd := keepAd && inCampaign;
          }
        }
        assert keepAd == InScope(ad, adsets, campaigns);
        if keepAd {
          kept := kept + [ad];
        }
      }
    }
    assert ads[..|ads|] == ads;
    return Some(kept);
  }

  /** `[s[i:i+size] for i in range(0, len(s), size)]` */
  method Chunk<T>(s: seq<T>, size: nat) returns (parts: seq<seq<T>>)
    requires size > 0
    ensures Flatten(parts) == s
    ensures forall i :: 0 <= i < |parts| ==> 0 < |parts[i]| <= size
    ensures forall i :: 0 <= i < |parts| - 1 ==> |parts[i]| == size
  {
    parts := [];
    var i := 0;
    while i < |s|
      invariant 0 <= i <= |s|
      invariant Flatten(parts) == s[..i]
      invariant forall j :: 0 <= j < |parts| ==> 0 < |parts[j]| <= size
      invariant forall j :: 0 <= j < |parts| - 1 ==> |parts[j]| == size
      invariant i < |s| ==> forall j :: 0 <= j < |parts| ==> |parts[j]| == size
    {
      var end := if i + size <= |s| then i + size else |s|;
      FlattenAppend(parts, s[i..end]);
      assert s[..i] + s[i..end] == s[..end];
      parts := parts + [s[i..end]];
      i := end;
    }
    assert s[..|s|] == s;
  }

  /** The dates of the spend query: `days` days ending yesterday. */
  function SpendWindow(today: Date, days: nat): (w: (Date, Date))
    requires Valid(today) && 1 <= days <= DayNumber(today)
    ensures Valid(w.0) && Valid(w.1)
  {
    var end := SubtractDays(today, 1);
    (SubtractDays(end, days - 1), end)
  }

  /** The window ends yesterday, spans exactly `days` days and starts on the creation cutoff. */
  lemma SpendWindowSpan(today: Date, days: nat)
    requires Valid(today) && 1 <= days <= DayNumber(today)
    ensures SpendWindow(today, days).1 == SubtractDays(today, 1)
    ensures DaysBetween(SpendWindow(today, days).0, SpendWindow(today, days).1) + 1 == days
    ensures SpendWindow(today, days).0 == SubtractDays(today, days)
  {
    var w := SpendWindow(today, days);
    DayNumberOrder(w.0, SubtractDays(today, days));
  }

  /** The exact-date filter of get_eligible_ads, with its loop. */
  method EligibleByExactDate(ads: seq<Ad>, today: Date, days: nat) returns (r: seq<Ad>)
    requires Valid(today) && days <= DayNumber(today)
    ensures r == ExactDate(ads, FormatDate(SubtractDays(today, days)))
    ensures |r| <= |ads|
  {
    var target := FormatDate(SubtractDays(today, days));
    r := [];
    for i := 0 to |ads|
      invariant r == ExactDate(ads[..i], target) && |r| <= i
    {
      assert ads[..i + 1][..i] == ads[..i];
      if ads[i].createdTime.Some? && DatePart(ads[i].createdTime.value) == target {
        r := r + [ads[i]];
      }
    }
    assert ads[..|ads|] == ads;
  }

  /** get_any_recent_ads after the request, with its loop and its slices. */
  method GetAnyRecentAds(ads: seq<Ad>, limit: int, minSpend: Option<real>) returns (r: seq<RecentAd>)
    ensures r == RecentAds(ads, limit, minSpend)
    ensures r <= ActiveAds(ads)
  {
    var formatted: seq<RecentAd> := [];
    for i := 0 to |ads|
      invariant formatted == ActiveAds(ads[..i])
    {
      assert ads[..i + 1][..i] == ads[..i];
      if ActiveOrPaused(ads[i]) {
        formatted := formatted + [RecentOf(ads[i])];
      }
    }
    assert ads[..|ads|] == ads;
    if minSpend.Some? && minSpend.value > 0.0 {
      formatted := Take(formatted, limit * 2);
    }
    r := Take(formatted, limit);
  }

  /** The creative clean-up, key by key. */
  method CleanCreative(d: Dict) returns (r: Dict)
    ensures r == Cleaned(d)
  {
    r := d;
    var todo := d.Keys;
    while todo != {}
      invariant todo <= d.Keys && r.Keys == d.Keys
      invariant forall k :: k in d ==> r[k] == if k in todo then d[k] else Blanked(d[k])
      decreases todo
    {
      var k :| k in todo;
      if r[k] == Str("") {
        r := r[k := Null];
      }
      todo := todo - {k};
    }
    assert r == map k | k in d :: Blanked(d[k]);
    if "primary_text" in r && "body" !in r {
      r := r["body" := r["primary_text"]];
    }
    if "headline" in r && "title" !in r {
      r := r["title" := r["headline"]];
    }
  }
}
