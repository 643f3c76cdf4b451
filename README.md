# Meta Ads performance pipeline — a Dafny model of its core

The pipeline pulls ad data from the Meta Marketing API, turns it into flat
metric records, compares each ad with the account's benchmarks, checks it,
cleans each record for JSON output, and writes rows to a Google Sheet.
This project models the deterministic layer beneath the HTTP and Sheets
plumbing. Each reply from Meta or Google that the code would fetch is
passed in as a value. "Today", the elapsed run time and the outcome of each
Sheets request are passed in too.

Modules, one per area of the source:

- `Common` holds the shared pieces:
  - a JSON-like `Value`, and `Option`/`Result`;
  - Python's `int()` truncation and `round(x, 2)`, taken on exact reals;
  - the string helpers the code uses (`split('T')[0]`, `lower`, `replace`).
- `Dates`: `'%Y-%m-%d'` parsing and formatting, `'%m/%d/%Y'`, and day
  arithmetic (`today - timedelta(days=n)`).
- `Sorting`: Python's stable `sorted(..., reverse=True)`, as a specification
  function and as a loop. Both are proved ordered, a permutation and stable.
- `MetaFields`, `MetaMetrics`, `MetaDetailed`, `MetaBreakdowns` and
  `MetaAggregation` model the metric extractors of `MetaApiClient`. Each
  variant stays a separate function, because the variants disagree on
  details:
  - `get_ad_metrics`, `get_detailed_ad_metrics`, `get_demographic_breakdown`
    and `get_comprehensive_ad_metrics`;
  - `_format_breakdown_data`, `_extract_metrics_from_insights` and the
    grouping in `get_bulk_ad_insights`;
  - the per-day sums in `get_account_insights`.

  A raw insight field is `Absent`, a number, a text or a list of
  `{action_type, value}` entries. A Python exception raised during
  extraction becomes an `Err` result.
- `MetaClient` models the client object:
  - account resolution and the rate-limit wait (`rate_limit_wait`);
  - the ad-discovery count of pagination;
  - pagination, whose first request goes through the throttle;
  - the two-stage `find_eligible_ads`, with batches of 50, one paged
    query (or a failure) per batch, and a sort by spend;
  - the exact-date and status/limit filters;
  - the creative clean-up.
- `PerformanceAnalysis`: benchmarks, the benchmark comparison (deltas,
  weighted score, rating, stability) and the segment ranking with its
  contribution shares.
- `DataValidation`: the required-field, spend, timeframe and anomaly checks,
  the ordered issue list, and the split of a list of ads into valid and
  invalid ones. Every record is accepted. Exactly the records on which a
  check raises (an `in`, `.get` or comparison on data of the wrong type)
  give the `Raised` outcome. Records built by `get_complete_ad_data` are
  proved never to raise.
- `Pipeline`: `_ensure_required_metrics`, `_filter_fields_for_json`,
  `_prepare_dashboard_summary` and `_complete_run`.
- `SheetsFormatting`: the display row, the formula and text cells, and the
  14-column grid with its header.
- `SheetsManagement`:
  - region tab names;
  - upsert row selection for the dashboard and ad-details tabs;
  - where a batch write starts and what it reports;
  - row and performance colours.

Where the source loops, appends or updates an object's fields, the model is
a `method` with a loop or a `class` with fields. Each such method is proved
equal to a specification function, and the lemmas are stated about that
function.

Where the code and the repository's design description disagree, the
model follows the code:

- A list-shaped `conversions` field in `get_ad_metrics` sums every entry,
  whatever its `action_type`, not only the allow-listed types.
- The 35 % / 8 % video-view estimates apply whenever the list is falsy
  (missing or empty). A non-empty list with no `video_view` entry gives 0
  and no estimate.
- The extractors can fail on malformed shapes, for example `float()` of a
  list. The model returns `Err` or `None` there rather than a default of 0.
- A higher-is-better delta is 0 when the ad lacks the metric, as well as
  when the benchmark is not positive.
- With fewer than three segments, the best and worst lists are one and the
  same list, reversed, so the first "best" segment is the lowest-scored one.
- The rate-limit wait doubles without a ceiling, and a limit reply is
  retried with no bound on the number of tries.
- `_ensure_required_metrics` (and so `_filter_fields_for_json`) raises for a
  breakdown entry that needs the undefined `video_p25`. The model returns
  an error there; it does not back-fill the entry.

## Model

| member | source | states |
|---|---|---|
| Common.Trunc | src/meta_api_client.py:430 | Python's int() on a float lands on the integer next to the value toward zero |
| Common.RoundHalfEven | src/pipeline_manager.py:737 | the rounded integer is within one half of the value, and an integer value is kept |
| Common.Round2 | src/pipeline_manager.py:737 | round(x, 2) moves a value by at most half a cent |
| Common.Round2Idempotent | src/pipeline_manager.py:737 | rounding an already rounded value to two places changes nothing |
| Common.Round2OfCents | src/pipeline_manager.py:737 | a value with at most two decimal places is left unchanged by rounding |
| Common.DatePart | src/data_validator.py:173 | the date part of a timestamp is its prefix up to, and not including, the first 'T' |
| Common.Replace | src/performance_analyzer.py:228 | replacing a character by text without it removes that character, and text without it is returned unchanged |
| Common.ReplaceAbsent | src/performance_analyzer.py:228 | a replacement never introduces a character found in neither the text nor the replacement |
| Common.Lower | src/performance_analyzer.py:228 | ASCII lower-casing keeps the length and lower-cases each character in place |
| Dates.SubtractDays | src/meta_api_client.py:293-294 | `today - timedelta(days=n)` is a valid calendar date exactly n day numbers earlier |
| Dates.DayNumberOrder | src/data_validator.py:178-181 | comparing two dates is comparing their day numbers, so whole days elapsed and date order agree |
| Dates.ParseFormatRoundTrip | src/data_validator.py:173-175 | strptime with '%Y-%m-%d' on a date written by strftime('%Y-%m-%d') gives that date back |
| Dates.FormatDateInjective | src/meta_api_client.py:318-321 | two valid dates have the same YYYY-MM-DD text exactly when they are equal, so the string test of the exact-date filter is a date test |
| Dates.ParseDate | src/data_validator.py:173 | strptime with '%Y-%m-%d' only ever yields a valid calendar date |
| Dates.FormatUsDate | src/sheets_formatter.py:69 | strftime('%m/%d/%Y') gives ten characters with slashes after the month and the day |
| Dates.PrevDayNumber | src/meta_api_client.py:293-294 | the day before a valid date is a valid date one day number earlier |
| Dates.DaysInMonth | src/data_validator.py:173 | every month has between 28 and 31 days |
| Dates.DigitsRoundTrip | src/data_validator.py:173 | a number written with a fixed number of digits reads back as the same number |
| Sorting.InsertPermutes | src/performance_analyzer.py:297 | inserting an element into the sorted prefix adds exactly that element |
| Sorting.InsertSorted | src/performance_analyzer.py:297 | inserting into a list sorted largest-first keeps it sorted largest-first |
| Sorting.WithKeyAppend | src/performance_analyzer.py:297 | the elements with a given key of two joined lists are those of the first followed by those of the second |
| Sorting.WithKeyNone | src/performance_analyzer.py:297 | a list with no element of a given key has no elements with that key |
| Sorting.WithKeyOne | src/performance_analyzer.py:297 | a single element has that key's elements exactly when its key is the given one |
| Sorting.SortedTail | src/performance_analyzer.py:297 | the tail of a list sorted largest-first is sorted largest-first |
| Sorting.FrontStable | src/performance_analyzer.py:297 | an element placed in front of smaller keys comes after the earlier elements of its own key |
| Sorting.InsertStable | src/performance_analyzer.py:297 | inserting an element puts it after every earlier element with its key and leaves the other keys' order alone |
| Sorting.SortDescCorrect | src/performance_analyzer.py:297 | the sort is ordered largest-first, is a permutation of its input, and keeps the input order among equal keys, as Python's stable sort with reverse=True does |
| Sorting.InsertDesc | src/pipeline_manager.py:1083-1094 | the insertion loop places an element after every element whose key is at least its own |
| Sorting.SortByKeyDesc | src/pipeline_manager.py:1083-1094 | the sort loop computes the specified stable descending sort: ordered, a permutation, equal keys in input order |
| MetaFields.SumActionValues | src/meta_api_client.py:437-444 | the loop total is the sum of int(float(value)) over every entry carrying a value, in list order |
| MetaFields.SumActionRealValues | src/meta_api_client.py:649-656 | the loop total is the sum of float(value) over every entry carrying a value |
| MetaFields.SumValuesAppend | src/meta_api_client.py:440-443 | the conversion sum is additive over concatenated action lists |
| MetaFields.SumValuesIgnoresTypes | src/meta_api_client.py:441-443 | relabelling the action types of the entries never changes the conversion sum: the loop does not filter by type |
| MetaFields.SumValuesNonNegative | src/meta_api_client.py:440-443 | entries with non-negative values sum to a non-negative count |
| MetaFields.FirstValueSpec | src/meta_api_client.py:487-492 | the search finds nothing exactly when no entry has an allowed type, and otherwise returns the value of the earliest allowed entry |
| MetaFields.FindFirst | src/meta_api_client.py:1334-1341 | the loop with `break` returns the value of the first entry whose action type is allowed, None when there is none |
| MetaFields.FindLast | src/meta_api_client.py:681-685 | the loop without `break` keeps the value of the last allowed entry |
| MetaFields.FirstIsLastWhenUnique | src/meta_api_client.py:681-685 | when at most one entry has an allowed type, the loop without `break` gives the same value as the loop with it |
| MetaFields.FirstOfExtension | src/meta_api_client.py:487-492 | appending an entry changes the first match only when the list had none and the new entry is allowed |
| MetaFields.SumMatchingValues | src/meta_api_client.py:1912-1922 | the aggregation loop adds int(value) of every 'video_view' entry, not just the first |
| MetaFields.SumMatchingSingle | src/meta_api_client.py:1912-1922 | with exactly one allowed entry, summing every match and taking the first match agree |
| MetaFields.SumMatchingNone | src/meta_api_client.py:1912-1922 | with no allowed entry the aggregated count is 0 |
| MetaMetrics.EstimateBounds | src/meta_api_client.py:496-498 | the estimated view count is non-negative, at most its percentage of the impressions and at most the impressions |
| MetaMetrics.CountField | src/meta_api_client.py:423-447 | a list-valued count sums every entry with a value; a scalar is converted; only a text field makes it fail |
| MetaMetrics.VideoViews | src/meta_api_client.py:486-492 | reading fails exactly when a truthy non-list is iterated; otherwise it is the first 'video_view' value, 0 when there is none |
| MetaMetrics.VideoViewsOrEstimate | src/meta_api_client.py:486-514 | a truthy list gives its first 'video_view' value; a falsy one gives the estimate when there are impressions, else 0 |
| MetaMetrics.BaseOf | src/meta_api_client.py:416-421 | on numeric fields the base numbers are spend, truncated impressions, truncated clicks and ctr, each 0 when missing |
| MetaMetrics.VideoCountsWithEstimate | src/meta_api_client.py:486-514 | with list-shaped video fields the two counts are read, each estimated at 35% or 8% of impressions when its list is falsy |
| MetaMetrics.PurchaseRoas | src/meta_api_client.py:459-471 | ROAS is the first 'purchase' cost value over spend when both are positive, else 0; a list-shaped field never fails |
| MetaMetrics.GetAdMetrics | src/meta_api_client.py:406-569 | no data gives the fourteen zero metrics; otherwise the first row's metrics, which exist whenever that row is well shaped |
| MetaMetrics.AdMetricsFromRow | src/meta_api_client.py:410-548 | a well-shaped row yields metrics with zero-guarded cpm and cpa, purchase ROAS, destination CTR, estimated video counts, and hook and viewthrough rates present exactly when there are impressions |
| MetaMetrics.EstimatedRateBounded | src/meta_api_client.py:496-548 | a rate computed from an estimated count is 0 or lies in (0, percent]: a hook rate of at most 35, a viewthrough rate of at most 8 |
| MetaMetrics.RateAtMost | src/meta_api_client.py:539-545 | views at most percent/100 of the impressions give a rate of at most percent |
| MetaDetailed.VideoOfKeys | src/meta_api_client.py:678-699 | each video key is present exactly when its list has a 'video_view' entry, and then holds int(value) of the last such entry |
| MetaDetailed.VideoOfDomain | src/meta_api_client.py:678-699 | the video dictionary holds no key other than `views`, `p25`, `p50`, `p75`, `p95` and `p100` |
| MetaDetailed.VideoMetrics | src/meta_api_client.py:678-699 | with list-shaped video fields the loops succeed, and the dictionary they build is the specified one |
| MetaDetailed.GetDetailedAdMetrics | src/meta_api_client.py:616-706 | no data gives the empty metrics template; a well-shaped first row always gives its detailed metrics |
| MetaDetailed.DetailedFromRow | src/meta_api_client.py:617-702 | the read numbers, the rankings defaulting to UNKNOWN, zero-guarded cpm and cpa, ROAS from conversion values, and `video` present only when non-empty |
| MetaDetailed.AgeGenderItemMeaning | src/meta_api_client.py:952-979 | on a well-shaped row the age/gender item copies the labels and base numbers, counts conversions, and has cpa = spend/conversions only when conversions are positive |
| MetaDetailed.DemographicBreakdown | src/meta_api_client.py:945-1011 | one age/gender item per row in order; the `platform` key exists exactly when the platform breakdown returned rows, with one item per row in order |
| MetaDetailed.CprNonZero | src/meta_api_client.py:1344-1358 | with positive registrations and spend the cost per registration is never 0 |
| MetaDetailed.GetComprehensiveAdMetrics | src/meta_api_client.py:1270-1367 | None on no data and on a read error; a well-shaped first row always gives its comprehensive metrics |
| MetaDetailed.ComprehensiveFromRow | src/meta_api_client.py:1277-1358 | the launch date passed through, outbound clicks counted, destination CTR with the website_ctr fallback, the first 'video_view' counts with no estimate, registrations and their cost |
| MetaBreakdowns.Labels | src/meta_api_client.py:1484-1486 | the item holds exactly the breakdown fields, each copied verbatim from the row and 'unknown' when missing |
| MetaBreakdowns.BreakdownVideoCount | src/meta_api_client.py:1520-1549 | a list-shaped field never fails; a missing or empty list with impressions gives the 35% / 8% estimate, otherwise the first 'video_view' value |
| MetaBreakdowns.Registration | src/meta_api_client.py:1566-1591 | registrations are the first lead-type action's value; the cost per registration is the first lead-type cost, or spend/registrations when that is 0 |
| MetaBreakdowns.FormatBreakdownItem | src/meta_api_client.py:1482-1605 | a well-shaped row yields its item: labels, numbers, counts, estimates, the rates only with impressions, cpr, cpc recomputed from spend and clicks, click-to-registration |
| MetaBreakdowns.FormatBreakdownData | src/meta_api_client.py:1468-1607 | one item per row, in row order, each the specified item of its row; it succeeds whenever every row is well shaped |
| MetaBreakdowns.CpcPositive | src/meta_api_client.py:1593-1597 | the recomputed cost per click is a number exactly when clicks and spend are positive, and then it is positive |
| MetaBreakdowns.DirectMetrics | src/meta_api_client.py:1738-1741 | the direct keys the item has are each read as floats, the others are absent; numeric fields never fail |
| MetaBreakdowns.InsightVideoCount | src/meta_api_client.py:1763-1791 | the first 'video_view' value, replaced by the 35% / 8% estimate when the count is 0, the list is missing or empty, and there are impressions |
| MetaBreakdowns.ExtractMetricsFromInsights | src/meta_api_client.py:1726-1829 | a well-shaped item yields its metrics: direct floats, outbound clicks only for a non-empty list, rates only with impressions, conversions only from a list, cpr, a cpc filled only when missing, click-to-registration |
| MetaBreakdowns.ApiCpcKept | src/meta_api_client.py:1819-1821 | a cpc the API sent is kept as read; the computed one never replaces it |
| MetaBreakdowns.FirstRowSeen | src/meta_api_client.py:1674-1686 | an id has a first row exactly when it is among the grouped ids, and that row carries the id |
| MetaBreakdowns.FirstSeenDistinct | src/meta_api_client.py:1674-1677 | the grouped ids are distinct |
| MetaBreakdowns.FirstSeenCovers | src/meta_api_client.py:1674-1677 | every row's id is among the grouped ids |
| MetaBreakdowns.NewAd | src/meta_api_client.py:1677-1686 | a new id's ad copies the header of its first row, holds that row's metrics and starts with no breakdown entries |
| MetaBreakdowns.AgeGenderEntry | src/meta_api_client.py:1692-1698 | the breakdown entry carries the row's age and gender and its extracted metrics |
| MetaBreakdowns.GroupedKept | src/meta_api_client.py:1688-1698 | a row of another id, or one without both age and gender, leaves a grouped ad correct as it is |
| MetaBreakdowns.GroupedAppend | src/meta_api_client.py:1692-1698 | a row of the ad's id with an age and a gender appends its entry to that ad |
| MetaBreakdowns.GroupedNew | src/meta_api_client.py:1676-1698 | a new id's ad is correct after its first row, with that row's entry when it has an age and a gender |
| MetaBreakdowns.GroupingSkip | src/meta_api_client.py:1688-1692 | a seen id's row without an age and a gender changes no ad |
| MetaBreakdowns.GroupingAdd | src/meta_api_client.py:1676-1686 | a new id's row adds its ad at the end and indexes it there |
| MetaBreakdowns.IdsAdd | src/meta_api_client.py:1676-1677 | the first-seen order and the index stay in step when a new id is added |
| MetaBreakdowns.GroupingAppend | src/meta_api_client.py:1692-1698 | a seen id's row with an age and a gender extends that ad's breakdowns, and every other ad stays correct |
| MetaBreakdowns.AllGroupedAppend | src/meta_api_client.py:1692-1698 | after the append every ad is correct for the longer row list |
| MetaBreakdowns.GroupedAfterAppend | src/meta_api_client.py:1692-1698 | the ad of the row's id is extended and any other ad is unchanged and still correct |
| MetaBreakdowns.OtherIdDiffers | src/meta_api_client.py:1674-1677 | only the ad the index names for an id carries that id |
| MetaBreakdowns.IdsAppend | src/meta_api_client.py:1692-1698 | replacing ads by ones with the same ids keeps the first-seen order and the index |
| MetaBreakdowns.GroupRow | src/meta_api_client.py:1673-1698 | one row of the pass keeps the grouping invariant and never fails on a well-shaped row |
| MetaBreakdowns.GroupBulkInsights | src/meta_api_client.py:1669-1701 | one ad per distinct id in first-seen order, each with header and metrics from its first row and one entry per row of its id with an age and a gender |
| MetaBreakdowns.NoAgeGenderRows | src/meta_api_client.py:1674-1698 | an id never seen has no breakdown rows |
| MetaBreakdowns.BulkInsightsWithoutDemographics | src/meta_api_client.py:1702-1713 | one ad per row, in order, with header and metrics from that row and no breakdowns |
| MetaAggregation.TotalsOfAppend | src/meta_api_client.py:1897-1929 | aggregating two runs of days one after the other is adding their separate sums |
| MetaAggregation.AddAssociative | src/meta_api_client.py:1897-1929 | adding daily sums is associative, so the aggregation does not depend on how the days are split |
| MetaAggregation.DayTotals | src/meta_api_client.py:1897-1929 | the loops of one day compute its contribution: base numbers, outbound clicks and conversions from lists, every 'video_view' entry; a well-shaped day never fails |
| MetaAggregation.AccountInsights | src/meta_api_client.py:1872-1974 | no days give an empty result; otherwise it fails exactly when some day fails, and is the derived ratios of the sums over all days |
| MetaAggregation.TotalsErrSticks | src/meta_api_client.py:1897-1929 | once a day raises, the whole aggregation raises |
| MetaAggregation.ViewthroughNeedsHook | src/meta_api_client.py:1941-1947 | the view-through rate is reported exactly when impressions, 3-second views and full views are all positive, and never without a hook rate |
| MetaAggregation.DerivedTwoPlaces | src/meta_api_client.py:1932-1966 | every rounded ratio is already on two decimal places: rounding again changes nothing |
| MetaClient.ResolveAccountId | src/meta_api_client.py:66-77 | the explicit account wins, then the region's configured account; the result is empty exactly when neither is set and the region is not GBR (GBR falls back to the demo account) |
| MetaClient.MetaApiClient.constructor | src/meta_api_client.py:66-83 | the client keeps the region, the resolved account and the token, with a wait of 2 seconds and a last request time of 0 |
| MetaClient.MetaApiClient.Create | src/meta_api_client.py:85-88 | construction fails exactly when the resolved account or the token is empty |
| MetaClient.ThrottleSleep | src/meta_api_client.py:158-166 | the sleep is never negative, brings the request at least `wait` seconds after the last one, and is zero when that much time has already passed |
| MetaClient.MetaApiClient.Throttle | src/meta_api_client.py:158-169 | the recorded request time is at least the last one plus the wait; nothing else in the client changes |
| MetaClient.OutcomeFrom | src/meta_api_client.py:171-197 | the request runs out of tries exactly when every remaining reply is a limit reply; otherwise the first non-limit reply decides |
| MetaClient.MetaApiClient.MakeApiRequest | src/meta_api_client.py:144-210 | the outcome is decided by the first non-limit reply; the new wait is the update rule applied to exactly the replies consumed, and the new request time is the throttle applied to exactly those tries |
| MetaClient.ThrottleWaitFollowsRule | src/meta_api_client.py:158-185 | the throttle's wait after any run of tries is the rate-limit rule applied to their replies |
| MetaClient.ClockOnlyAdvances | src/meta_api_client.py:158-169 | the recorded request time never goes back, and is no earlier than the start of any try, while the wait stays non-negative |
| MetaClient.WaitStaysAboveMin | src/meta_api_client.py:176-185 | starting from at least 2 seconds, the wait never drops below 2 whatever replies come back |
| MetaClient.LimitsDouble | src/meta_api_client.py:176-179 | n limit replies in a row multiply the wait by 2^n |
| MetaClient.SuccessesRecover | src/meta_api_client.py:183-185 | n successes in a row give max(2, wait / 1.5^n) |
| MetaClient.MetaApiClient.HandlePagination | src/meta_api_client.py:212-284 | the call raises exactly when the first request does not answer; otherwise the items are the first page followed by each next page up to the first non-200 page; the wait and the request time move by exactly the tries of the first request (later pages bypass the throttle); only a successful ad listing sets the ad-discovery count |
| MetaClient.FlattenAppend | src/meta_api_client.py:2397 | concatenating the batches one more at a time concatenates their ads |
| MetaClient.Stage1Members | src/meta_api_client.py:2343-2390 | an ad is kept by stage 1 exactly when it is in the listing, was created on or before the cutoff, and passes the adset/campaign scope rule (no filter: all; one filter: that one; both: either) |
| MetaClient.MetaApiClient.FindEligibleAds | src/meta_api_client.py:2306-2467 | a listing that raises or is empty, a creation time strptime rejects, or a spend query that raises gives []; otherwise the batches hold exactly the stage-1 ads, 50 per batch except the last, and the result is the collected ads stably sorted by spend, highest first; the wait and the request time end where the listing and then the spend queries, up to the first that raised, leave them |
| MetaClient.FilterByCreation | src/meta_api_client.py:2343-2390 | the loop gives up exactly when some creation time does not parse, and otherwise returns stage 1 in listing order |
| MetaClient.Chunk | src/meta_api_client.py:2397 | the batches concatenate back to the input, are non-empty and hold at most 50 ads, and all but the last hold exactly 50 |
| MetaClient.MetaApiClient.QueryBatches | src/meta_api_client.py:2404-2456 | the outer loop collects the matched ads of every batch, batch after batch, and gives up exactly when some batch's spend query raised; the throttle moves through each query made, and no query follows a failed one |
| MetaClient.MatchBatch | src/meta_api_client.py:2422-2451 | the inner loop keeps, in answer order, the spend rows that name an ad of the batch, formatted from the row and that ad |
| MetaClient.FirstWithId | src/meta_api_client.py:2427 | the match is the first ad of the batch with that id, and none is found only when no ad of the batch has it |
| MetaClient.CollectedAboveMin | src/meta_api_client.py:2418-2452 | every eligible ad spent strictly more than the minimum, provided the endpoint honours the strict GREATER_THAN spend filter the request sends |
| MetaClient.CollectedFromBatches | src/meta_api_client.py:2429-2451 | whatever the endpoint answers, each eligible ad carries the id, creation time and status of a listed ad of the batches |
| MetaClient.SpendWindow | src/meta_api_client.py:2311-2313 | both ends of the spend window are valid dates |
| MetaClient.SpendWindowSpan | src/meta_api_client.py:2311-2313 | the spend window ends yesterday, spans exactly `days` days, and starts on the creation cutoff |
| MetaClient.EligibleByExactDate | src/meta_api_client.py:317-326 | the loop keeps, in order, the ads whose date part equals the target date text |
| MetaClient.ExactDateMeaning | src/meta_api_client.py:293-326 | every ad kept by the exact-date filter was created exactly `days` days before today |
| MetaClient.Take | src/meta_api_client.py:1184 | Python's `s[:k]`: a prefix of s, of length k when 0 <= k <= len(s), and all of s when k >= len(s) |
| MetaClient.GetAnyRecentAds | src/meta_api_client.py:1162-1187 | the result keeps the ACTIVE and PAUSED ads in order, cut to twice the limit when a positive minimum spend is given, then to the limit |
| MetaClient.RecentAdsPrecutHarmless | src/meta_api_client.py:1175-1184 | for a non-negative limit the two-times-limit pre-cut changes nothing: the result is the first `limit` active or paused ads |
| MetaClient.Blanked | src/meta_api_client.py:844-846 | an empty string becomes None and any other value is kept |
| MetaClient.CleanCreative | src/meta_api_client.py:844-853 | the loop and the two backfills compute the clean-up |
| MetaClient.CleanedMeaning | src/meta_api_client.py:844-853 | after the clean-up no value is "", the keys grow only by a backfilled body or title, other values are only blanked, and a second clean-up changes nothing |
| PerformanceAnalysis.BenchmarksFrom | src/performance_analyzer.py:40-100 | with a client and non-empty insights the market is the client's region and the seven benchmark keys are read, cpa from cost_per_conversion; otherwise the benchmarks are empty and the market is "Error" after an exception, else "Unknown" |
| PerformanceAnalysis.DeltaPolarity | src/performance_analyzer.py:124-158 | a positive delta means strictly better than a positive benchmark (higher for ctr, roas and the rates; lower for cpa and cpm) and a negative one strictly worse; a missing value or benchmark gives 0 |
| PerformanceAnalysis.Ratio | src/performance_analyzer.py:126-132 | a ratio to a positive benchmark exceeds 1 exactly when the value exceeds the benchmark |
| PerformanceAnalysis.DeltaIsPercentage | src/performance_analyzer.py:124-158 | every delta is the exact percentage gap to a positive benchmark: a higher-is-better delta is p exactly when the value is the benchmark times 1 + p/100, and a lower-is-better delta is p exactly when the benchmark is the value times 1 + p/100 |
| PerformanceAnalysis.ScoreOfEqualDeltas | src/performance_analyzer.py:162-172 | the six weights add up to one: equal deltas score their common value |
| PerformanceAnalysis.ScoreMonotone | src/performance_analyzer.py:162-180 | better deltas never lower the weighted score or the rating |
| PerformanceAnalysis.NoBenchmarksIsAverage | src/performance_analyzer.py:119-180 | without benchmarks every delta is 0 and the ad is rated Average |
| PerformanceAnalysis.CountPositive | src/performance_analyzer.py:184-185 | the count never exceeds the number of key metrics, and equals it exactly when every key metric is present and positive |
| PerformanceAnalysis.Stability | src/performance_analyzer.py:184-186 | the stability score lies in [0, 100], is 100 exactly when all six metrics are present and positive, and 0 exactly when none is |
| PerformanceAnalysis.SegmentNameClean | src/performance_analyzer.py:227-228 | a segment name contains no '-', '_' or '+' |
| PerformanceAnalysis.SegmentNameLowerCase | src/performance_analyzer.py:227-228 | a segment name contains no capital letter |
| PerformanceAnalysis.LowerCharNotCapital | src/performance_analyzer.py:228 | lower-casing a character never leaves a capital |
| PerformanceAnalysis.ReplaceNoCapitals | src/performance_analyzer.py:228 | replacing a character by lower-case text keeps a lower-case string lower-case |
| PerformanceAnalysis.SegmentMetricsOf | src/performance_analyzer.py:245-263 | ctr and cpm are 0 without impressions, cpa and conversion rate are 0 without conversions, the conversion rate is 0 without clicks |
| PerformanceAnalysis.SegmentOf | src/performance_analyzer.py:225-294 | an analysed segment is named by its normalised age and gender |
| PerformanceAnalysis.Analysed | src/performance_analyzer.py:224-294 | one analysed segment per breakdown row, in input order |
| PerformanceAnalysis.Reverse | src/performance_analyzer.py:302 | the reversed list holds the same segments in the opposite order |
| PerformanceAnalysis.BestWorstOrder | src/performance_analyzer.py:296-302 | from three segments on, the best three come highest score first and the worst three lowest score first, starting with the lowest of all |
| PerformanceAnalysis.FewSegmentsBestIsLowest | src/performance_analyzer.py:300-302 | with one or two segments the best and worst lists are one list, reversed in place, so the "best" segment is the lowest-scoring one |
| PerformanceAnalysis.Names | src/performance_analyzer.py:325-326 | the names are listed in the order of the segments |
| PerformanceAnalysis.WithContributions | src/performance_analyzer.py:305-317 | each segment keeps its data and gains its percentage share of the total spend and of the total conversions, 0 when a total is not positive |
| PerformanceAnalysis.SpendSharesSum | src/performance_analyzer.py:305-312 | the spend shares add up to the segments' spend over the total, in percent |
| PerformanceAnalysis.ShareAdds | src/performance_analyzer.py:310 | shares of one total add like their parts |
| PerformanceAnalysis.SpendSharesAddUp | src/performance_analyzer.py:305-312 | with positive total spend the spend contributions add up to 100 |
| PerformanceAnalysis.SpendSharesOnly | src/performance_analyzer.py:309-317 | the spend shares do not depend on the conversion total |
| PerformanceAnalysis.ByName | src/performance_analyzer.py:320-322 | the performance map has exactly the segment names as keys |
| PerformanceAnalysis.ByNameLastWins | src/performance_analyzer.py:320-322 | a name maps to the last segment carrying it |
| PerformanceAnalysis.SegmentsOf | src/performance_analyzer.py:213-219 | without an age_gender breakdown the analysis is empty |
| PerformanceAnalysis.SegmentsPicked | src/performance_analyzer.py:296-302 | from three segments on there are three best and three worst names; below that the two lists are the same and name every segment |
| PerformanceAnalysis.SegmentsKeyed | src/performance_analyzer.py:320-328 | the performance map holds one entry per distinct segment name |
| PerformanceAnalysis.KeysNamed | src/performance_analyzer.py:320-322 | keying segments by name gives exactly the given names as keys |
| PerformanceAnalysis.PerformanceAnalyzer.constructor | src/performance_analyzer.py:29-37 | the analyzer keeps whether it has a client and its region, with no benchmarks yet |
| PerformanceAnalysis.PerformanceAnalyzer.CalculateBenchmarks | src/performance_analyzer.py:40-100 | returns the benchmarks of the insights; only real benchmarks are stored, a placeholder leaves the stored ones as they were |
| PerformanceAnalysis.PerformanceAnalyzer.EnsureBenchmarks | src/performance_analyzer.py:114-116 | benchmarks are computed once, on first use, and only when there is a client |
| PerformanceAnalysis.PerformanceAnalyzer.CompareToBenchmarks | src/performance_analyzer.py:102-199 | computes the benchmarks lazily, then compares the ad's metrics with them |
| PerformanceAnalysis.PerformanceAnalyzer.AnalyzeSegments | src/performance_analyzer.py:201-333 | the segment analysis against the segment benchmarks; empty without an age_gender breakdown |
| PerformanceAnalysis.PerformanceAnalyzer.AnalyzePerformance | src/performance_analyzer.py:335-374 | the comparison and the segments together; rating and score come from the comparison, the best segment is the first best name or "Unknown", and missing ids and names get their defaults |
| PerformanceAnalysis.AnalysedStep | src/performance_analyzer.py:225-294 | one more breakdown row appends its analysed segment |
| PerformanceAnalysis.AnalyseEach | src/performance_analyzer.py:224-294 | the loop analyses every row, in order |
| PerformanceAnalysis.IndexByName | src/performance_analyzer.py:320-322 | the loop builds the map by name, later segments replacing earlier ones |
| PerformanceAnalysis.AddContributions | src/performance_analyzer.py:308-317 | the loop writes each segment's spend and conversion shares |
| DataValidation.DataValidator.constructor | src/data_validator.py:28-37 | the validator keeps the spend and days thresholds it is given |
| DataValidation.MissingFieldsMeaning | src/data_validator.py:117-120 | a top-level field is reported missing exactly when it is one of the five required fields and absent or falsy; at most one report per field |
| DataValidation.MissingMetricsMeaning | src/data_validator.py:122-127 | a metric is reported missing exactly when it is one of the seven required metrics and `in` finds it absent from the metrics section (for a dictionary: not one of its keys) |
| DataValidation.DataValidator.CheckRequiredFields | src/data_validator.py:105-137 | the loops report the missing fields, then the missing metrics (only when there is a metrics section), then the breakdown issue, in that order; the check raises exactly when `in` is undefined on the metrics or breakdowns, or breakdowns that are not a dictionary hold age_gender and are indexed by it |
| DataValidation.NegativeValuesAreAnomalies | src/data_validator.py:210-213 | every negative-value report names a present core metric whose value is below zero |
| DataValidation.AnomaliesAreAnomalies | src/data_validator.py:197-223 | every issue the anomaly check reports is an anomaly, and an ad without metrics has none |
| DataValidation.RequiredAreNotAnomalies | src/data_validator.py:105-137 | no missing-field, missing-metric or breakdown issue is an anomaly |
| DataValidation.DataValidator.CheckAnomalies | src/data_validator.py:187-223 | the anomalies in check order: CTR above 10, zero impressions with spend, negative core metrics, conversions above positive clicks, ROAS above 20; it raises exactly when the metrics are not a dictionary or one of the eight compared metrics holds a non-number |
| DataValidation.DataValidator.SpendThresholdInclusive | src/data_validator.py:149-153 | spend exactly at the threshold is read without raising and passes the spend check |
| DataValidation.DataValidator.OldEnoughPasses | src/data_validator.py:155-185 | an ad created at least days-threshold days before today, written YYYY-MM-DD, passes the timeframe check |
| DataValidation.DigitsHaveNoT | src/data_validator.py:172-175 | a formatted date holds no 'T', so the plain branch of the timeframe parse applies to it |
| DataValidation.DataValidator.AnomaliesOnlyFlag | src/data_validator.py:92-96 | for a valid ad every issue is an anomaly; an ad is invalid exactly when its first issue is not an anomaly |
| DataValidation.DataValidator.ValidateAdData | src/data_validator.py:61-103 | it raises exactly when the required-field, spend or anomaly check raises; otherwise the flag is "nothing required missing, spend and timeframe pass" and the issue list is required issues, spend failure, timeframe failure, anomalies |
| DataValidation.DataValidator.ValidateAd | src/data_validator.py:40-59 | it raises exactly when validate_ad_data does; otherwise the verdict carries the flag and, exactly when invalid, the first issue as reason, which is never an anomaly |
| DataValidation.KeyOfMeaning | src/data_validator.py:249 | two hashable ids share one entry of the issues dict exactly when Python finds them equal (True, 1 and 1.0 are one key) |
| DataValidation.DataValidator.ValidateMultipleAds | src/data_validator.py:225-260 | it raises exactly when validating some ad raises or some invalid ad's id is a list or a dict (unhashable); otherwise the loop builds the ad-by-ad split and the three counts agree with the lists and add up to the number of ads |
| DataValidation.DataValidator.SplitCounts | src/data_validator.py:253-260 | valid_count and invalid_count are the list lengths and add up to total_ads |
| DataValidation.DataValidator.SplitKeepsValid | src/data_validator.py:241-246 | only ads of the input that pass validation are kept as valid |
| DataValidation.DataValidator.SplitIssueKeys | src/data_validator.py:247-249 | the issue map is keyed by exactly the ids of the invalid ads, ids that compare equal sharing one key |
| DataValidation.DataValidator.SplitIssueSource | src/data_validator.py:242-249 | each issue entry holds the issues of the last invalid input ad whose id files under that key |
| DataValidation.In | src/data_validator.py:124-131 | Python's `in` answers for dictionaries (key membership), texts and lists, and is undefined (raises) for every other value |
| DataValidation.DetailedRecordsCheckable | src/meta_api_client.py:1053-1108 | a record assembled by get_complete_ad_data, whose metrics come from get_detailed_ad_metrics (a row or the empty template) and whose breakdowns are a dictionary, is validated without raising, whatever its rankings and video data hold |
| DataValidation.DerivedAreNumbers | src/meta_api_client.py:664-677 | the derived cpm, cpa and roas of detailed metrics are always numbers (a rate or the integer 0) |
| DataValidation.DetailedDictNumbers | src/meta_api_client.py:622-701 | once cpm, cpa and roas are numbers, every metric the validator compares holds a number in the detailed-metrics dictionary |
| Pipeline.ReadableOutside | src/pipeline_manager.py:887-942 | filling in only the required metrics changes none of the numbers the rate rules read |
| Pipeline.FillFrom | src/pipeline_manager.py:940-942 | the keys afterwards are the old keys plus the required ones; old values are kept and only missing keys get 0 |
| Pipeline.RoundedMeaning | src/pipeline_manager.py:726-737 | the rounding pass keeps the keys, leaves every float outside the kept keys on two decimal places, and leaves kept keys and non-floats unchanged |
| Pipeline.RoundedIdempotent | src/pipeline_manager.py:726-737 | a second rounding pass changes nothing |
| Pipeline.FillFromStep | src/pipeline_manager.py:940-942 | one more required key adds 0 only when that key is missing |
| Pipeline.FillRequired | src/pipeline_manager.py:719-721 | the loop fills exactly the missing required metrics with 0 |
| Pipeline.DropFields | src/pipeline_manager.py:708-710 | the loop deletes exactly the listed keys that are present and keeps every other entry |
| Pipeline.RoundFloats | src/pipeline_manager.py:726-737 | the key-by-key loop gives the rounded dictionary |
| Pipeline.WithRates | src/pipeline_manager.py:891-921 | only the two rates can be added; every existing key keeps its value |
| Pipeline.FillDerived | src/pipeline_manager.py:926-942 | only the required metrics are added, the keys become the old ones plus the required ones, and existing values are kept |
| Pipeline.FillDerivedValues | src/pipeline_manager.py:926-937 | a missing cpc becomes spend/clicks (0 without spend), a missing click_to_reg becomes conversions/clicks in percent (0 without conversions), and both become 0 without clicks |
| Pipeline.EnsureTop | src/pipeline_manager.py:887-942 | the top-level metrics gain every required metric, keep every value they had, and change nothing else |
| Pipeline.EnsureEntry | src/pipeline_manager.py:948-1000 | an entry fails exactly when it needs the unbound top-level `video_p25`; otherwise it gains the required metrics and keeps every value it had |
| Pipeline.EntryRates | src/pipeline_manager.py:950-981 | only the two rates are added to an entry, and existing values are kept |
| Pipeline.EnsureEntries | src/pipeline_manager.py:947-1000 | on success each entry is back-filled in place, in order |
| Pipeline.EntriesExtend | src/pipeline_manager.py:948-1000 | the entries back-filled so far plus the last one are the whole list back-filled |
| Pipeline.EnsureEntriesFails | src/pipeline_manager.py:947-1000 | the entry loop fails exactly when some entry needs the unbound `video_p25` |
| Pipeline.EnsureList | src/pipeline_manager.py:945-1056 | a back-filled breakdown list has the same length, and every entry has the required metrics and its old values |
| Pipeline.EnsureRequired | src/pipeline_manager.py:874-1056 | on success the record has the required metrics at the top level and in every age_gender and platform entry, with no old value changed and nothing else touched |
| Pipeline.EnsureRequiredFails | src/pipeline_manager.py:901-1016 | the back-fill raises exactly when some breakdown entry lacks a hook rate and has positive impressions and video views, while the top-level metrics did not bind `video_p25` |
| Pipeline.EnsureEntriesInPlace | src/pipeline_manager.py:947-1000 | the loop over the entries stops at the first failure and otherwise gives every entry back-filled |
| Pipeline.EnsureEntriesStep | src/pipeline_manager.py:948-1000 | one more successful entry extends the back-filled prefix by that entry |
| Pipeline.EnsureEntriesStop | src/pipeline_manager.py:948-1000 | a failure at one entry fails the whole list with the same error |
| Pipeline.PrefixErrStays | src/pipeline_manager.py:948-1000 | once a prefix of the entries fails, the whole list fails the same way |
| Pipeline.EnsureRequiredMetrics | src/pipeline_manager.py:874-1056 | the in-place back-fill, list by list, gives the specified record or error |
| Pipeline.RecomputeTop | src/pipeline_manager.py:671-705 | recomputing the top-level rates changes no other key |
| Pipeline.RecomputeEntry | src/pipeline_manager.py:745-779 | recomputing an entry's rates changes no other key |
| Pipeline.FilterAd | src/pipeline_manager.py:659-870 | the filtered copy keeps the analysis result and the untouched keys, and fails whenever the back-fill fails |
| Pipeline.FilterAll | src/pipeline_manager.py:628-872 | one filtered copy per record, in order; the call fails exactly when some record fails |
| Pipeline.RequiredNotDenied | src/pipeline_manager.py:641-645 | no required metric is on the metrics deny list |
| Pipeline.CleanMetricsKeys | src/pipeline_manager.py:666-737 | the filtered metrics hold exactly the keys that came in or are required, minus the denied ones |
| Pipeline.FilledKeys | src/pipeline_manager.py:708-721 | dropping the denied keys then filling the required ones leaves exactly the old or required keys that are not denied |
| Pipeline.CleanMetricsRounded | src/pipeline_manager.py:726-737 | every float in the filtered metrics other than the two rates is on two decimal places |
| Pipeline.CleanMetricsKeepsOthers | src/pipeline_manager.py:708-737 | integers and non-numbers that came in, and are neither denied nor rates, come out unchanged |
| Pipeline.CleanMetricsRates | src/pipeline_manager.py:671-705 | with positive impressions the output rates are recomputed from the metrics as they came in, overriding any rate already there |
| Pipeline.CreativeMeaning | src/pipeline_manager.py:865-868 | only the listed creative fields are removed; every other one survives unchanged |
| Pipeline.PlatformWithoutAgeGenderFails | src/pipeline_manager.py:831-848 | a platform breakdown without an age_gender one makes the filter raise |
| Pipeline.AgeGenderUnroundedWithoutPlatform | src/pipeline_manager.py:740-848 | without a platform breakdown the age_gender entries get their rates recomputed but are neither filled nor rounded |
| Pipeline.CleanEntries | src/pipeline_manager.py:832-862 | each entry of a breakdown list gets the required metrics and its floats rounded, in order |
| Pipeline.FilterOne | src/pipeline_manager.py:659-870 | the in-place edits of one deep copy give the specified filtered record or error |
| Pipeline.FilterFieldsForJson | src/pipeline_manager.py:628-872 | the loop gives one filtered copy per record in order, or the first failure |
| Pipeline.FilterAllStep | src/pipeline_manager.py:659-870 | filtering from one record on is filtering that record, then the rest |
| Pipeline.SumBounds | src/pipeline_manager.py:1075-1080 | scores between two bounds sum to between the count times each bound |
| Pipeline.MeanBounds | src/pipeline_manager.py:1075-1080 | the average score lies between any lower and upper bound of the scores |
| Pipeline.DivBetween | src/pipeline_manager.py:1080 | dividing a sum bounded by n·lo and n·hi by n gives a value between lo and hi |
| Pipeline.TopPerformersRanked | src/pipeline_manager.py:1082-1114 | at most five top performers, taken from the performers, best first, none outscored by a performer left out |
| Pipeline.BottomPerformersRanked | src/pipeline_manager.py:1096-1115 | at most five bottom performers, taken from the performers, worst first, none scoring above a performer left out |
| Pipeline.TopOfSorted | src/pipeline_manager.py:1114-1115 | the first five of a sorted list rank at least as high as all the others |
| Pipeline.CompleteRun | src/pipeline_manager.py:604-626 | the rounded duration is recorded; a missing or zero ad count becomes successes plus errors, a non-zero one is kept, and nothing else changes |
| Pipeline.CompleteRunCount | src/pipeline_manager.py:616-622 | the ad count is zero afterwards only when nothing succeeded or failed, and completing a run twice keeps the count |
| SheetsFormatting.LaunchedFromTimestamp | src/sheets_formatter.py:64-71 | a creation time written as a date, 'T' and a time is shown as that date in MM/DD/YYYY order |
| SheetsFormatting.DatePartPrefix | src/sheets_formatter.py:68 | the text before the first 'T' is the date part |
| SheetsFormatting.StatusActionRanges | src/sheets_formatter.py:81-91 | Winning exactly from 20 up, Losing exactly from -20 down, Average strictly between; the action follows the status |
| SheetsFormatting.CprValue | src/sheets_formatter.py:94 | the cost per result is cpr when that is truthy, else cpa |
| SheetsFormatting.FallbacksOnlyReplaceZero | src/sheets_formatter.py:143-183 | a non-zero ctr, cpm, cpc, hook rate or view-through rate is always kept; without impressions cpm is kept, without clicks cpc and ctr are kept |
| SheetsFormatting.LowestCpr | src/sheets_formatter.py:107-109 | the chosen convertor is one of them, none has a lower cpr (a missing cpr counting as infinite), and it is the first with its cpr |
| SheetsFormatting.HighestCtr | src/sheets_formatter.py:114 | the chosen segment has the highest ctr and is the first to have it, as a stable descending sort puts it first |
| SheetsFormatting.Convertors | src/sheets_formatter.py:107 | exactly the segments with conversions above 0 |
| SheetsFormatting.Demographics | src/sheets_formatter.py:100-121 | the demographic lines are never empty: the placeholder stands in when no pattern was found |
| SheetsFormatting.AiAnalysis | src/sheets_formatter.py:125-133 | the analysis lines are never empty: the placeholder stands in for a missing or empty summary |
| SheetsFormatting.FormatEntry | src/sheets_formatter.py:50-209 | a row exists exactly when both the ad data and the analysis are non-empty; it carries the status and action of the score, the cost per result, a zero change, non-empty texts and numeric cells |
| SheetsFormatting.Present | src/sheets_formatter.py:56-58 | only present rows are kept, each one from the input |
| SheetsFormatting.PresentComplete | src/sheets_formatter.py:56-58 | with nothing skipped, every row is kept in its place |
| SheetsFormatting.PresentNone | src/sheets_formatter.py:56-58 | with everything skipped, nothing is kept |
| SheetsFormatting.Entries | src/sheets_formatter.py:50-209 | one optional row per ad, in order |
| SheetsFormatting.FormatAllFrom | src/sheets_formatter.py:48-212 | there are at most as many rows as ads, and every row is the row of one of the ads |
| SheetsFormatting.FormatAllComplete | src/sheets_formatter.py:48-212 | with no ad skipped, row i is the row of ad i |
| SheetsFormatting.FormatAllNone | src/sheets_formatter.py:56-58 | with every ad skipped there are no rows |
| SheetsFormatting.FormatAllNumeric | src/sheets_formatter.py:136-183 | every row holds numbers in the cells the formula step formats |
| SheetsFormatting.FormatAdDataForSheets | src/sheets_formatter.py:37-212 | the loop skips the ads with empty data or analysis and keeps the others' rows in input order |
| SheetsFormatting.NatText | src/sheets_formatter.py:249 | the decimal text is non-empty, all digits, and reads back as the number |
| SheetsFormatting.Fixed2Reads | src/sheets_formatter.py:249-275 | a non-negative amount is written as digits, '.', two digits, which read back as the amount rounded to cents |
| SheetsFormatting.NameFormula | src/sheets_formatter.py:228-230 | a HYPERLINK formula of link and name when there is a link, else the plain name |
| SheetsFormatting.BulletsStart | src/sheets_formatter.py:236-240 | a non-empty list of lines is written starting with a bullet |
| SheetsFormatting.SheetsRow | src/sheets_formatter.py:226-284 | the sheets row keeps the display row whole and adds the name formula built from its link and name |
| SheetsFormatting.CreateSheetsFormulas | src/sheets_formatter.py:214-286 | one sheets row per display row, built from it, in the same order |
| SheetsFormatting.Cells | src/sheets_formatter.py:363-385 | a row has one cell per header column, 14 in all |
| SheetsFormatting.Grid | src/sheets_formatter.py:363-387 | the header first, then one 14-cell row per ad in order, row i+1 being ad i's cells |
| SheetsFormatting.FormatForSheetsApi | src/sheets_formatter.py:352-387 | the loop builds the header and one 14-cell row per ad, in order |
| SheetsManagement.RegionOrDefault | src/sheets_manager.py:87-90 | the manager's region is always one of the six valid codes; it is the region asked for exactly when that one is valid, and GBR otherwise |
| SheetsManagement.FirstMatch | src/sheets_manager.py:486-489 | the search returns the first row at or after the start whose first cell is the key, and None exactly when no such row exists |
| SheetsManagement.FindRow | src/sheets_manager.py:485-489 | the loop with its early break finds the same row as the search specification |
| SheetsManagement.DashboardRow | src/sheets_manager.py:481-492 | the dashboard row of a date is a 1-based row no further than the next free row |
| SheetsManagement.AdDetailsRow | src/sheets_manager.py:861-872 | the ad-details row of an ad is a 1-based row no further than the next free row |
| SheetsManagement.AdDetailsSkipsHeader | src/sheets_manager.py:865 | when column A is not empty, an ad-details update never writes over the header row |
| SheetsManagement.Written | src/sheets_manager.py:500-505 | writing a row replaces exactly that row of column A, or appends one row just past the end, and leaves every other row alone |
| SheetsManagement.WrittenIsFound | src/sheets_manager.py:485-492 | after the key is written at the row the search chose, the same search finds exactly that row |
| SheetsManagement.FirstMatchAt | src/sheets_manager.py:486-489 | a matching row with no match before it is the one the search returns |
| SheetsManagement.DashboardUpsertStable | src/sheets_manager.py:481-492 | a second dashboard update for the same date writes the same row, so dates are not duplicated |
| SheetsManagement.AdDetailsUpsertStable | src/sheets_manager.py:861-872 | below a header, a second update for the same ad writes the same row, so ads are not duplicated |
| SheetsManagement.AdDetailsEmptyTabDuplicates | src/sheets_manager.py:865-872 | on an empty tab the first ad goes to row 1, which the next search skips, so the next update for it appends a second row |
| SheetsManagement.BatchStartIsNextRow | src/sheets_manager.py:1203-1208 | a batch always starts at the next free row, and starts at row 1 exactly when column A is empty |
| SheetsManagement.BatchBody | src/sheets_manager.py:1211-1213 | the header row goes out only when the batch starts at row 1; otherwise the body is the grid without its header |
| SheetsManagement.Background | src/sheets_manager.py:927-935 | a new row is painted either grey or white |
| SheetsManagement.BackgroundAlternates | src/sheets_manager.py:927-935 | adjacent rows get different backgrounds and the pattern repeats every two rows |
| SheetsManagement.ColourMatchesStatus | src/sheets_manager.py:938-944 | the performance cell is green exactly for Winning ads, red exactly for Losing ones and uncoloured exactly for Average ones |
| SheetsManagement.DashboardCells | src/sheets_manager.py:464-472 | a dashboard row has seven cells, starting with the date, the number of ads analysed and the average score |
| SheetsManagement.LeaderIsBest | src/sheets_manager.py:454-456 | given a top selection ranked by score, the top performer shown has the best score of the whole list, or is "None" with 0 when there are none |
| SheetsManagement.LeaderIsWorst | src/sheets_manager.py:459-461 | given a bottom selection ranked by score, the bottom performer shown has the worst score of the whole list, or is "None" with 0 when there are none |
| SheetsManagement.DashboardShowsBest | src/sheets_manager.py:454-456 | for the summary the pipeline prepares, the top performer shown has the best score of all performers |
| SheetsManagement.DashboardShowsWorst | src/sheets_manager.py:459-461 | for the summary the pipeline prepares, the bottom performer shown has the worst score of all performers |
| SheetsManagement.SheetsManager.constructor | src/sheets_manager.py:68-90 | a new manager keeps a valid region, falling back to GBR |
| SheetsManagement.SheetsManager.TabName | src/sheets_manager.py:208-223 | the Ad Details tab is named after the region alone; every other tab is the region, an underscore and the base name |
| SheetsManagement.SheetsManager.UpdateDashboard | src/sheets_manager.py:425-520 | the dashboard update writes the region's dashboard tab at the date's row, with the summary's cells; the row is formatted exactly when the requests succeed, it was appended and the tab's sheet id is known and non-zero; the result is False exactly when a request fails |
| SheetsManagement.SheetsManager.UpdateAdDetails | src/sheets_manager.py:775-896 | the ad-details update writes the region's tab at the ad's row; the row gets its alternating background and performance colour exactly when the requests succeed, it was appended and the tab's sheet id is known and non-zero; the result is False exactly when a request fails |
| SheetsManagement.SheetsManager.UpdateAdDetailsBatch | src/sheets_manager.py:1159-1233 | without a sheet id every ad counts as an error and nothing is written; otherwise the rows written from the next free row are the grid of the formatted ads with their formulas (the header only on an empty tab), and all formatted ads count as successes or, when the request fails, as errors |
| SheetsManagement.RegionsKeepApart | src/sheets_manager.py:208-223 | managers of two different valid regions never write to the same tab |
| SheetsManagement.TabNamesDistinct | src/sheets_manager.py:208-223 | within one manager, different base tabs get different tab names |


## Left out

- Numbers are exact reals. Binary floating point is not modelled: the model
  makes no claim of bit-exact agreement with Python floats. `round(x, 2)`
  is half-to-even rounding of the exact value. `int(impressions * 0.35)` is
  truncation of the exact product.
- `f"{x:.2f}"` is modelled on the exact value, rounded half-to-even to
  cents. Python's "-0.00" for small negative values is not reproduced.
- Network calls and Google API calls are not modelled: `requests.get`, page
  fetching, `test_connection`, `get_account_info`, `get_benchmark_data`,
  authentication, spreadsheet and tab creation, and every `batchUpdate` or
  `values().update` payload (chart, format and data-validation bodies). Their
  replies, the sheet id and whether a request succeeds are parameters.
- `time.sleep`, `time.time` and `datetime.now` are parameters: the current
  time, "today" and the run duration.
- Logging, console output and message texts are not modelled. Validation
  issues are tagged values, not the source's sentences.
- Exceptions that the source catches and logs are modelled as `Err` or
  `None`. Their messages are not.
- The retry in `_make_api_request` is unbounded recursion. It is modelled
  over a finite sequence of replies: the outcome is "out of tries" when
  every reply is a rate-limit reply. Pagination treats that outcome as a
  request that raised, as the recursion limit eventually makes it.
- In-place mutation of the deep copies in `_filter_fields_for_json` and
  `_ensure_required_metrics` is modelled on values. Nothing else can see
  those copies, so aliasing does not arise. Key order in the resulting
  dictionaries, and so in the JSON, is not modelled.
- Sheets' `USER_ENTERED` re-interpretation of written cells is not
  modelled. The cells are the strings and values the code sends.
- SheetsFormatting.SheetsRow: reads a non-numeric cell as 0. Every row
  that `format_ad_data_for_sheets` produces has numeric cells
  (`FormatAllNumeric`), so this case never arises.
- Pipeline.EnsureRequired: requires the fields the back-fill compares with
  0 to hold numbers (`AdReadable`). On other data Python raises a
  `TypeError` inside the comparison; that failure is not modelled.
- Pipeline.FilterAll: requires `AdReadable` of every record, for the same
  reason.
- Pipeline.PrepareDashboardSummary: requires each score to be a number
  (`ScoreReadable`). Python's `sorted` and `sum` would raise on other data.
- SheetsFormatting.FormatAdDataForSheets: requires the metrics it compares
  and formats to hold numbers, and its texts to be strings
  (`EntryReadable`). Python would raise on other data.
- The nested `video` branch of `get_ad_metrics` is not modelled. That
  dictionary never holds a `video` key at that point, so the branch is dead.
- `export_to_csv` (pandas and the file system) is not modelled, nor is
  writing the JSON and result files in `run_pipeline`.
- The rest of `run_pipeline` is not modelled: object construction, the
  try/except glue and the prints. Its per-ad error count is captured by
  `_complete_run`.
- The console formatting helpers and `FormattedConsoleHandler` are not
  modelled. Its counters are kept only for the ad-discovery count in
  pagination.
- `get_campaign_insights` and `get_adset_insights` repeat the per-day
  aggregation of `get_account_insights`, so it is modelled once.
- `config/settings.py` is not modelled. The day threshold, the spend
  threshold and the region account ids are parameters.
- The scripts under tests/ drive the live API and assert nothing, so they
  are not modelled.
- DataValidation: an exception raised inside validate_ad_data (by `in`,
  `.get` or an order comparison on data of the wrong type) is modelled as
  the `Raised` outcome, or None. Which exception it is, and its message,
  are not modelled.
- MetaClient.CollectedAboveMin: the strict spend bound is stated under
  `HonoursFilter`, the assumption that the insights endpoint only returns
  rows matching the GREATER_THAN spend filter of the request. The code
  itself does not re-check the spend, so the model does not either.
- MetaClient.FindEligibleAds: a spend row's spend is a number or absent.
  A spend text that `float()` rejects would raise and end the search with
  [], but it cannot be expressed in the model.
- Common.Lower: lower-cases ASCII letters only. Python's `str.lower` also
  lower-cases other letters and can change the length of the text (for
  example 'İ' becomes two characters). Segment names are ASCII.
- MetaFields.IntOf: a numeric field is held as a number, whether the API
  sent it as text or not. Python's `int()` of a text with a fraction
  (`int("12.5")`) raises `ValueError`, whereas the model truncates. The
  API sends counts as whole numbers.
- SheetsManagement.LeaderName: writes the ad_name value itself. The
  source writes its `str()` text, which differs only when ad_name is not
  a string.
- DataValidation.DataValidator.ValidateMultipleAds: the issues map files
  each id under `KeyOf`, the integer for True, 1 and 1.0 alike. A Python
  dict keeps whichever of the equal ids came first as its key; which one
  is not modelled, only the entry it names and the issues it holds.
