# Solaris scoring, energy aggregation and subsidy journey in Dafny

Solaris is a Flask web application that helps households in India plan a rooftop
solar installation. This project models four parts of its core and proves
properties of that model.

- **Scoring formulas** (`app/utils/ml_scoring.py`), module `MlScoring`:
  - a 0–100 subsidy-scheme match score built from six weighted features;
  - a 0–100 vendor score;
  - a savings, payback and CO2 projection;
  - a keyword-count sentiment score for review text.
- **Vendor recommendation** (`app/utils/vendors.py`), module `Vendors`:
  - the static installer table;
  - a per-vendor score normalised against the table's price extremes;
  - up to three recommendation reasons from a fixed list of rules;
  - the ranking that copies the table, sorts it by score (descending, stable) and
    flags every vendor within 85% of the top score.
- **Energy dashboard aggregation** (`app/utils/energy.py`, `build_energy_context`),
  module `Energy`:
  - energy logs are bucketed per day into generation, consumption, export and revenue;
  - the days are listed in date order, rounded to two decimals, and totalled;
  - the dashboard insights are derived from the series.
- **Subsidy journey** (`app/subsidy/routes.py`), module `Subsidy`:
  - the three-step wizard kept in a session journey;
  - the user fields the results page writes;
  - the scheme filters and the filter links;
  - the annual-savings estimate.

Shared modules:

- `Wrappers`: `Option` and Python truthiness.
- `Numeric`: min/max/clamp, and Python's `round` as exact round-half-to-even on
  reals, with its error bound and monotonicity.
- `Text`: ASCII `lower`, `title`, substring and `join`.
- `Seqs`: order-preserving subsequences.

Form of the model:

- Pure computations are functions. The properties the source promises are
  proved about them as lemmas.
- The loops of the source are methods, each proved equal to its specification
  function:
  - the per-log loop of `build_energy_context` (`Energy.Aggregate`);
  - its insight list (`Energy.BuildInsights`);
  - the scoring and flagging loops of `get_recommended_vendors`
    (`Vendors.RankVendors`, with the flagging loop in `Vendors.FlagInPlace`);
  - `build_filter_links` (`Subsidy.BuildFilterLinks`, with the corrected
    `active` flag).
- The session journey and the signed-in user's fields, which the handlers update
  in place, are the fields of the class `Subsidy.Wizard`.

## Model

| member | source | states |
|---|---|---|
| Numeric.RoundHalfEven | app/utils/ml_scoring.py:99 | Python 3 rounding to an integer: within one half of the input, strictly nearer off a tie, and a tie goes to the even neighbour |
| Numeric.Round | app/utils/ml_scoring.py:99 | `round(x, p)` moves `x` by at most half a unit in the `p`-th decimal |
| Numeric.RoundMonotone | app/utils/ml_scoring.py:164 | rounding preserves order |
| Numeric.RoundWithin | app/utils/ml_scoring.py:164 | rounding keeps a value inside an interval with whole-number ends |
| Text.Lower | app/utils/energy.py:29 | `str.lower()` maps every character by `LowerChar` and keeps the length |
| Text.Title | app/subsidy/routes.py:157 | `str.title()` keeps the length and every non-letter, upper-cases a letter that starts a run of letters and lower-cases the rest of the run |
| MlScoring.BenefitPoints | app/utils/ml_scoring.py:52-55 | feature 1 is 0 without a positive gross cost, 30 when the subsidy covers the cost, else 30 × subsidy / cost |
| MlScoring.LowerAll | app/utils/ml_scoring.py:60 | `[s.lower() for s in xs]` lower-cases every element, in order |
| MlScoring.StateBonus | app/utils/ml_scoring.py:58-63 | 15 for a state scheme listing the user's state (ignoring case), 10 for a national or unspecified coverage, else 0 |
| MlScoring.SegmentBonus | app/utils/ml_scoring.py:66-68 | 10 exactly when the user's segment is listed, ignoring case, else 0 |
| MlScoring.SizePoints | app/utils/ml_scoring.py:72-76 | the 1–10 kW tent `20 − 4·|kw − 5|` peaking only at 5 kW, 10 outside that range, always in [0, 20] |
| MlScoring.EasePoints | app/utils/ml_scoring.py:79 | ten times the ease of claim, in [0, 10] for a documented ease |
| MlScoring.PaybackPoints | app/utils/ml_scoring.py:83-93 | `max(0, 20 − payback)` when cost, consumption and savings are positive, else 0; never negative |
| MlScoring.SubsidyMatchScore | app/utils/ml_scoring.py:95-99 | in [0, 100] and within 0.05 of the clamped feature sum |
| MlScoring.MatchScoreIgnoresBaseScore | app/utils/ml_scoring.py:48-49 | the scheme's own `match_score` never affects the result |
| MlScoring.PaybackCanExceedFifteen | app/utils/ml_scoring.py:88-93 | the payback feature documented as 0–15 reaches 20 for a fully subsidised system |
| MlScoring.WarrantyPoints | app/utils/ml_scoring.py:145 | warranty points are in [2, 10], two a year between 1 and 5 years |
| MlScoring.ExperienceBonus | app/utils/ml_scoring.py:157 | `min(5, years / 2)`: half a point a year up to 10 years, 5 from then on, never negative for non-negative experience |
| MlScoring.MlVendorScore | app/utils/ml_scoring.py:131-164 | in [0, 100]; within 0.05 of the weighted sum whenever that sum is in [0, 100]; exactly 100 when the sum is at least 100 and exactly 0 when it is at most 0 |
| MlScoring.ClampedRoundAtEnds | app/utils/ml_scoring.py:164 | a weighted sum at or above 100 rounds to at least 100, and one at or below 0 to at most 0, so the clamp pins it to the end |
| MlScoring.RawVendorScoreRange | app/utils/ml_scoring.py:131-162 | on documented inputs the weighted sum lies in [1.8, 104.5] |
| MlScoring.PerfectVendorScoresHundred | app/utils/ml_scoring.py:160-164 | a perfect vendor's 104.5 is clamped to exactly 100 |
| MlScoring.ExactPrediction | app/utils/ml_scoring.py:202-221 | net cost plus subsidy is the gross cost; monthly × 12 is annual; payback × savings is the net cost; payback undefined exactly when savings are not positive |
| MlScoring.RoundPrediction | app/utils/ml_scoring.py:223-230 | every field moves by at most 0.005 and an undefined payback stays undefined |
| MlScoring.FinancialPredictions | app/utils/ml_scoring.py:167-230 | net cost, CO2, annual and monthly savings are each within 0.005 of their exact formulas; payback undefined iff the exact savings are not positive |
| MlScoring.NoSavingsNoPayback | app/utils/ml_scoring.py:213-217 | with no generation and a non-negative tariff there is no payback period |
| MlScoring.CountPresent | app/utils/ml_scoring.py:259-260 | the keyword count is at most the number of keywords, and 0 exactly when none occurs |
| MlScoring.Sentiment | app/utils/ml_scoring.py:233-270 | in [0, 1]; 0.5 for empty or keyword-free text; 1 with only positive keywords; 0 with only negative ones |
| MlScoring.SentimentFromCounts | app/utils/ml_scoring.py:262-270 | the ratio score from the two counts, in [0, 1] and positive when a positive keyword is present |
| MlScoring.CountIsDistinctKeywordsPresent | app/utils/ml_scoring.py:259-260 | over a list without repeats, the count is the number of distinct keywords present |
| MlScoring.KeywordListsDistinct | app/utils/ml_scoring.py:246-257 | neither keyword list repeats a word |
| MlScoring.CountDependsOnlyOnPresence | app/utils/ml_scoring.py:259-260 | two texts mentioning the same keywords get the same count, however often each occurs |
| MlScoring.SentimentByPresence | app/utils/ml_scoring.py:259-270 | the sentiment is decided by which keywords occur, not how often |
| MlScoring.UnreliableCountsAsPositive | app/utils/ml_scoring.py:246-260 | a review containing "unreliable" also matches "reliable", so its score is never 0 |
| Vendors.PriceExtremes | app/utils/vendors.py:83-84 | the max and min price are bounds on every price of the table and are attained |
| Vendors.PriceScore | app/utils/vendors.py:83-88 | price points are linear in the price: 25 × (dearest − price) / (dearest − cheapest) when the table's prices differ, 25 × (dearest − price) when they do not |
| Vendors.PriceRatio | app/utils/vendors.py:85-88 | price points lie in [0, 25], 0 for the dearest price and 25 for the cheapest when prices differ |
| Vendors.ExperiencePoints | app/utils/vendors.py:89 | `min(years × 1.5, 20)`: 1.5 points a year up to 13 years, 20 from 14 years, never above 20 and never negative for non-negative experience |
| Vendors.LocationPoints | app/utils/vendors.py:90 | 2 points per location up to 7 locations, 15 from 8 on, always in [0, 15] |
| Vendors.HighlightPoints | app/utils/vendors.py:91 | 2 points per highlight up to 10 highlights, 20 from 10 on, always in [0, 20] |
| Vendors.PriceScoreBounds | app/utils/vendors.py:83-88 | every table vendor earns 0–25 price points, 0 for the dearest, 25 for the cheapest |
| Vendors.VendorScore | app/utils/vendors.py:70-95 | the score is the sum of the five components to within 0.005 (rounded to two decimals) |
| Vendors.VendorScoreBounds | app/utils/vendors.py:87-95 | for a table vendor with a rating in [0, 5] and non-negative experience the score lies in [0, 180] |
| Vendors.TablePriceExtremes | app/utils/vendors.py:6-67 | the table's prices range from 59000 (UrbanSpark, 25 points) to 68000 (Sunrise, 0 points) |
| Vendors.Rank | app/utils/vendors.py:112-134 | each reason has one of the nine rule positions |
| Vendors.AverageRating | app/utils/vendors.py:107 | the mean rating: times the vendor count it is the rating sum; 0 for no vendors |
| Vendors.AveragePrice | app/utils/vendors.py:108 | the mean base price: times the vendor count it is the price sum; 70000 for no vendors |
| Vendors.MaxYears | app/utils/vendors.py:109 | the longest experience: no vendor has more, some vendor has exactly that much, 0 for no vendors |
| Vendors.ExperienceReason | app/utils/vendors.py:122-125 | at most one reason: "Highly experienced" iff within 90% of the longest experience, else "Proven track record" iff 10 years or more |
| Vendors.PriceReason | app/utils/vendors.py:117-120 | the pricing rule fails (the source's `min()` of an empty list) exactly with no vendors and a price above 63000 |
| Vendors.AllReasons | app/utils/vendors.py:112-134 | the reasons that fire fail exactly as the pricing rule does |
| Vendors.AllReasonsFacts | app/utils/vendors.py:112-134 | the reasons are in rule order; "Top-rated service" iff rating ≥ 4.6; "Above-average rating" iff below 4.6 but 0.2 over the average |
| Vendors.GroupsInRuleOrder | app/utils/vendors.py:112-134 | the six rule groups in sequence are in rule order, and only the first can hold a rating reason |
| Vendors.Reasons | app/utils/vendors.py:98-136 | at most three reasons, failing exactly as the pricing rule does |
| Vendors.ReasonsFacts | app/utils/vendors.py:112-136 | after the cap of three: rule order and both rating reasons as iff statements, never both |
| Vendors.RatingReasonFirst | app/utils/vendors.py:112-115 | in rule order a rating reason can only come first |
| Vendors.ScoreAll | app/utils/vendors.py:145-151 | one copy per vendor |
| Vendors.ScoreAllVendors | app/utils/vendors.py:145-151 | the copies are of the given vendors, in table order |
| Vendors.ScoreAllAt | app/utils/vendors.py:145-151 | the i-th copy carries the i-th vendor's score and reasons |
| Vendors.InsertByScore | app/utils/vendors.py:153 | insertion adds exactly one element |
| Vendors.InsertIsPermutation | app/utils/vendors.py:153 | insertion adds exactly the new element to the multiset |
| Vendors.InsertKeepsVendors | app/utils/vendors.py:153 | insertion adds exactly the new vendor |
| Vendors.InsertBoundedAbove | app/utils/vendors.py:153 | an upper bound on all scores survives insertion |
| Vendors.InsertKeepsOrder | app/utils/vendors.py:153 | insertion keeps non-increasing score order |
| Vendors.SortByScoreDesc | app/utils/vendors.py:153 | `sort(key=score, reverse=True)` yields non-increasing scores and a permutation |
| Vendors.SortKeepsVendors | app/utils/vendors.py:153 | sorting neither drops nor duplicates a vendor |
| Vendors.WithScoreInsert | app/utils/vendors.py:153 | insertion puts the new element after the equal-scored ones already there |
| Vendors.SortIsStable | app/utils/vendors.py:153 | equal-scored vendors keep their original order |
| Vendors.FlagRecommended | app/utils/vendors.py:155-158 | a copy is flagged exactly when its score is at least 85% of the top score, and nothing else changes |
| Vendors.FlagWithScore | app/utils/vendors.py:155-158 | flagging changes no score |
| Vendors.RankCopiesKeepsVendors | app/utils/vendors.py:153-158 | sorting and flagging keep every copy |
| Vendors.RankCopiesOrderAndFlags | app/utils/vendors.py:153-158 | the ranking is in non-increasing score order, flagged iff ≥ 85% of the first score |
| Vendors.RankCopiesElements | app/utils/vendors.py:153-158 | each ranked copy is one of the input copies with only its flag changed |
| Vendors.RankVendors | app/utils/vendors.py:143-160 | the two loops and the sort compute the ranking of the table |
| Vendors.FlagInPlace | app/utils/vendors.py:155-158 | the flagging loop sets every copy's flag to whether its score is at least 85% of the top score |
| Vendors.GetRecommendedVendors | app/utils/vendors.py:139-160 | `get_recommended_vendors` is the ranking of the vendor table, whatever the size argument |
| Vendors.RankedKeepsVendors | app/utils/vendors.py:143-160 | the ranking holds every table entry exactly once |
| Vendors.RankedCarriesScores | app/utils/vendors.py:145-151 | every ranked copy carries its own vendor's score and reasons |
| Vendors.RankedIsStable | app/utils/vendors.py:153 | vendors sharing a score keep their table order in the ranking |
| Vendors.TopRankedRecommended | app/utils/vendors.py:155-158 | the ranking has one copy per vendor, and the first is recommended exactly when its score is not negative |
| Vendors.RankedTopScoreNonNegative | app/utils/vendors.py:143-155 | when no vendor scores below 0, neither does the top-ranked one |
| Vendors.TableScoresNonNegative | app/utils/vendors.py:6-95 | every vendor of the table scores at least 0 |
| Vendors.TopVendorRecommended | app/utils/vendors.py:139-160 | the vendor table ranks five vendors, the first recommended |
| Vendors.TableRawScores | app/utils/vendors.py:70-93 | component sums of the table: Sunrise 117.5, UrbanSpark 139, the rest strictly between |
| Vendors.TableScores | app/utils/vendors.py:70-95 | the rounded table scores |
| Vendors.RankedInTable | app/utils/vendors.py:143-160 | the ranking has one copy per vendor, each of a table vendor |
| Vendors.RankedTopScorer | app/utils/vendors.py:153-158 | a vendor that outscores every other is ranked first, and a copy is flagged iff its score is ≥ 85% of that vendor's |
| Vendors.TableVendorScore | app/utils/vendors.py:70-95 | UrbanSpark outscores every other vendor; only Sunrise falls under 85% of it |
| Vendors.TableRecommendations | app/utils/vendors.py:139-160 | the table's ranking: five vendors, UrbanSpark first, all but Sunrise recommended |
| Energy.Bucket | app/utils/energy.py:29-35 | a log's kWh goes to generation, export or consumption, never to revenue |
| Energy.AddLogAdds | app/utils/energy.py:27-37 | one loop step adds exactly the log's contribution to each column of its day |
| Energy.KwhInOneBucket | app/utils/energy.py:28-35 | a log's kWh lands in exactly one energy column |
| Energy.Aggregate | app/utils/energy.py:24-37 | the loop computes the day keys in first-seen order and each day's sums |
| Energy.KeysDomain | app/utils/energy.py:20-27 | the keys are distinct and are exactly the days of the logs, each with its sums |
| Energy.DailyTotalsAreDaySums | app/utils/energy.py:24-37 | each day's sums are the sums over that day's logs |
| Energy.DaySumOfAbsentDay | app/utils/energy.py:20-22 | a day without an entry has no logs |
| Energy.AggregateConserves | app/utils/energy.py:24-37 | summed over all days, each column equals its sum over all logs |
| Energy.SortFacts | app/utils/energy.py:50 | `sorted` keeps the day keys, each as often as before |
| Energy.SortIncreasing | app/utils/energy.py:50 | sorting distinct day keys gives strictly ascending keys |
| Energy.SumKeysSort | app/utils/energy.py:50 | summing the days in sorted order gives the same sum |
| Energy.Rows | app/utils/energy.py:42-51 | one row per day key |
| Energy.RowsDates | app/utils/energy.py:42-51 | the i-th row is dated by the i-th day key |
| Energy.RowsAt | app/utils/energy.py:42-51 | the i-th row is the rounded sums of the i-th day |
| Energy.DailySeries | app/utils/energy.py:42-51 | the series has as many rows as there are distinct dates in the logs |
| Energy.SortedKeys | app/utils/energy.py:50 | sorting distinct day keys keeps the same keys, in strictly ascending order |
| Energy.DailySeriesDates | app/utils/energy.py:42-51 | the series has exactly one row per logged day, in strictly ascending date order |
| Energy.DailySeriesValues | app/utils/energy.py:42-51 | each row holds its day's log sums rounded to two decimals |
| Energy.RowsRounding | app/utils/energy.py:45-48 | row rounding moves a column's sum by at most 0.005 per day |
| Energy.TotalsConserve | app/utils/energy.py:53-56 | each total is within 0.005 × (days + 1) of that column's sum over all logs |
| Energy.SeriesTotalError | app/utils/energy.py:53-56 | the same bound, given the exact sum over the days |
| Energy.SortedTotalError | app/utils/energy.py:50-56 | the same bound over the sorted days |
| Energy.RowsTotalError | app/utils/energy.py:45-56 | rounding each row and then the total moves the exact sum by at most 0.005 per row plus 0.005 |
| Energy.PeakIndex | app/utils/energy.py:78 | `max(..., key=generation)` picks a day of greatest generation, the earliest of equals |
| Energy.LeadInsights | app/utils/energy.py:64-81 | the insights before the week comparison are never week-over-week ones |
| Energy.RevenueInsights | app/utils/energy.py:93-97 | the revenue insight is not a week-over-week one |
| Energy.Insights | app/utils/energy.py:58-97 | no insights without a series; otherwise three to six, the average daily generation first and the latest day's reading second |
| Energy.BuildInsights | app/utils/energy.py:58-97 | the appends compute the insight list |
| Energy.ExportRatioInsight | app/utils/energy.py:72-76 | an export-ratio insight exists iff there is a series and total generation is nonzero |
| Energy.RevenueInsight | app/utils/energy.py:93-97 | a revenue insight exists iff there is a series and total revenue is nonzero |
| Energy.WeekOverWeekInsight | app/utils/energy.py:83-92 | a week comparison exists iff there are ≥ 14 days and the earlier week is nonzero; "up" iff the last week did no worse; its percentage is the size of the change relative to the earlier week |
| Energy.PeakInsight | app/utils/energy.py:78-81 | the peak insight names a day of greatest generation, the earliest of equals |
| Energy.BuildEnergyContext | app/utils/energy.py:18-112 | the context holds the logs, whether any exist, the daily series, its totals and its insights |
| Energy.NoLogsContext | app/utils/energy.py:18-56 | without logs the series is empty, every total is zero and there are no insights |
| Subsidy.KeyNamesDistinct | app/subsidy/routes.py:107-114 | the journey keys have distinct session names |
| Subsidy.Step1JourneyKeys | app/subsidy/routes.py:47-62 | after step 1 the journey holds exactly roof area, bill and provider, with `x or 0` defaults |
| Subsidy.Step2KeepsStep1 | app/subsidy/routes.py:84-91 | step 2 adds its four keys and leaves the step-1 entries as they were |
| Subsidy.RequiredMeansComplete | app/subsidy/routes.py:107-117 | for a journey the wizard produced, the required keys are present exactly after step 2 |
| Subsidy.PassesFilters | app/subsidy/routes.py:201-212 | `passes_filters` is the conjunction of the five independent constraints, in both directions |
| Subsidy.UnconstrainedFiltersPassAll | app/subsidy/routes.py:201-212 | with every filter unconstrained, every scheme passes |
| Subsidy.FilterMatchesFacts | app/subsidy/routes.py:214 | the filtered list keeps the matches' order and holds exactly the passing ones |
| Subsidy.LinkAsWritten | app/subsidy/routes.py:154-163 | as written: the link has its option's value and label, its params are the current filters with only `name` set to the option, and it is always active |
| Subsidy.AsWrittenNationalActiveUnderAll | app/subsidy/routes.py:141-163 | as written, the "National" link is active when no coverage filter is chosen |
| Subsidy.Link | app/subsidy/routes.py:154-163 | corrected: the same value, label and params, and active exactly when the option is the filter in force |
| Subsidy.FilterLinks | app/subsidy/routes.py:152-166 | one link per option |
| Subsidy.FilterLinksAt | app/subsidy/routes.py:152-166 | the i-th link is the link for the i-th option |
| Subsidy.FilterLinksFacts | app/subsidy/routes.py:152-166 | each link has its option's value and label; its params are the current filters with only `name` replaced; it is active iff its option is in force |
| Subsidy.AtMostOneActive | app/subsidy/routes.py:152-166 | among distinct options at most one link is active |
| Subsidy.BuildFilterLinks | app/subsidy/routes.py:152-166 | the loop builds the links for the options, in order, with the corrected `active` flag |
| Subsidy.EstimatedAnnualSavings | app/subsidy/routes.py:216-224 | with a known consumption the savings are the cost of the consumption or of the whole output, and with a non-negative tariff exceed neither, so they are the smaller cost; non-negative inputs give non-negative savings |
| Subsidy.ScaleAtMost | app/subsidy/routes.py:218-219 | multiplying by the non-negative tariff keeps the order of two amounts of energy |
| Subsidy.SavingsWithoutConsumption | app/subsidy/routes.py:221-224 | without a consumption: 60% of a year of bills, else 6600 per kW, whatever the tariff |
| Subsidy.OwnershipNeverKnown | app/subsidy/routes.py:132-139 | no wizard step writes `ownership`, so the scheme matcher never learns it |
| Subsidy.ResultsOf | app/subsidy/routes.py:119-224 | the page lists, in order, exactly the passing matches; it counts all matches; annual consumption is 12 × the monthly units iff those are truthy; 3 ownership links, 3 grid links, 1 + options coverage links |
| Subsidy.Wizard.ResetJourney | app/subsidy/routes.py:32-33 | the journey is removed; the user is untouched |
| Subsidy.Wizard.EnsureSession | app/subsidy/routes.py:36-41 | an absent or empty journey becomes an empty one; the data returned is the journey |
| Subsidy.Wizard.Eligibility | app/subsidy/routes.py:46-64 | the old journey is always discarded; a valid form stores exactly the step-1 answers and redirects to step 2 |
| Subsidy.Wizard.Site | app/subsidy/routes.py:76-93 | no roof area: back to step 1; a valid form: the site answers are added and the results follow; else step 2 is shown |
| Subsidy.Wizard.Results | app/subsidy/routes.py:105-232 | incomplete journey: back to step 1 with the user unchanged; else the page (with the corrected link flags) is shown and its size, net cost, savings and the clock are recorded, the journey marked completed |
| Subsidy.Wizard.RecordEstimate | app/subsidy/routes.py:226-232 | the estimate fields are set and the user is marked completed |
| Subsidy.Wizard.Restart | app/subsidy/routes.py:323-330 | the journey is discarded and the user is no longer completed; the estimate is kept |
| Subsidy.WizardReachesResults | app/subsidy/routes.py:46-232 | valid forms for both steps lead to the results page |

## Left out

- Flask is not modelled: routing, templates, `flash`, `login_required`, the
  database session and its commits. Handlers return an `Outcome` naming the page
  they redirect to or render.
- A link's URL (`url_for`) is not modelled. The link records the query parameters
  the URL would carry.
- WTForms validation is not part of this model. A form is `None` when it did not
  validate (including a GET), or its validated fields otherwise.
- The energy log query (the ORM, the user filter, newest-first ordering) is not
  part of this model. The logs are a parameter. Sums over reals do not depend on
  their order.
- The day key `strftime("%Y-%m-%d")` is an integer day number. Sorting these
  numbers matches sorting those strings for four-digit years.
- Insight wording (the f-strings, `friendly_date`, number formatting) is left out.
  Each `Energy.Insight` carries the numbers the sentence would print.
- Floating point is not modelled. Arithmetic is on exact reals, and `round` rounds
  the exact value half to even, whereas Python rounds the nearest binary double.
  The rounding error bounds hold for reals only.
- `str.lower()` and `str.title()` are modelled on ASCII letters only.
- Several helpers the results page calls are not part of this model:
  `estimate_monthly_units_from_bill`, `estimate_system_size_kw`,
  `estimate_subsidy`, `match_subsidy_schemes`, `get_provider_tariff` and
  `get_scheme_filter_options`. They are supplied as the functions of a
  `Subsidy.Estimators` record.
- `get_provider_label`, the profile tags and the segment labels are presentation
  only and are left out.
- The `vendors` route (`app/subsidy/routes.py:277-320`) is left out. The ranking
  it displays is modelled as `Vendors.GetRecommendedVendors`.
- `datetime.utcnow()` is a clock reading passed to `Subsidy.Wizard.Results` as `now`.
- Journey keys are the enum `Subsidy.Key`, and `KeyName` gives the session
  string. A journey holds typed values (`Number`/`Str`), as the wizard writes them.
- Recommendation reasons are the enum `Vendors.Reason`, and `Label` gives the
  displayed text.
- Every vendor record in the table has every field, so the `.get(...)` defaults
  of `app/utils/vendors.py` for missing keys are not modelled.
- The default table the vendor functions read is a parameter `table`.
  `Vendors.RecommendedVendors` applies the ranking to the source's table.
- The provider tariff is passed to the savings estimate on every path, whereas
  the source looks it up only when the consumption is known. The lookup is a pure
  parameter here, so the result is the same.
- Subsidy.BuildFilterLinks: builds the links with the corrected `active` flag of
  the Findings row, active only for the option in force. The as-written flag, true
  for every link, is `Subsidy.LinkAsWritten`.
- Subsidy.ResultsOf: the page's coverage, ownership and grid links carry the
  corrected `active` flag. As written, every one of them is marked active.
- Subsidy.Wizard.Results: renders the page of `Subsidy.ResultsOf`, so its links
  carry the corrected `active` flag rather than the as-written one.

## Findings

| source | as written | input that shows it | evidently intended | confidence | as-written member | corrected member |
|---|---|---|---|---|---|---|
| app/subsidy/routes.py:163 | `"active": params[name] == value` compares the link's own freshly set parameter with its value, so every link is active | no query arguments (all filters "all"); the coverage link for "national" is marked active | a link is active when its value is the filter currently in force: `current_filters[name] == value` | not executed | Subsidy.AsWrittenNationalActiveUnderAll | Subsidy.AtMostOneActive |
