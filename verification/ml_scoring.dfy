/**
 * The "ML" scoring formulas of app/utils/ml_scoring.py. Despite the name they
 * are fixed weighted sums with clamps: a subsidy-scheme match score, a 0-100
 * vendor score, a savings / payback / CO2 projection, and a keyword-count
 * sentiment score for review text. Python's `round` is `Numeric.Round`.
 */
module MlScoring {
  import opened Wrappers
  import opened Numeric
  import opened Text

  // ---------------------------------------------------------------------------
  // Subsidy match score
  // ---------------------------------------------------------------------------

  /** A scheme as the match score receives it: a dict whose keys may be missing. */
  datatype SchemeDict = SchemeDict(
    matchScore: Option<real>,
    states: Option<seq<string>>,
    coverage: Option<string>,
    consumerSegments: Option<seq<string>>)

  /** Feature 1: the subsidy's share of the gross cost, capped at 1, worth up to 30 points. */
  function BenefitPoints(grossCostInr: real, subsidyAmountInr: real): (r: real)
    ensures r <= 30.0
    ensures grossCostInr <= 0.0 ==> r == 0.0
    ensures grossCostInr > 0.0 && subsidyAmountInr >= 0.0 ==> r >= 0.0
    ensures grossCostInr > 0.0 && subsidyAmountInr >= grossCostInr ==> r == 30.0
    ensures grossCostInr > 0.0 && subsidyAmountInr < grossCostInr ==> r * grossCostInr == 30.0 * subsidyAmountInr
  {
    if grossCostInr > 0.0 then
      var ratio := subsidyAmountInr / grossCostInr;
      assert subsidyAmountInr >= grossCostInr ==> ratio >= 1.0;
      assert subsidyAmountInr >= 0.0 ==> ratio >= 0.0;
      Min(ratio, 1.0) * 30.0
    else 0.0
  }

  function LowerAll(xs: seq<string>): (r: seq<string>)
    ensures |r| == |xs|
    ensures forall i :: 0 <= i < |xs| ==> r[i] == Lower(xs[i])
  {
    if xs == [] then [] else [Lower(xs[0])] + LowerAll(xs[1..])
  }

  /** `x.lower() in [s.lower() for s in xs]`. */
  predicate MemberIgnoringCase(x: string, xs: seq<string>) {
    Lower(x) in LowerAll(xs)
  }

  /** Feature 2: 15 for a state scheme covering the user's state, 10 for a national one. */
  function StateBonus(scheme: SchemeDict, userState: string): (r: real)
    ensures var coverage := scheme.coverage.GetOr("national");
      && (r == 15.0 <==> coverage == "state" && MemberIgnoringCase(userState, scheme.states.GetOr([])))
      && (r == 10.0 <==> coverage == "national")
      && (r == 0.0 <==> coverage != "national" && !(coverage == "state" && MemberIgnoringCase(userState, scheme.states.GetOr([]))))
    ensures scheme.coverage.None? ==> r == 10.0
  {
    var coverage := scheme.coverage.GetOr("national");
    if coverage == "state" && MemberIgnoringCase(userState, scheme.states.GetOr([])) then 15.0
    else if coverage == "national" then 10.0
    else 0.0
  }

  /** Feature 3: 10 when the user's segment is one the scheme lists, ignoring case. */
  function SegmentBonus(scheme: SchemeDict, userConsumerSegment: string): (r: real)
    ensures r == 10.0 <==> MemberIgnoringCase(userConsumerSegment, scheme.consumerSegments.GetOr([]))
    ensures r == 0.0 || r == 10.0
  {
    if MemberIgnoringCase(userConsumerSegment, scheme.consumerSegments.GetOr([])) then 10.0 else 0.0
  }

  /** Feature 4: a tent over 1-10 kW peaking at 20 points at 5 kW; a flat 10 elsewhere. */
  function SizePoints(userSystemSizeKw: real): (r: real)
    ensures 0.0 <= r <= 20.0
    ensures r == 20.0 <==> userSystemSizeKw == 5.0
    ensures !(1.0 <= userSystemSizeKw <= 10.0) ==> r == 10.0
    ensures 1.0 <= userSystemSizeKw <= 10.0 ==> r == 20.0 - 4.0 * Abs(userSystemSizeKw - 5.0)
  {
    if 1.0 <= userSystemSizeKw <= 10.0 then
      Max(0.0, 20.0 * (1.0 - Abs(userSystemSizeKw - 5.0) / 5.0))
    else 10.0
  }

  /** Feature 5: the manually encoded ease of claim, times 10. */
  function EasePoints(easeOfClaim: real): (r: real)
    ensures 0.0 <= easeOfClaim <= 1.0 ==> 0.0 <= r <= 10.0
    ensures r * 0.1 == easeOfClaim
  {
    easeOfClaim * 10.0
  }

  /** Annual savings the match score assumes: 80% self-consumption at 6 INR/kWh. */
  const AssumedSavingsPerKwh: real := 0.8 * 6.0

  /**
   * Feature 6: `max(0, 15 * (1 - (payback - 5) / 15))`, which is `max(0, 20 - payback)`;
   * only when the gross cost is positive and the consumption is known and nonzero.
   */
  function PaybackPoints(grossCostInr: real, userAnnualConsumptionKwh: Option<real>, subsidyAmountInr: real): (r: real)
    ensures r >= 0.0
    ensures !(grossCostInr > 0.0 && Truthy(userAnnualConsumptionKwh) && userAnnualConsumptionKwh.value > 0.0) ==> r == 0.0
    ensures grossCostInr > 0.0 && Truthy(userAnnualConsumptionKwh) && userAnnualConsumptionKwh.value > 0.0 ==>
      r == Max(0.0, 20.0 - (grossCostInr - subsidyAmountInr) / (userAnnualConsumptionKwh.value * AssumedSavingsPerKwh))
    ensures subsidyAmountInr <= grossCostInr ==> r <= 20.0
  {
    if grossCostInr > 0.0 && Truthy(userAnnualConsumptionKwh) then
      var annualSavings := userAnnualConsumptionKwh.value * 0.8 * 6.0;
      if annualSavings > 0.0 then
        var netCost := grossCostInr - subsidyAmountInr;
        var paybackYears := netCost / annualSavings;
        assert netCost >= 0.0 ==> paybackYears >= 0.0;
        Max(0.0, 15.0 * (1.0 - (paybackYears - 5.0) / 15.0))
      else 0.0
    else 0.0
  }

  /** The six features summed, before the clamp and the rounding. */
  function RawMatchScore(
    scheme: SchemeDict, userSystemSizeKw: real, userAnnualConsumptionKwh: Option<real>,
    userState: string, userConsumerSegment: string,
    grossCostInr: real, subsidyAmountInr: real, easeOfClaim: real): real
  {
    BenefitPoints(grossCostInr, subsidyAmountInr)
    + StateBonus(scheme, userState)
    + SegmentBonus(scheme, userConsumerSegment)
    + SizePoints(userSystemSizeKw)
    + EasePoints(easeOfClaim)
    + PaybackPoints(grossCostInr, userAnnualConsumptionKwh, subsidyAmountInr)
  }

  /** `calculate_subsidy_match_score`: the clamped feature sum, rounded to one decimal. */
  function SubsidyMatchScore(
    scheme: SchemeDict, userSystemSizeKw: real, userAnnualConsumptionKwh: Option<real>,
    userState: string, userConsumerSegment: string,
    grossCostInr: real, subsidyAmountInr: real, easeOfClaim: real): (r: real)
    ensures 0.0 <= r <= 100.0
    ensures var raw := RawMatchScore(scheme, userSystemSizeKw, userAnnualConsumptionKwh, userState,
                                     userConsumerSegment, grossCostInr, subsidyAmountInr, easeOfClaim);
      Abs(r - Clamp(raw, 0.0, 100.0)) <= 0.05
  {
    var raw := RawMatchScore(scheme, userSystemSizeKw, userAnnualConsumptionKwh, userState,
                             userConsumerSegment, grossCostInr, subsidyAmountInr, easeOfClaim);
    var clamped := Clamp(raw, 0.0, 100.0);
    RoundWithin(clamped, 0, 100, 1);
    Round(clamped, 1)
  }

  /** The scheme's own `match_score` (the `base_score` of the source) never reaches the result. */
  lemma MatchScoreIgnoresBaseScore(
    scheme: SchemeDict, baseScore: Option<real>, userSystemSizeKw: real, userAnnualConsumptionKwh: Option<real>,
    userState: string, userConsumerSegment: string,
    grossCostInr: real, subsidyAmountInr: real, easeOfClaim: real)
    ensures SubsidyMatchScore(scheme.(matchScore := baseScore), userSystemSizeKw, userAnnualConsumptionKwh,
                              userState, userConsumerSegment, grossCostInr, subsidyAmountInr, easeOfClaim)
         == SubsidyMatchScore(scheme, userSystemSizeKw, userAnnualConsumptionKwh,
                              userState, userConsumerSegment, grossCostInr, subsidyAmountInr, easeOfClaim)
  {
  }

  /**
   * The features' nominal maxima (30, 15, 10, 20, 10, 15) add to 100, but the payback
   * feature reaches 20 when the payback is 0: a free system scores 20 there, not 15.
   */
  lemma PaybackCanExceedFifteen(grossCostInr: real, consumption: real)
    requires grossCostInr > 0.0 && consumption > 0.0
    ensures PaybackPoints(grossCostInr, Some(consumption), grossCostInr) == 20.0
  {
  }

  // ---------------------------------------------------------------------------
  // Vendor score, 0-100
  // ---------------------------------------------------------------------------

  /** Warranty: 2 points a year, never below 2 or above 10. */
  function WarrantyPoints(warrantyYears: real): (r: real)
    ensures 2.0 <= r <= 10.0
    ensures 1.0 <= warrantyYears <= 5.0 ==> r == 2.0 * warrantyYears
  {
    Min(10.0, Max(2.0, warrantyYears * 2.0))
  }

  /** Experience: half a point a year, at most 5. */
  function ExperienceBonus(yearsExperience: int): (r: real)
    ensures r <= 5.0
    ensures yearsExperience >= 0 ==> r >= 0.0
    ensures yearsExperience <= 10 ==> r == yearsExperience as real / 2.0
    ensures yearsExperience >= 10 ==> r == 5.0
  {
    Min(5.0, yearsExperience as real / 2.0)
  }

  /** The weighted sum before the clamp and the rounding. */
  function RawVendorScore(
    rating: real, mnreVerified: bool, sentimentScore: real, priceFairness: real,
    completionRate: real, warrantyYears: real, yearsExperience: int): real
  {
    var total :=
      sentimentScore * 40.0
      + (if mnreVerified then 20.0 else 0.0)
      + priceFairness * 15.0
      + completionRate * 15.0
      + WarrantyPoints(warrantyYears)
      + ExperienceBonus(yearsExperience);
    total * 0.9 + (rating / 5.0) * 10.0
  }

  /** `calculate_vendor_score` (ml_scoring): the weighted sum rounded to one decimal, clamped to 0-100. */
  function MlVendorScore(
    rating: real, mnreVerified: bool, sentimentScore: real, priceFairness: real,
    completionRate: real, warrantyYears: real, yearsExperience: int): (r: real)
    ensures 0.0 <= r <= 100.0
    ensures var raw := RawVendorScore(rating, mnreVerified, sentimentScore, priceFairness,
                                      completionRate, warrantyYears, yearsExperience);
      0.0 <= raw <= 100.0 ==> Abs(r - raw) <= 0.05
    ensures var raw := RawVendorScore(rating, mnreVerified, sentimentScore, priceFairness,
                                      completionRate, warrantyYears, yearsExperience);
      raw >= 100.0 ==> r == 100.0
    ensures var raw := RawVendorScore(rating, mnreVerified, sentimentScore, priceFairness,
                                      completionRate, warrantyYears, yearsExperience);
      raw <= 0.0 ==> r == 0.0
  {
    var raw := RawVendorScore(rating, mnreVerified, sentimentScore, priceFairness,
                              completionRate, warrantyYears, yearsExperience);
    ClampedRoundAtEnds(raw);
    Min(100.0, Max(0.0, Round(raw, 1)))
  }

  /** A sum at or past an end of [0, 100] rounds to a value at or past that end. */
  lemma ClampedRoundAtEnds(raw: real)
    ensures raw >= 100.0 ==> Round(raw, 1) >= 100.0
    ensures raw <= 0.0 ==> Round(raw, 1) <= 0.0
  {
    RoundOfInt(100, 1);
    RoundOfInt(0, 1);
    if raw >= 100.0 {
      RoundMonotone(100.0, raw, 1);
    }
    if raw <= 0.0 {
      RoundMonotone(raw, 0.0, 1);
    }
  }

  /** Inputs in the ranges the docstring documents. */
  predicate DocumentedVendorInputs(rating: real, sentimentScore: real, priceFairness: real,
                                   completionRate: real, yearsExperience: int)
  {
    0.0 <= rating <= 5.0 && 0.0 <= sentimentScore <= 1.0 && 0.0 <= priceFairness <= 1.0
    && 0.0 <= completionRate <= 1.0 && yearsExperience >= 0
  }

  /**
   * On documented inputs the weighted sum lies in [1.8, 104.5]: the floor of 2 warranty
   * points keeps it positive, and the top of the range exceeds 100, so the clamp matters.
   */
  lemma RawVendorScoreRange(
    rating: real, mnreVerified: bool, sentimentScore: real, priceFairness: real,
    completionRate: real, warrantyYears: real, yearsExperience: int)
    requires DocumentedVendorInputs(rating, sentimentScore, priceFairness, completionRate, yearsExperience)
    ensures 1.8 <= RawVendorScore(rating, mnreVerified, sentimentScore, priceFairness,
                                  completionRate, warrantyYears, yearsExperience) <= 104.5
  {
  }

  /** A perfect vendor's raw 104.5 is clamped down to exactly 100. */
  lemma PerfectVendorScoresHundred(warrantyYears: real, yearsExperience: int)
    requires warrantyYears >= 5.0 && yearsExperience >= 10
    ensures MlVendorScore(5.0, true, 1.0, 1.0, 1.0, warrantyYears, yearsExperience) == 100.0
  {
    var raw := RawVendorScore(5.0, true, 1.0, 1.0, 1.0, warrantyYears, yearsExperience);
    assert raw == 104.5;
    RoundWithin(raw, 100, 105, 1);
  }

  // ---------------------------------------------------------------------------
  // Financial and CO2 projection
  // ---------------------------------------------------------------------------

  /** Kilograms of CO2 avoided per kWh generated (Indian grid average). */
  const GridEmissionKgPerKwh: real := 0.82

  datatype FinancialPrediction = FinancialPrediction(
    monthlySavingsInr: real,
    annualSavingsInr: real,
    paybackPeriodYears: Option<real>,  // None: savings are not positive, payback undefined
    co2AvoidedKgPerYear: real,
    netCostInr: real,
    selfConsumedKwh: real)

  /** The projection before rounding. */
  function ExactPrediction(
    systemSizeKw: real, annualGenerationKwh: real, tariffRateInrPerKwh: real,
    grossCostInr: real, subsidyAmountInr: real, selfConsumptionRatio: real): (p: FinancialPrediction)
    ensures p.netCostInr + subsidyAmountInr == grossCostInr
    ensures p.monthlySavingsInr * 12.0 == p.annualSavingsInr
    ensures p.annualSavingsInr == p.selfConsumedKwh * tariffRateInrPerKwh
    ensures p.co2AvoidedKgPerYear == annualGenerationKwh * GridEmissionKgPerKwh
    ensures p.paybackPeriodYears.None? <==> p.annualSavingsInr <= 0.0
    ensures p.paybackPeriodYears.Some? ==> p.paybackPeriodYears.value * p.annualSavingsInr == p.netCostInr
    ensures 0.0 <= selfConsumptionRatio <= 1.0 && annualGenerationKwh >= 0.0 ==>
      0.0 <= p.selfConsumedKwh <= annualGenerationKwh
  {
    var netCost := grossCostInr - subsidyAmountInr;
    var selfConsumed := annualGenerationKwh * selfConsumptionRatio;
    var annualSavings := selfConsumed * tariffRateInrPerKwh;
    var payback := if annualSavings > 0.0 then Some(netCost / annualSavings) else None;
    FinancialPrediction(
      annualSavings / 12.0, annualSavings, payback,
      annualGenerationKwh * GridEmissionKgPerKwh, netCost, selfConsumed)
  }

  /** Two-decimal rounding of every field; an undefined payback stays undefined. */
  function RoundPrediction(p: FinancialPrediction): (r: FinancialPrediction)
    ensures r.paybackPeriodYears.None? <==> p.paybackPeriodYears.None?
    ensures Abs(r.monthlySavingsInr - p.monthlySavingsInr) <= 0.005
    ensures Abs(r.annualSavingsInr - p.annualSavingsInr) <= 0.005
    ensures Abs(r.co2AvoidedKgPerYear - p.co2AvoidedKgPerYear) <= 0.005
    ensures Abs(r.netCostInr - p.netCostInr) <= 0.005
    ensures Abs(r.selfConsumedKwh - p.selfConsumedKwh) <= 0.005
    ensures p.paybackPeriodYears.Some? ==>
      Abs(r.paybackPeriodYears.value - p.paybackPeriodYears.value) <= 0.005
  {
    FinancialPrediction(
      Round(p.monthlySavingsInr, 2),
      Round(p.annualSavingsInr, 2),
      match p.paybackPeriodYears
        case None => None
        case Some(y) => Some(Round(y, 2)),
      Round(p.co2AvoidedKgPerYear, 2),
      Round(p.netCostInr, 2),
      Round(p.selfConsumedKwh, 2))
  }

  /** `calculate_financial_predictions`. */
  function FinancialPredictions(
    systemSizeKw: real, annualGenerationKwh: real, tariffRateInrPerKwh: real,
    grossCostInr: real, subsidyAmountInr: real, selfConsumptionRatio: real): (r: FinancialPrediction)
    ensures var exact := ExactPrediction(systemSizeKw, annualGenerationKwh, tariffRateInrPerKwh,
                                         grossCostInr, subsidyAmountInr, selfConsumptionRatio);
      && (r.paybackPeriodYears.None? <==> exact.annualSavingsInr <= 0.0)
      && Abs(r.netCostInr - (grossCostInr - subsidyAmountInr)) <= 0.005
      && Abs(r.co2AvoidedKgPerYear - annualGenerationKwh * GridEmissionKgPerKwh) <= 0.005
      && Abs(r.annualSavingsInr - annualGenerationKwh * selfConsumptionRatio * tariffRateInrPerKwh) <= 0.005
      && Abs(r.monthlySavingsInr - exact.annualSavingsInr / 12.0) <= 0.005
  {
    RoundPrediction(ExactPrediction(systemSizeKw, annualGenerationKwh, tariffRateInrPerKwh,
                                    grossCostInr, subsidyAmountInr, selfConsumptionRatio))
  }

  /** Without positive savings there is no payback, and the net cost may be negative. */
  lemma NoSavingsNoPayback(systemSizeKw: real, tariffRateInrPerKwh: real, grossCostInr: real, subsidyAmountInr: real)
    requires tariffRateInrPerKwh >= 0.0
    ensures FinancialPredictions(systemSizeKw, 0.0, tariffRateInrPerKwh, grossCostInr, subsidyAmountInr, 0.8)
      .paybackPeriodYears.None?
  {
  }

  // ---------------------------------------------------------------------------
  // Keyword sentiment
  // ---------------------------------------------------------------------------

  const PositiveWords: seq<string> := [
    "excellent", "great", "good", "amazing", "wonderful", "perfect",
    "satisfied", "happy", "recommend", "professional", "quality",
    "reliable", "trustworthy", "efficient", "fast", "quick"]

  const NegativeWords: seq<string> := [
    "bad", "poor", "terrible", "awful", "disappointed", "worst",
    "slow", "delayed", "broken", "failed", "complaint", "issue",
    "problem", "unreliable", "expensive", "overpriced"]

  predicate MentionsAny(textLower: string, words: seq<string>) {
    exists i :: 0 <= i < |words| && Contains(textLower, words[i])
  }

  /** `sum(1 for word in words if word in text_lower)`: each word counts at most once. */
  function CountPresent(words: seq<string>, textLower: string): (n: nat)
    ensures n <= |words|
    ensures n == 0 <==> !MentionsAny(textLower, words)
  {
    if words == [] then 0
    else
      var rest := CountPresent(words[1..], textLower);
      assert MentionsAny(textLower, words) <==>
             Contains(textLower, words[0]) || MentionsAny(textLower, words[1..]) by {
        if MentionsAny(textLower, words[1..]) {
          var i :| 0 <= i < |words[1..]| && Contains(textLower, words[1..][i]);
          assert Contains(textLower, words[i + 1]);
        }
        if MentionsAny(textLower, words) {
          var i :| 0 <= i < |words| && Contains(textLower, words[i]);
          if i > 0 { assert Contains(textLower, words[1..][i - 1]); }
        }
      }
      (if Contains(textLower, words[0]) then 1 else 0) + rest
  }

  /** `analyze_sentiment_simple`: the positive share of keywords found, times 1.2, capped at 1. */
  function Sentiment(text: string): (r: real)
    ensures 0.0 <= r <= 1.0
    ensures text == [] ==> r == 0.5
    ensures !MentionsAny(Lower(text), PositiveWords) && !MentionsAny(Lower(text), NegativeWords) ==> r == 0.5
    ensures text != [] && MentionsAny(Lower(text), PositiveWords) && !MentionsAny(Lower(text), NegativeWords) ==> r == 1.0
    ensures text != [] && !MentionsAny(Lower(text), PositiveWords) && MentionsAny(Lower(text), NegativeWords) ==> r == 0.0
  {
    if text == [] then 0.5
    else
      var textLower := Lower(text);
      SentimentFromCounts(CountPresent(PositiveWords, textLower), CountPresent(NegativeWords, textLower))
  }

  /** The score of a non-empty text from its positive and negative keyword counts. */
  function SentimentFromCounts(positive: nat, negative: nat): (r: real)
    ensures 0.0 <= r <= 1.0
    ensures positive + negative == 0 ==> r == 0.5
    ensures positive > 0 && negative == 0 ==> r == 1.0
    ensures positive == 0 && negative > 0 ==> r == 0.0
    ensures positive > 0 ==> r > 0.0
  {
    var total := positive + negative;
    if total == 0 then 0.5
    else
      var ratio := positive as real / total as real;
      assert negative == 0 ==> ratio == 1.0 by {
        if negative == 0 { assert positive as real == total as real; }
      }
      assert positive > 0 ==> ratio > 0.0;
      Min(1.0, Max(0.0, ratio * 1.2))
  }

  predicate Distinct(words: seq<string>) {
    forall i, j :: 0 <= i < j < |words| ==> words[i] != words[j]
  }

  /** The keywords of `words` found in `textLower`, as a set. */
  function MentionedSet(words: seq<string>, textLower: string): set<string> {
    set w | w in words && Contains(textLower, w)
  }

  /** Over a list without repeats, the count is the number of distinct keywords present. */
  lemma {:induction false} CountIsDistinctKeywordsPresent(words: seq<string>, textLower: string)
    requires Distinct(words)
    ensures CountPresent(words, textLower) == |MentionedSet(words, textLower)|
  {
    if words != [] {
      var rest := words[1..];
      assert Distinct(rest) by {
        forall i, j | 0 <= i < j < |rest| ensures rest[i] != rest[j] {
          assert rest[i] == words[i + 1] && rest[j] == words[j + 1];
        }
      }
      CountIsDistinctKeywordsPresent(rest, textLower);
      assert words[0] !in rest by {
        forall i | 0 <= i < |rest| ensures rest[i] != words[0] {
          assert rest[i] == words[i + 1];
        }
      }
      var restSet := MentionedSet(rest, textLower);
      assert words[0] !in restSet;
      if Contains(textLower, words[0]) {
        assert MentionedSet(words, textLower) == {words[0]} + restSet by {
          assert forall w :: w in words <==> w == words[0] || w in rest;
        }
        assert |{words[0]} + restSet| == |restSet| + 1;
      } else {
        assert MentionedSet(words, textLower) == restSet by {
          assert forall w :: w in words <==> w == words[0] || w in rest;
        }
      }
    }
  }

  lemma KeywordListsDistinct()
    ensures Distinct(PositiveWords) && Distinct(NegativeWords)
  {
  }

  /** Two texts mentioning the same keywords get the same count, however often each occurs. */
  lemma {:induction false} CountDependsOnlyOnPresence(words: seq<string>, t1: string, t2: string)
    requires forall i :: 0 <= i < |words| ==> (Contains(t1, words[i]) <==> Contains(t2, words[i]))
    ensures CountPresent(words, t1) == CountPresent(words, t2)
  {
    if words != [] {
      CountDependsOnlyOnPresence(words[1..], t1, t2);
    }
  }

  /** The sentiment of a non-empty text is decided by which keywords it mentions, not how often. */
  lemma SentimentByPresence(t1: string, t2: string)
    requires t1 != [] && t2 != []
    requires forall i :: 0 <= i < |PositiveWords| ==>
      (Contains(Lower(t1), PositiveWords[i]) <==> Contains(Lower(t2), PositiveWords[i]))
    requires forall i :: 0 <= i < |NegativeWords| ==>
      (Contains(Lower(t1), NegativeWords[i]) <==> Contains(Lower(t2), NegativeWords[i]))
    ensures Sentiment(t1) == Sentiment(t2)
  {
    CountDependsOnlyOnPresence(PositiveWords, Lower(t1), Lower(t2));
    CountDependsOnlyOnPresence(NegativeWords, Lower(t1), Lower(t2));
  }

  /**
   * Matching is by substring: the negative keyword "unreliable" contains the positive
   * keyword "reliable", so a review that says "unreliable" is never scored 0.
   */
  lemma UnreliableCountsAsPositive(text: string)
    requires Contains(Lower(text), "unreliable")
    ensures Sentiment(text) > 0.0
  {
    var textLower := Lower(text);
    assert "unreliable" == "un" + "reliable";
    ContainsTail(textLower, "un", "reliable");
    assert PositiveWords[11] == "reliable";
    assert MentionsAny(textLower, PositiveWords);
  }
}
