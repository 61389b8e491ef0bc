/**
 * Vendor recommendation of app/utils/vendors.py: the static vendor table, a
 * per-vendor score normalised against that table, up to three recommendation
 * reasons from a fixed sequence of rules, and the ranking that copies the
 * table, sorts it by score (descending, stable) and flags every vendor within
 * 85% of the top score.
 */
module Vendors {
  import opened Wrappers
  import opened Numeric
  import opened Text

  datatype Vendor = Vendor(
    id: string,
    name: string,
    rating: real,
    priceRangeInr: string,
    basePricePerKwInr: int,
    locations: seq<string>,
    yearsExperience: int,
    highlights: seq<string>,
    contact: string,
    website: string)

  const Sunrise := Vendor("sunrise-energy", "Sunrise Energy Solutions", 4.6, "₹65k – ₹75k / kW (turnkey)", 68000,
    ["Delhi", "Noida", "Gurugram"], 9,
    ["MNRE empanelled", "Net-meter support", "24x7 monitoring"],
    "+91-98765-43210", "https://sunriseenergy.example.com")
  const SuryaGrid := Vendor("surya-grid", "SuryaGrid EPC", 4.3, "₹58k – ₹70k / kW", 61000,
    ["Mumbai", "Pune", "Nashik"], 12,
    ["Hybrid inverter experts", "O&M packages", "Battery integration"],
    "+91-99887-77665", "https://suryagrid.example.com")
  const GreenBeam := Vendor("greenbeam", "GreenBeam Solar", 4.8, "₹62k – ₹80k / kW", 67000,
    ["Ahmedabad", "Vadodara", "Surat"], 7,
    ["5-year O&M included", "Real-time app", "EMI options"],
    "care@greenbeam.example.com", "https://greenbeam.example.com")
  const AgriPower := Vendor("agripower", "AgriPower Pumps", 4.2, "₹3.2L – ₹4.5L per 5HP pump", 64000,
    ["Jaipur", "Udaipur", "Indore"], 11,
    ["PM-KUSUM specialists", "RBI/NABARD loan support", "On-field service"],
    "+91-90909-80807", "https://agripower.example.com")
  const UrbanSpark := Vendor("urban-spark", "UrbanSpark Rooftech", 4.5, "₹55k – ₹68k / kW", 59000,
    ["Bengaluru", "Mysuru", "Hyderabad"], 8,
    ["Remote diagnostics", "Smart EV-ready", "Rapid installation"],
    "hello@urbanspark.example.com", "https://urbanspark.example.com")

  /** `solar_vendors`: the installer table every score is normalised against. */
  const SolarVendors: seq<Vendor> := [Sunrise, SuryaGrid, GreenBeam, AgriPower, UrbanSpark]

  // ---------------------------------------------------------------------------
  // Score
  // ---------------------------------------------------------------------------

  /** The dearest base price in the table. */
  function MaxPrice(vs: seq<Vendor>): int
    requires |vs| > 0
  {
    if |vs| == 1 then vs[0].basePricePerKwInr
    else
      var rest := MaxPrice(vs[1..]);
      if vs[0].basePricePerKwInr >= rest then vs[0].basePricePerKwInr else rest
  }

  /** The cheapest base price in the table. */
  function MinPrice(vs: seq<Vendor>): int
    requires |vs| > 0
  {
    if |vs| == 1 then vs[0].basePricePerKwInr
    else
      var rest := MinPrice(vs[1..]);
      if vs[0].basePricePerKwInr <= rest then vs[0].basePricePerKwInr else rest
  }

  /** `MaxPrice` and `MinPrice` are the largest and smallest base price of the table. */
  lemma {:induction false} PriceExtremes(vs: seq<Vendor>)
    requires |vs| > 0
    ensures forall i :: 0 <= i < |vs| ==> MinPrice(vs) <= vs[i].basePricePerKwInr <= MaxPrice(vs)
    ensures exists i :: 0 <= i < |vs| && vs[i].basePricePerKwInr == MaxPrice(vs)
    ensures exists i :: 0 <= i < |vs| && vs[i].basePricePerKwInr == MinPrice(vs)
  {
    if |vs| == 1 {
      assert vs[0].basePricePerKwInr == MaxPrice(vs) == MinPrice(vs);
    } else {
      var rest := vs[1..];
      PriceExtremes(rest);
      assert forall i :: 1 <= i < |vs| ==> vs[i] == rest[i - 1];
      if vs[0].basePricePerKwInr >= MaxPrice(rest) {
        assert vs[0].basePricePerKwInr == MaxPrice(vs);
      } else {
        var hi :| 0 <= hi < |rest| && rest[hi].basePricePerKwInr == MaxPrice(rest);
        assert vs[hi + 1].basePricePerKwInr == MaxPrice(vs);
      }
      if vs[0].basePricePerKwInr <= MinPrice(rest) {
        assert vs[0].basePricePerKwInr == MinPrice(vs);
      } else {
        var lo :| 0 <= lo < |rest| && rest[lo].basePricePerKwInr == MinPrice(rest);
        assert vs[lo + 1].basePricePerKwInr == MinPrice(vs);
      }
    }
  }

  /** A ratio of a part to a whole, scaled to `scale`, lies between 0 and `scale`. */
  lemma ScaledRatioBounds(part: int, whole: int, scale: real)
    requires 0 <= part <= whole && whole > 0 && scale >= 0.0
    ensures 0.0 <= (part as real / whole as real) * scale <= scale
    ensures part == whole ==> (part as real / whole as real) * scale == scale
  {
    var q := part as real / whole as real;
    assert q * whole as real == part as real;
    assert 0.0 <= q <= 1.0;
  }

  /** The price formula on the table's extremes: 25 at the cheapest down to 0 at the dearest. */
  function PriceRatio(basePrice: int, maxPrice: int, minPrice: int): (r: real)
    ensures minPrice <= basePrice <= maxPrice ==> 0.0 <= r <= 25.0
    ensures basePrice == maxPrice ==> r == 0.0
    ensures minPrice < maxPrice && basePrice == minPrice ==> r == 25.0
  {
    var priceRange := if maxPrice > minPrice then maxPrice - minPrice else 1;
    if priceRange <= 0 then 0.0
    else if minPrice <= basePrice <= maxPrice then
      ScaledRatioBounds(maxPrice - basePrice, priceRange, 25.0);
      ((maxPrice - basePrice) as real / priceRange as real) * 25.0
    else ((maxPrice - basePrice) as real / priceRange as real) * 25.0
  }

  /**
   * Price points: linear in the price, 25 at the table's cheapest price and 0 at its
   * dearest; when every price is the same, 25 a rupee below it.
   */
  function PriceScore(basePrice: int, table: seq<Vendor>): (r: real)
    requires |table| > 0
    ensures MinPrice(table) < MaxPrice(table) ==>
      r * (MaxPrice(table) - MinPrice(table)) as real == 25.0 * (MaxPrice(table) - basePrice) as real
    ensures MinPrice(table) >= MaxPrice(table) ==> r == 25.0 * (MaxPrice(table) - basePrice) as real
  {
    PriceRatio(basePrice, MaxPrice(table), MinPrice(table))
  }

  /** Experience points: 1.5 a year, at most 20. */
  function ExperiencePoints(yearsExperience: int): (r: real)
    ensures r <= 20.0
    ensures yearsExperience >= 0 ==> r >= 0.0
    ensures yearsExperience <= 13 ==> r == yearsExperience as real * 1.5
    ensures yearsExperience >= 14 ==> r == 20.0
  {
    Min(yearsExperience as real * 1.5, 20.0)
  }

  /** Coverage points: 2 a location, at most 15. */
  function LocationPoints(numLocations: nat): (r: real)
    ensures 0.0 <= r <= 15.0
    ensures numLocations <= 7 ==> r == numLocations as real * 2.0
    ensures numLocations >= 8 ==> r == 15.0
  {
    Min(numLocations as real * 2.0, 15.0)
  }

  /** Highlight points: 2 a highlight, at most 20. */
  function HighlightPoints(numHighlights: nat): (r: real)
    ensures 0.0 <= r <= 20.0
    ensures numHighlights <= 10 ==> r == numHighlights as real * 2.0
    ensures numHighlights >= 10 ==> r == 20.0
  {
    Min(numHighlights as real * 2.0, 20.0)
  }

  /** The five components summed, before rounding. */
  function RawVendorScore(v: Vendor, table: seq<Vendor>): real
    requires |table| > 0
  {
    v.rating * 20.0
    + PriceScore(v.basePricePerKwInr, table)
    + ExperiencePoints(v.yearsExperience)
    + LocationPoints(|v.locations|)
    + HighlightPoints(|v.highlights|)
  }

  /** `calculate_vendor_score` (vendors): the component sum rounded to two decimals. */
  function VendorScore(v: Vendor, table: seq<Vendor>): (r: real)
    requires |table| > 0
    ensures Abs(r - RawVendorScore(v, table)) <= 0.005
  {
    Round(RawVendorScore(v, table), 2)
  }

  /**
   * Every vendor of the table earns 0 to 25 price points: 25 for the cheapest and,
   * when prices differ, 0 for the dearest.
   */
  lemma PriceScoreBounds(v: Vendor, table: seq<Vendor>)
    requires v in table
    ensures 0.0 <= PriceScore(v.basePricePerKwInr, table) <= 25.0
    ensures v.basePricePerKwInr == MaxPrice(table) ==> PriceScore(v.basePricePerKwInr, table) == 0.0
    ensures MinPrice(table) < MaxPrice(table) && v.basePricePerKwInr == MinPrice(table) ==>
      PriceScore(v.basePricePerKwInr, table) == 25.0
  {
    PriceExtremes(table);
  }

  /**
   * The score is the component sum to within rounding; for a vendor of the table
   * with a rating in [0, 5] and non-negative experience it lies in [0, 180].
   */
  lemma VendorScoreBounds(v: Vendor, table: seq<Vendor>)
    requires |table| > 0
    ensures v in table && 0.0 <= v.rating <= 5.0 && v.yearsExperience >= 0 ==>
      0.0 <= VendorScore(v, table) <= 180.0
  {
    var raw := RawVendorScore(v, table);
    if v in table && 0.0 <= v.rating <= 5.0 && v.yearsExperience >= 0 {
      PriceScoreBounds(v, table);
      RoundWithin(raw, 0, 180, 2);
    }
  }

  /** The table's price extremes: UrbanSpark is the cheapest, Sunrise the dearest. */
  lemma TablePriceExtremes()
    ensures MaxPrice(SolarVendors) == 68000 && MinPrice(SolarVendors) == 59000
    ensures PriceScore(UrbanSpark.basePricePerKwInr, SolarVendors) == 25.0
    ensures PriceScore(Sunrise.basePricePerKwInr, SolarVendors) == 0.0
  {
    assert forall i :: 0 <= i < |SolarVendors| ==> 59000 <= SolarVendors[i].basePricePerKwInr <= 68000;
    assert SolarVendors[0].basePricePerKwInr == 68000 && SolarVendors[4].basePricePerKwInr == 59000;
    PriceExtremes(SolarVendors);
  }

  // ---------------------------------------------------------------------------
  // Reasons
  // ---------------------------------------------------------------------------

  /** The recommendation reasons, one per rule. */
  datatype Reason =
    | TopRated | AboveAverageRating | CompetitivePricing | BestValuePricing
    | HighlyExperienced | ProvenTrackRecord | WideServiceCoverage | MnreCertified
    | MaintenanceIncluded

  /** The text shown for each reason. */
  function Label(r: Reason): string {
    match r
    case TopRated => "Top-rated service"
    case AboveAverageRating => "Above-average rating"
    case CompetitivePricing => "Competitive pricing"
    case BestValuePricing => "Best value pricing"
    case HighlyExperienced => "Highly experienced"
    case ProvenTrackRecord => "Proven track record"
    case WideServiceCoverage => "Wide service coverage"
    case MnreCertified => "MNRE certified"
    case MaintenanceIncluded => "Maintenance included"
  }

  /** The position of each reason's rule among the rules, in the order they are tried. */
  function Rank(r: Reason): (n: nat)
    ensures n < 9
  {
    match r
    case TopRated => 0
    case AboveAverageRating => 1
    case CompetitivePricing => 2
    case BestValuePricing => 3
    case HighlyExperienced => 4
    case ProvenTrackRecord => 5
    case WideServiceCoverage => 6
    case MnreCertified => 7
    case MaintenanceIncluded => 8
  }

  /**
   * The reasons come from rules at strictly increasing positions, all in [lo, hi):
   * listed in the order the rules are tried, none twice.
   */
  predicate Within(rs: seq<Reason>, lo: nat, hi: nat)
    decreases |rs|
  {
    rs == [] || (lo <= Rank(rs[0]) < hi && Within(rs[1..], Rank(rs[0]) + 1, hi))
  }

  /** Reasons listed in the order their rules are tried, none twice. */
  predicate InRuleOrder(rs: seq<Reason>) {
    Within(rs, 0, 9)
  }

  lemma {:induction false} WithinWiden(rs: seq<Reason>, lo: nat, hi: nat, lo': nat, hi': nat)
    requires Within(rs, lo, hi) && lo' <= lo && hi <= hi'
    ensures Within(rs, lo', hi')
    decreases |rs|
  {
    if rs != [] {
      WithinWiden(rs[1..], Rank(rs[0]) + 1, hi, Rank(rs[0]) + 1, hi');
    }
  }

  lemma {:induction false} WithinMembers(rs: seq<Reason>, lo: nat, hi: nat)
    requires Within(rs, lo, hi)
    ensures forall i :: 0 <= i < |rs| ==> lo <= Rank(rs[i]) < hi
    decreases |rs|
  {
    if rs != [] {
      WithinMembers(rs[1..], Rank(rs[0]) + 1, hi);
      assert forall i :: 1 <= i < |rs| ==> rs[i] == rs[1..][i - 1];
    }
  }

  lemma {:induction false} WithinPrefix(rs: seq<Reason>, lo: nat, hi: nat, k: nat)
    requires Within(rs, lo, hi) && k <= |rs|
    ensures Within(rs[..k], lo, hi)
    decreases |rs|
  {
    if k > 0 {
      WithinPrefix(rs[1..], Rank(rs[0]) + 1, hi, k - 1);
      assert rs[..k][1..] == rs[1..][..k - 1];
    }
  }

  /** Two groups of reasons one after the other, the first from earlier rules, are in rule order. */
  lemma {:induction false} WithinConcat(a: seq<Reason>, b: seq<Reason>, lo: nat, mid: nat, hi: nat)
    requires lo <= mid <= hi
    requires Within(a, lo, mid) && Within(b, mid, hi)
    ensures Within(a + b, lo, hi)
    decreases |a|
  {
    if a == [] {
      assert a + b == b;
      WithinWiden(b, mid, hi, lo, hi);
    } else {
      WithinConcat(a[1..], b, Rank(a[0]) + 1, mid, hi);
      assert (a + b)[1..] == a[1..] + b;
    }
  }

  function SumRatings(vs: seq<Vendor>): real {
    if vs == [] then 0.0 else vs[0].rating + SumRatings(vs[1..])
  }

  function SumPrices(vs: seq<Vendor>): int {
    if vs == [] then 0 else vs[0].basePricePerKwInr + SumPrices(vs[1..])
  }

  /** `max(years_experience ...)`, 0 for no vendors (the `default=0`). */
  function MaxYears(vs: seq<Vendor>): (m: int)
    ensures vs == [] ==> m == 0
    ensures forall i :: 0 <= i < |vs| ==> vs[i].yearsExperience <= m
    ensures vs != [] ==> exists i :: 0 <= i < |vs| && vs[i].yearsExperience == m
  {
    if vs == [] then 0
    else if |vs| == 1 then vs[0].yearsExperience
    else
      var rest := MaxYears(vs[1..]);
      if vs[0].yearsExperience >= rest then vs[0].yearsExperience else rest
  }

  /** `max(len(locations) ...)`, 0 for no vendors. */
  function MaxLocations(vs: seq<Vendor>): nat {
    if vs == [] then 0
    else
      var rest := MaxLocations(vs[1..]);
      if |vs[0].locations| >= rest then |vs[0].locations| else rest
  }

  /** The mean rating, 0 for no vendors. */
  function AverageRating(vs: seq<Vendor>): (r: real)
    ensures |vs| > 0 ==> r * |vs| as real == SumRatings(vs)
    ensures vs == [] ==> r == 0.0
  {
    if |vs| > 0 then SumRatings(vs) / |vs| as real else 0.0
  }

  /** The mean base price, 70000 for no vendors. */
  function AveragePrice(vs: seq<Vendor>): (r: real)
    ensures |vs| > 0 ==> r * |vs| as real == SumPrices(vs) as real
    ensures vs == [] ==> r == 70000.0
  {
    if |vs| > 0 then SumPrices(vs) as real / |vs| as real else 70000.0
  }

  function RatingReason(rating: real, averageRating: real): seq<Reason> {
    if rating >= 4.6 then [TopRated]
    else if rating > averageRating + 0.2 then [AboveAverageRating]
    else []
  }

  /** `None` where the source's `min()` over an empty vendor list raises `ValueError`. */
  function PriceReason(basePrice: int, allVendors: seq<Vendor>): (r: Option<seq<Reason>>)
    ensures r.None? <==> |allVendors| == 0 && basePrice as real > 63000.0
  {
    if basePrice as real <= AveragePrice(allVendors) * 0.9 then Some([CompetitivePricing])
    else if |allVendors| == 0 then None
    else if basePrice as real <= MinPrice(allVendors) as real * 1.1 then Some([BestValuePricing])
    else Some([])
  }

  /**
   * At most one experience reason: "Highly experienced" within 90% of the longest
   * experience, else "Proven track record" from ten years.
   */
  function ExperienceReason(yearsExperience: int, maxYears: int): (r: seq<Reason>)
    ensures |r| <= 1
    ensures HighlyExperienced in r <==> yearsExperience as real >= maxYears as real * 0.9
    ensures ProvenTrackRecord in r <==> yearsExperience as real < maxYears as real * 0.9 && yearsExperience >= 10
  {
    if yearsExperience as real >= maxYears as real * 0.9 then [HighlyExperienced]
    else if yearsExperience >= 10 then [ProvenTrackRecord]
    else []
  }

  function Flagged(holds: bool, reason: Reason): seq<Reason> {
    if holds then [reason] else []
  }

  /** Every rule that fires, in rule order, before the cap of three. */
  function AllReasons(v: Vendor, allVendors: seq<Vendor>): (r: Option<seq<Reason>>)
    ensures r.None? <==> |allVendors| == 0 && v.basePricePerKwInr as real > 63000.0
  {
    var pricePart := PriceReason(v.basePricePerKwInr, allVendors);
    if pricePart.None? then None
    else
      var rating := RatingReason(v.rating, AverageRating(allVendors));
      var experience := ExperienceReason(v.yearsExperience, MaxYears(allVendors));
      var coverage := Flagged(|v.locations| as real >= MaxLocations(allVendors) as real * 0.8, WideServiceCoverage);
      var mnre := Flagged("MNRE empanelled" in v.highlights, MnreCertified);
      var maintenance := Flagged(Contains(Join(v.highlights, " "), "O&M"), MaintenanceIncluded);
      Some(rating + (pricePart.value + (experience + (coverage + (mnre + maintenance)))))
  }

  /**
   * The reasons that fire are in rule order, "Top-rated service" among them exactly
   * when the rating is at least 4.6, "Above-average rating" exactly when it is below
   * 4.6 but more than 0.2 above the average.
   */
  lemma AllReasonsFacts(v: Vendor, allVendors: seq<Vendor>)
    requires AllReasons(v, allVendors).Some?
    ensures var rs := AllReasons(v, allVendors).value;
      InRuleOrder(rs) &&
      (TopRated in rs <==> v.rating >= 4.6) &&
      (AboveAverageRating in rs <==> v.rating < 4.6 && v.rating > AverageRating(allVendors) + 0.2)
  {
    var a := RatingReason(v.rating, AverageRating(allVendors));
    var b := PriceReason(v.basePricePerKwInr, allVendors).value;
    var c := ExperienceReason(v.yearsExperience, MaxYears(allVendors));
    var d := Flagged(|v.locations| as real >= MaxLocations(allVendors) as real * 0.8, WideServiceCoverage);
    var e := Flagged("MNRE empanelled" in v.highlights, MnreCertified);
    var f := Flagged(Contains(Join(v.highlights, " "), "O&M"), MaintenanceIncluded);
    GroupsInRuleOrder(a, b, c, d, e, f);
  }

  /**
   * The six rule groups one after the other are in rule order, and only the first
   * (the rating group) can hold a rating reason.
   */
  lemma GroupsInRuleOrder(a: seq<Reason>, b: seq<Reason>, c: seq<Reason>, d: seq<Reason>, e: seq<Reason>, f: seq<Reason>)
    requires Within(a, 0, 2) && Within(b, 2, 4) && Within(c, 4, 6)
    requires Within(d, 6, 7) && Within(e, 7, 8) && Within(f, 8, 9)
    ensures var rs := a + (b + (c + (d + (e + f))));
      InRuleOrder(rs) &&
      (TopRated in rs <==> TopRated in a) &&
      (AboveAverageRating in rs <==> AboveAverageRating in a)
  {
    var ef := e + f;
    WithinConcat(e, f, 7, 8, 9);
    var def := d + ef;
    WithinConcat(d, ef, 6, 7, 9);
    var cdef := c + def;
    WithinConcat(c, def, 4, 6, 9);
    var rest := b + cdef;
    WithinConcat(b, cdef, 2, 4, 9);
    WithinConcat(a, rest, 0, 2, 9);
    WithinMembers(rest, 2, 9);
    assert TopRated !in rest && AboveAverageRating !in rest;
  }

  /**
   * `get_vendor_recommendation_reasons`: the first three reasons that fire. `None`
   * where the source raises `ValueError` (no vendors to compare against and a price
   * above 63000).
   */
  function Reasons(v: Vendor, allVendors: seq<Vendor>): (r: Option<seq<Reason>>)
    ensures r.None? <==> |allVendors| == 0 && v.basePricePerKwInr as real > 63000.0
    ensures r.Some? ==> |r.value| <= 3
  {
    match AllReasons(v, allVendors)
    case None => None
    case Some(all) => Some(if |all| <= 3 then all else all[..3])
  }

  /**
   * At most three reasons, in rule order; "Top-rated service" given exactly when
   * the rating is at least 4.6, "Above-average rating" exactly when it is below 4.6
   * but more than 0.2 above the average, so never both.
   */
  lemma ReasonsFacts(v: Vendor, allVendors: seq<Vendor>)
    requires Reasons(v, allVendors).Some?
    ensures var rs := Reasons(v, allVendors).value;
      |rs| <= 3 && InRuleOrder(rs) &&
      (TopRated in rs <==> v.rating >= 4.6) &&
      (AboveAverageRating in rs <==> v.rating < 4.6 && v.rating > AverageRating(allVendors) + 0.2) &&
      !(TopRated in rs && AboveAverageRating in rs)
  {
    var all := AllReasons(v, allVendors).value;
    AllReasonsFacts(v, allVendors);
    RatingReasonFirst(all);
    WithinPrefix(all, 0, 9, if |all| <= 3 then |all| else 3);
    assert all[..|all|] == all;
  }

  /** In rule order, a rating reason can only be the first reason. */
  lemma RatingReasonFirst(rs: seq<Reason>)
    requires InRuleOrder(rs)
    ensures TopRated in rs ==> rs[0] == TopRated
    ensures AboveAverageRating in rs && TopRated !in rs ==> rs[0] == AboveAverageRating
  {
    if rs != [] {
      WithinMembers(rs[1..], Rank(rs[0]) + 1, 9);
      assert rs == [rs[0]] + rs[1..];
    }
  }

  // ---------------------------------------------------------------------------
  // Ranking
  // ---------------------------------------------------------------------------

  /** A copy of a table entry with its score and reasons (`is_recommended` false until flagged). */
  datatype ScoredVendor = ScoredVendor(
    vendor: Vendor,
    recommendationScore: real,
    recommendationReasons: seq<Reason>,
    isRecommended: bool)

  /** One copy as the first loop of `get_recommended_vendors` builds it. */
  function ScoreVendor(v: Vendor, table: seq<Vendor>): ScoredVendor
    requires |table| > 0
  {
    ScoredVendor(v, VendorScore(v, table), Reasons(v, table).value, false)
  }

  /** The copies of `vs`, in table order. */
  function ScoreAll(vs: seq<Vendor>, table: seq<Vendor>): (r: seq<ScoredVendor>)
    requires |table| > 0
    ensures |r| == |vs|
  {
    if vs == [] then [] else ScoreAll(vs[..|vs| - 1], table) + [ScoreVendor(vs[|vs| - 1], table)]
  }

  /** The copies are of the given vendors, in the same order. */
  lemma ScoreAllVendors(vs: seq<Vendor>, table: seq<Vendor>)
    requires |table| > 0
    ensures VendorsOf(ScoreAll(vs, table)) == vs
  {
    var copies := ScoreAll(vs, table);
    ScoreAllAt(vs, table);
    forall i | 0 <= i < |vs| ensures VendorsOf(copies)[i] == vs[i] {
      assert copies[i] == ScoreVendor(vs[i], table);
    }
  }

  lemma {:induction false} ScoreAllAt(vs: seq<Vendor>, table: seq<Vendor>)
    requires |table| > 0
    ensures forall i :: 0 <= i < |vs| ==> ScoreAll(vs, table)[i] == ScoreVendor(vs[i], table)
  {
    if vs != [] {
      var init := vs[..|vs| - 1];
      ScoreAllAt(init, table);
      forall i | 0 <= i < |vs|
        ensures ScoreAll(vs, table)[i] == ScoreVendor(vs[i], table)
      {
        if i < |vs| - 1 {
          assert ScoreAll(vs, table)[i] == ScoreAll(init, table)[i];
          assert vs[i] == init[i];
        }
      }
    }
  }

  function VendorsOf(s: seq<ScoredVendor>): (r: seq<Vendor>)
    ensures |r| == |s|
    ensures forall i :: 0 <= i < |s| ==> r[i] == s[i].vendor
  {
    if s == [] then [] else [s[0].vendor] + VendorsOf(s[1..])
  }

  ghost predicate SortedByScoreDesc(s: seq<ScoredVendor>) {
    forall i, j :: 0 <= i < j < |s| ==> s[i].recommendationScore >= s[j].recommendationScore
  }

  /** Puts `x` in front of the first element scoring no more than it. */
  function InsertByScore(x: ScoredVendor, sorted: seq<ScoredVendor>): (r: seq<ScoredVendor>)
    ensures |r| == |sorted| + 1
  {
    if sorted == [] || sorted[0].recommendationScore <= x.recommendationScore then [x] + sorted
    else [sorted[0]] + InsertByScore(x, sorted[1..])
  }

  lemma {:induction false} InsertIsPermutation(x: ScoredVendor, sorted: seq<ScoredVendor>)
    ensures multiset(InsertByScore(x, sorted)) == multiset(sorted) + multiset{x}
  {
    if !(sorted == [] || sorted[0].recommendationScore <= x.recommendationScore) {
      InsertIsPermutation(x, sorted[1..]);
      assert sorted == [sorted[0]] + sorted[1..];
    }
  }

  lemma {:induction false} InsertKeepsVendors(x: ScoredVendor, sorted: seq<ScoredVendor>)
    ensures multiset(VendorsOf(InsertByScore(x, sorted))) == multiset(VendorsOf(sorted)) + multiset{x.vendor}
  {
    if sorted == [] || sorted[0].recommendationScore <= x.recommendationScore {
      assert VendorsOf([x] + sorted) == [x.vendor] + VendorsOf(sorted);
    } else {
      var rest := InsertByScore(x, sorted[1..]);
      InsertKeepsVendors(x, sorted[1..]);
      assert VendorsOf(sorted) == [sorted[0].vendor] + VendorsOf(sorted[1..]);
      assert VendorsOf([sorted[0]] + rest) == [sorted[0].vendor] + VendorsOf(rest);
    }
  }

  /** A bound on every score of `x` and `s` bounds every score after the insertion. */
  lemma {:induction false} InsertBoundedAbove(x: ScoredVendor, s: seq<ScoredVendor>, bound: real)
    requires x.recommendationScore <= bound
    requires forall j :: 0 <= j < |s| ==> s[j].recommendationScore <= bound
    ensures forall j :: 0 <= j < |InsertByScore(x, s)| ==> InsertByScore(x, s)[j].recommendationScore <= bound
  {
    if !(s == [] || s[0].recommendationScore <= x.recommendationScore) {
      InsertBoundedAbove(x, s[1..], bound);
    }
  }

  lemma {:induction false} InsertKeepsOrder(x: ScoredVendor, sorted: seq<ScoredVendor>)
    requires SortedByScoreDesc(sorted)
    ensures SortedByScoreDesc(InsertByScore(x, sorted))
  {
    if !(sorted == [] || sorted[0].recommendationScore <= x.recommendationScore) {
      var head := sorted[0];
      var rest := InsertByScore(x, sorted[1..]);
      InsertKeepsOrder(x, sorted[1..]);
      InsertBoundedAbove(x, sorted[1..], head.recommendationScore);
      assert InsertByScore(x, sorted) == [head] + rest;
    }
  }

  /**
   * `list.sort(key=score, reverse=True)`: a stable sort into non-increasing score
   * order, as an insertion sort that puts each element before the equal ones after it.
   */
  function SortByScoreDesc(s: seq<ScoredVendor>): (r: seq<ScoredVendor>)
    ensures SortedByScoreDesc(r)
    ensures multiset(r) == multiset(s) && |r| == |s|
  {
    if s == [] then []
    else
      var sortedTail := SortByScoreDesc(s[1..]);
      InsertKeepsOrder(s[0], sortedTail);
      InsertIsPermutation(s[0], sortedTail);
      assert s == [s[0]] + s[1..];
      InsertByScore(s[0], sortedTail)
  }

  /** Sorting moves the vendors around and neither drops nor duplicates one. */
  lemma {:induction false} SortKeepsVendors(s: seq<ScoredVendor>)
    ensures multiset(VendorsOf(SortByScoreDesc(s))) == multiset(VendorsOf(s))
  {
    if s != [] {
      SortKeepsVendors(s[1..]);
      InsertKeepsVendors(s[0], SortByScoreDesc(s[1..]));
      assert VendorsOf(s) == [s[0].vendor] + VendorsOf(s[1..]);
    }
  }

  /** The elements of `s` with score `k`, in order. */
  function WithScore(s: seq<ScoredVendor>, k: real): seq<ScoredVendor> {
    if s == [] then []
    else (if s[0].recommendationScore == k then [s[0]] else []) + WithScore(s[1..], k)
  }

  lemma {:induction false} WithScoreAppend(a: seq<ScoredVendor>, b: seq<ScoredVendor>, k: real)
    ensures WithScore(a + b, k) == WithScore(a, k) + WithScore(b, k)
  {
    if a != [] {
      assert (a + b)[0] == a[0];
      assert (a + b)[1..] == a[1..] + b;
      WithScoreAppend(a[1..], b, k);
    } else {
      assert a + b == b;
    }
  }

  lemma {:induction false} WithScoreInsert(x: ScoredVendor, sorted: seq<ScoredVendor>, k: real)
    requires SortedByScoreDesc(sorted)
    ensures WithScore(InsertByScore(x, sorted), k) ==
            (if x.recommendationScore == k then [x] else []) + WithScore(sorted, k)
  {
    if sorted == [] || sorted[0].recommendationScore <= x.recommendationScore {
      WithScoreAppend([x], sorted, k);
    } else {
      var rest := InsertByScore(x, sorted[1..]);
      WithScoreInsert(x, sorted[1..], k);
      WithScoreAppend([sorted[0]], rest, k);
      WithScoreAppend([sorted[0]], sorted[1..], k);
      assert sorted == [sorted[0]] + sorted[1..];
    }
  }

  /** Stability: among vendors of equal score the sorted order is the original order. */
  lemma {:induction false} SortIsStable(s: seq<ScoredVendor>, k: real)
    ensures WithScore(SortByScoreDesc(s), k) == WithScore(s, k)
  {
    if s != [] {
      SortIsStable(s[1..], k);
      WithScoreInsert(s[0], SortByScoreDesc(s[1..]), k);
    }
  }

  /** The second loop: every vendor within 85% of the top score is flagged. */
  function FlagRecommended(s: seq<ScoredVendor>, topScore: real): (r: seq<ScoredVendor>)
    ensures |r| == |s|
    ensures forall i :: 0 <= i < |s| ==>
      r[i] == s[i].(isRecommended := s[i].recommendationScore >= topScore * 0.85)
  {
    if s == [] then []
    else
      [s[0].(isRecommended := s[0].recommendationScore >= topScore * 0.85)]
      + FlagRecommended(s[1..], topScore)
  }

  /** Sort the copies by score and flag those within 85% of the top. */
  function RankCopies(copies: seq<ScoredVendor>): seq<ScoredVendor>
    requires |copies| > 0
  {
    var sorted := SortByScoreDesc(copies);
    FlagRecommended(sorted, sorted[0].recommendationScore)
  }

  /** Score, sort and flag the copies of a vendor table. */
  function Ranked(table: seq<Vendor>): seq<ScoredVendor>
    requires |table| > 0
  {
    RankCopies(ScoreAll(table, table))
  }

  /** What `get_recommended_vendors` returns. */
  function RecommendedVendors(): seq<ScoredVendor> {
    Ranked(SolarVendors)
  }

  /**
   * The body of `get_recommended_vendors` over a given table: a copy of every entry
   * with its score and reasons, the copies sorted, those within 85% of the top flagged.
   */
  method RankVendors(table: seq<Vendor>) returns (vendorsWithScores: seq<ScoredVendor>)
    requires |table| > 0
    ensures vendorsWithScores == Ranked(table)
  {
    vendorsWithScores := [];
    var i := 0;
    while i < |table|
      invariant 0 <= i <= |table|
      invariant vendorsWithScores == ScoreAll(table[..i], table)
    {
      var vendor := table[i];
      var vendorCopy := ScoreVendor(vendor, table);
      assert table[..i + 1][..i] == table[..i];
      vendorsWithScores := vendorsWithScores + [vendorCopy];
      i := i + 1;
    }
    assert table[..i] == table;

    vendorsWithScores := SortByScoreDesc(vendorsWithScores);
    var topScore := if |vendorsWithScores| > 0 then vendorsWithScores[0].recommendationScore else 0.0;
    vendorsWithScores := FlagInPlace(vendorsWithScores, topScore);
  }

  /** The second loop of `get_recommended_vendors`: sets each copy's `is_recommended`. */
  method FlagInPlace(sorted: seq<ScoredVendor>, topScore: real) returns (flagged: seq<ScoredVendor>)
    ensures flagged == FlagRecommended(sorted, topScore)
  {
    flagged := sorted;
    var j := 0;
    while j < |flagged|
      invariant 0 <= j <= |flagged| == |sorted|
      invariant forall k :: 0 <= k < j ==>
        flagged[k] == sorted[k].(isRecommended := sorted[k].recommendationScore >= topScore * 0.85)
      invariant forall k :: j <= k < |sorted| ==> flagged[k] == sorted[k]
    {
      var vendor := flagged[j];
      flagged := flagged[j := vendor.(isRecommended := vendor.recommendationScore >= topScore * 0.85)];
      j := j + 1;
    }
  }

  /** `get_recommended_vendors`: the ranking of the vendor table; the size argument is ignored. */
  method GetRecommendedVendors(recommendedKw: Option<real>) returns (vendorsWithScores: seq<ScoredVendor>)
    ensures vendorsWithScores == RecommendedVendors()
  {
    vendorsWithScores := RankVendors(SolarVendors);
  }

  /** `WithScore` and flagging commute: flagging changes no score. */
  lemma {:induction false} FlagWithScore(s: seq<ScoredVendor>, topScore: real, k: real)
    ensures WithScore(FlagRecommended(s, topScore), k) == FlagRecommended(WithScore(s, k), topScore)
  {
    if s != [] {
      FlagWithScore(s[1..], topScore, k);
      var f := FlagRecommended(s, topScore);
      assert f[1..] == FlagRecommended(s[1..], topScore);
      if s[0].recommendationScore == k {
        assert FlagRecommended(WithScore(s, k), topScore)
            == FlagRecommended([s[0]] + WithScore(s[1..], k), topScore);
        assert ([s[0]] + WithScore(s[1..], k))[1..] == WithScore(s[1..], k);
      }
    }
  }

  /** Ranking keeps every copy: the vendors are a permutation of the given ones. */
  lemma RankCopiesKeepsVendors(copies: seq<ScoredVendor>)
    requires |copies| > 0
    ensures |RankCopies(copies)| == |copies|
    ensures multiset(VendorsOf(RankCopies(copies))) == multiset(VendorsOf(copies))
  {
    var sorted := SortByScoreDesc(copies);
    SortKeepsVendors(copies);
    assert VendorsOf(RankCopies(copies)) == VendorsOf(sorted);
  }

  /**
   * Ranking puts the copies in non-increasing score order and flags a copy exactly
   * when its score is at least 85% of the first one's.
   */
  lemma RankCopiesOrderAndFlags(copies: seq<ScoredVendor>)
    requires |copies| > 0
    ensures SortedByScoreDesc(RankCopies(copies))
    ensures forall i :: 0 <= i < |RankCopies(copies)| ==>
      (RankCopies(copies)[i].isRecommended <==>
       RankCopies(copies)[i].recommendationScore >= RankCopies(copies)[0].recommendationScore * 0.85)
  {
    var sorted := SortByScoreDesc(copies);
    var r := RankCopies(copies);
    assert forall i :: 0 <= i < |r| ==> r[i].recommendationScore == sorted[i].recommendationScore;
  }

  /** Every ranked copy is one of the given copies with only its flag changed. */
  lemma RankCopiesElements(copies: seq<ScoredVendor>)
    requires |copies| > 0
    ensures forall i :: 0 <= i < |RankCopies(copies)| ==>
      exists j :: 0 <= j < |copies| && RankCopies(copies)[i] == copies[j].(isRecommended := RankCopies(copies)[i].isRecommended)
  {
    var sorted := SortByScoreDesc(copies);
    var r := RankCopies(copies);
    forall i | 0 <= i < |r|
      ensures exists j :: 0 <= j < |copies| && r[i] == copies[j].(isRecommended := r[i].isRecommended)
    {
      assert sorted[i] in multiset(copies);
      var j :| 0 <= j < |copies| && copies[j] == sorted[i];
      assert r[i] == copies[j].(isRecommended := r[i].isRecommended);
    }
  }

  /** The ranking holds one copy of every table entry: no vendor is lost or repeated. */
  lemma RankedKeepsVendors(table: seq<Vendor>)
    requires |table| > 0
    ensures |Ranked(table)| == |table|
    ensures multiset(VendorsOf(Ranked(table))) == multiset(table)
  {
    RankCopiesKeepsVendors(ScoreAll(table, table));
    ScoreAllVendors(table, table);
  }

  /** Every ranked copy carries its own vendor's score and reasons. */
  lemma RankedCarriesScores(table: seq<Vendor>)
    requires |table| > 0
    ensures forall i :: 0 <= i < |Ranked(table)| ==>
      Ranked(table)[i].recommendationScore == VendorScore(Ranked(table)[i].vendor, table) &&
      Ranked(table)[i].recommendationReasons == Reasons(Ranked(table)[i].vendor, table).value
  {
    var scored := ScoreAll(table, table);
    var r := Ranked(table);
    RankCopiesElements(scored);
    ScoreAllAt(table, table);
    forall i | 0 <= i < |r|
      ensures r[i].recommendationScore == VendorScore(r[i].vendor, table)
      ensures r[i].recommendationReasons == Reasons(r[i].vendor, table).value
    {
      var j :| 0 <= j < |scored| && r[i] == scored[j].(isRecommended := r[i].isRecommended);
      assert scored[j] == ScoreVendor(table[j], table);
    }
  }

  /**
   * Stability of the ranking: the vendors sharing a score keep their table order.
   */
  lemma RankedIsStable(table: seq<Vendor>, k: real)
    requires |table| > 0
    ensures VendorsOf(WithScore(Ranked(table), k)) == VendorsOf(WithScore(ScoreAll(table, table), k))
  {
    var scored := ScoreAll(table, table);
    var sorted := SortByScoreDesc(scored);
    SortIsStable(scored, k);
    FlagWithScore(sorted, sorted[0].recommendationScore, k);
    var w := WithScore(sorted, k);
    assert VendorsOf(FlagRecommended(w, sorted[0].recommendationScore)) == VendorsOf(w);
  }

  /**
   * The top-ranked vendor is recommended exactly when its score is at least 0, since
   * only then is it within 85% of itself.
   */
  lemma TopRankedRecommended(table: seq<Vendor>)
    requires |table| > 0
    ensures |Ranked(table)| == |table|
    ensures Ranked(table)[0].isRecommended <==> Ranked(table)[0].recommendationScore >= 0.0
  {
    RankedKeepsVendors(table);
    RankCopiesOrderAndFlags(ScoreAll(table, table));
  }

  /** Every vendor of the table scores at least 0. */
  lemma TableScoresNonNegative()
    ensures forall i :: 0 <= i < |SolarVendors| ==> VendorScore(SolarVendors[i], SolarVendors) >= 0.0
  {
    forall i | 0 <= i < |SolarVendors| ensures VendorScore(SolarVendors[i], SolarVendors) >= 0.0 {
      var v := SolarVendors[i];
      assert 0.0 <= v.rating <= 5.0 && v.yearsExperience >= 0;
      VendorScoreBounds(v, SolarVendors);
    }
  }

  /** When no vendor of the table scores below 0, neither does the top-ranked one. */
  lemma RankedTopScoreNonNegative(table: seq<Vendor>)
    requires |table| > 0
    requires forall i :: 0 <= i < |table| ==> VendorScore(table[i], table) >= 0.0
    ensures |Ranked(table)| == |table| && Ranked(table)[0].recommendationScore >= 0.0
  {
    var r := Ranked(table);
    RankedKeepsVendors(table);
    RankedCarriesScores(table);
    var top := r[0].vendor;
    assert top in multiset(VendorsOf(r));
    var k :| 0 <= k < |table| && table[k] == top;
  }

  /** The vendor table yields five ranked vendors, the first of them recommended. */
  lemma TopVendorRecommended()
    ensures |RecommendedVendors()| == 5
    ensures RecommendedVendors()[0].isRecommended
  {
    TableScoresNonNegative();
    RankedTopScoreNonNegative(SolarVendors);
    TopRankedRecommended(SolarVendors);
  }

  /**
   * The component sums of the table: Sunrise 117.5, UrbanSpark 139, the other three
   * strictly between 121 and 138.
   */
  lemma TableRawScores()
    ensures RawVendorScore(Sunrise, SolarVendors) == 117.5
    ensures RawVendorScore(UrbanSpark, SolarVendors) == 139.0
    ensures 121.0 < RawVendorScore(SuryaGrid, SolarVendors) < 138.0
    ensures 121.0 < RawVendorScore(GreenBeam, SolarVendors) < 138.0
    ensures 121.0 < RawVendorScore(AgriPower, SolarVendors) < 138.0
  {
    TablePriceExtremes();
    assert PriceScore(SuryaGrid.basePricePerKwInr, SolarVendors) == (7000.0 / 9000.0) * 25.0;
    assert PriceScore(GreenBeam.basePricePerKwInr, SolarVendors) == (1000.0 / 9000.0) * 25.0;
    assert PriceScore(AgriPower.basePricePerKwInr, SolarVendors) == (4000.0 / 9000.0) * 25.0;
  }

  /** The rounded scores: Sunrise and UrbanSpark are exact, the others within [120.99, 138.01]. */
  lemma TableScores()
    ensures VendorScore(Sunrise, SolarVendors) == 117.5
    ensures VendorScore(UrbanSpark, SolarVendors) == 139.0
    ensures 120.99 < VendorScore(SuryaGrid, SolarVendors) < 138.01
    ensures 120.99 < VendorScore(GreenBeam, SolarVendors) < 138.01
    ensures 120.99 < VendorScore(AgriPower, SolarVendors) < 138.01
  {
    TableRawScores();
    assert Pow10(2) == 100;
    RoundOfExact(117.5, 11750, 2);
    RoundOfInt(139, 2);
    VendorScoreBounds(SuryaGrid, SolarVendors);
    VendorScoreBounds(GreenBeam, SolarVendors);
    VendorScoreBounds(AgriPower, SolarVendors);
  }

  /**
   * A vendor that outscores every other entry is ranked first, and a ranked copy is
   * recommended exactly when its vendor scores at least 85% of that top score.
   */
  lemma RankedTopScorer(table: seq<Vendor>, top: Vendor)
    requires |table| > 0 && top in table
    requires forall v :: v in table && v != top ==> VendorScore(v, table) < VendorScore(top, table)
    ensures var r := Ranked(table);
      |r| == |table| && r[0].vendor == top &&
      (forall i :: 0 <= i < |r| ==>
        (r[i].vendor in table &&
         (r[i].isRecommended <==> VendorScore(r[i].vendor, table) >= VendorScore(top, table) * 0.85)))
  {
    var r := Ranked(table);
    RankedInTable(table);
    RankedKeepsVendors(table);
    RankedCarriesScores(table);
    RankCopiesOrderAndFlags(ScoreAll(table, table));
    assert top in multiset(table);
    assert top in multiset(VendorsOf(r));
    var j :| 0 <= j < |r| && VendorsOf(r)[j] == top;
    var first := r[0].vendor;
    assert first in table;
    assert VendorScore(first, table) == r[0].recommendationScore >= r[j].recommendationScore == VendorScore(top, table);
  }

  /** Every ranked copy is of a vendor of the table. */
  lemma RankedInTable(table: seq<Vendor>)
    requires |table| > 0
    ensures |Ranked(table)| == |table|
    ensures forall i :: 0 <= i < |Ranked(table)| ==> Ranked(table)[i].vendor in table
  {
    var r := Ranked(table);
    RankedKeepsVendors(table);
    forall i | 0 <= i < |r|
      ensures r[i].vendor in table
    {
      assert r[i].vendor in multiset(VendorsOf(r));
    }
  }

  /** UrbanSpark outscores every other vendor; only Sunrise falls below 85% of its 139. */
  lemma TableVendorScore(v: Vendor)
    requires v in SolarVendors
    ensures v != UrbanSpark ==> VendorScore(v, SolarVendors) < VendorScore(UrbanSpark, SolarVendors)
    ensures VendorScore(v, SolarVendors) >= VendorScore(UrbanSpark, SolarVendors) * 0.85 <==> v != Sunrise
  {
    TableScores();
  }

  /**
   * The outcome of `get_recommended_vendors` on the vendor table: five vendors,
   * UrbanSpark first, and every vendor but Sunrise recommended (Sunrise's 117.5 falls
   * short of 85% of UrbanSpark's 139 although its 4.6 rating earns "Top-rated service").
   */
  lemma TableRecommendations()
    ensures var r := RecommendedVendors();
      |r| == 5 && r[0].vendor == UrbanSpark &&
      (forall i :: 0 <= i < 5 ==> (r[i].isRecommended <==> r[i].vendor != Sunrise))
  {
    forall v | v in SolarVendors && v != UrbanSpark
      ensures VendorScore(v, SolarVendors) < VendorScore(UrbanSpark, SolarVendors)
    {
      TableVendorScore(v);
    }
    assert SolarVendors[4] == UrbanSpark;
    RankedTopScorer(SolarVendors, UrbanSpark);
    var r := RecommendedVendors();
    forall i | 0 <= i < 5
      ensures r[i].isRecommended <==> r[i].vendor != Sunrise
    {
      TableVendorScore(r[i].vendor);
    }
  }
}
