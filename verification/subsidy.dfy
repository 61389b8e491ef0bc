/**
 * The subsidy journey (`app/subsidy/routes.py`): a three-step wizard whose answers
 * live in a per-session key/value journey, the scheme filters of the results page,
 * the filter links, and the annual-savings estimate.
 *
 * The estimators the results page calls (system size, subsidy, scheme matching,
 * monthly units from a bill, provider tariff, filter options) are not part of this
 * model; they are passed in as an `Estimators` record of functions.
 */
module Subsidy {
  import opened Wrappers
  import opened Numeric
  import opened Text
  import opened Seqs

  // ---------------------------------------------------------------------------
  // The journey

  /** The journey keys the handlers read or write. */
  datatype Key = RoofArea | MonthlyBill | Provider | State | ConsumerSegment | GridConnection | RoofType | Ownership

  /** The key as the session stores it. */
  function KeyName(k: Key): string {
    match k
    case RoofArea => "roof_area"
    case MonthlyBill => "monthly_bill"
    case Provider => "provider"
    case State => "state"
    case ConsumerSegment => "consumer_segment"
    case GridConnection => "grid_connection"
    case RoofType => "roof_type"
    case Ownership => "ownership"
  }

  /** Distinct keys have distinct names, so a map over `Key` is a map over the names. */
  lemma KeyNamesDistinct(a: Key, b: Key)
    requires a != b
    ensures KeyName(a) != KeyName(b)
  {
  }

  /** A journey value: the two numbers of step 1, or a string. */
  datatype JourneyValue = Number(n: real) | Str(s: string)

  type Journey = map<Key, JourneyValue>

  const Step1Keys: set<Key> := {RoofArea, MonthlyBill, Provider}
  const Step2Keys: set<Key> := {State, ConsumerSegment, GridConnection, RoofType}

  /** The keys the results page insists on (`roof_type` is not among them). */
  const RequiredKeys: set<Key> := {RoofArea, State, ConsumerSegment, GridConnection, Provider, MonthlyBill}

  /**
   * The journeys the wizard can produce: empty, after step 1, or after step 2,
   * with numbers under the two numeric keys and strings elsewhere.
   */
  predicate WellFormed(j: Journey) {
    (j.Keys == {} || j.Keys == Step1Keys || j.Keys == Step1Keys + Step2Keys) &&
    (RoofArea in j ==> j[RoofArea].Number?) &&
    (MonthlyBill in j ==> j[MonthlyBill].Number?) &&
    (Provider in j ==> j[Provider].Str?) &&
    (forall k :: k in Step2Keys && k in j ==> j[k].Str?)
  }

  /** The step-1 form after validation; an absent number or provider is `None`. */
  datatype NumbersForm = NumbersForm(roofArea: Option<real>, monthlyBill: Option<real>, provider: Option<string>)

  /** The step-2 form after validation. */
  datatype SiteForm = SiteForm(state: string, consumerSegment: string, gridConnection: string, roofType: Option<string>)

  /** The journey step 1 writes: `float(x or 0)` for the numbers, `provider or ""`. */
  function Step1Journey(form: NumbersForm): Journey {
    map[RoofArea := Number(form.roofArea.GetOr(0.0)),
        MonthlyBill := Number(form.monthlyBill.GetOr(0.0)),
        Provider := Str(form.provider.GetOr(""))]
  }

  /** `journey.update(...)` of step 2. */
  function Step2Update(j: Journey, form: SiteForm): Journey {
    j[State := Str(form.state)]
     [ConsumerSegment := Str(form.consumerSegment)]
     [GridConnection := Str(form.gridConnection)]
     [RoofType := Str(form.roofType.GetOr(""))]
  }

  /** After step 1 the journey holds exactly the three step-1 keys. */
  lemma Step1JourneyKeys(form: NumbersForm)
    ensures Step1Journey(form).Keys == Step1Keys
    ensures WellFormed(Step1Journey(form))
    ensures Step1Journey(form)[RoofArea] == Number(form.roofArea.GetOr(0.0))
  {
  }

  /** Step 2 adds its four keys and leaves every step-1 entry as it was. */
  lemma Step2KeepsStep1(j: Journey, form: SiteForm)
    requires WellFormed(j) && RoofArea in j
    ensures Step2Update(j, form).Keys == Step1Keys + Step2Keys
    ensures forall k :: k in Step1Keys ==> Step2Update(j, form)[k] == j[k]
    ensures WellFormed(Step2Update(j, form))
  {
    assert j.Keys != {};
  }

  /** For a journey the wizard produced, the required keys are there exactly after step 2. */
  lemma RequiredMeansComplete(j: Journey)
    requires WellFormed(j)
    ensures RequiredKeys <= j.Keys <==> j.Keys == Step1Keys + Step2Keys
  {
    if RequiredKeys <= j.Keys {
      assert State in j.Keys && State !in Step1Keys;
    }
  }

  /** The pages a request can end on. */
  datatype Page = NumbersStep | SiteStep | ResultsStep

  datatype Outcome = Redirect(to: Page) | Show(page: Page) | ShowResults(results: ResultsPage)

  // ---------------------------------------------------------------------------
  // Schemes and filters

  /** The scheme attributes the filters read; `None` is Python's `None`. */
  datatype Scheme = Scheme(
    name: string,
    coverage: string,
    requiresOwnership: Option<bool>,
    requiresGridConnection: Option<bool>)

  /** The `coverage`, `ownership` and `grid` query arguments, "all" when absent. */
  datatype Filters = Filters(coverage: string, ownership: string, grid: string)

  function FiltersFrom(coverage: Option<string>, ownership: Option<string>, grid: Option<string>): Filters {
    Filters(coverage.GetOr("all"), ownership.GetOr("all"), grid.GetOr("all"))
  }

  /** `current_filters`. */
  function FilterParams(f: Filters): map<string, string> {
    map["coverage" := f.coverage, "ownership" := f.ownership, "grid" := f.grid]
  }

  /**
   * `passes_filters`, the early returns of the source in order. As independent
   * constraints: "owner" rejects only schemes that state no ownership is needed,
   * "tenant" only those that require it, "grid" only off-grid schemes, and
   * "off-grid" everything not stated to be off-grid, including schemes that say nothing.
   */
  function PassesFilters(f: Filters, scheme: Scheme): (r: bool)
    ensures r <==>
      (f.coverage == "all" || scheme.coverage == f.coverage) &&
      (f.ownership == "owner" ==> scheme.requiresOwnership != Some(false)) &&
      (f.ownership == "tenant" ==> scheme.requiresOwnership != Some(true)) &&
      (f.grid == "grid" ==> scheme.requiresGridConnection != Some(false)) &&
      (f.grid == "off-grid" ==> scheme.requiresGridConnection == Some(false))
  {
    if f.coverage != "all" && scheme.coverage != f.coverage then false
    else if f.ownership == "owner" && scheme.requiresOwnership == Some(false) then false
    else if f.ownership == "tenant" && scheme.requiresOwnership == Some(true) then false
    else if f.grid == "grid" && scheme.requiresGridConnection == Some(false) then false
    else if f.grid == "off-grid" && scheme.requiresGridConnection != Some(false) then false
    else true
  }

  /** With every filter on "all", or on a value no branch tests, nothing is rejected. */
  lemma UnconstrainedFiltersPassAll(f: Filters, scheme: Scheme)
    requires f.coverage == "all"
    requires f.ownership != "owner" && f.ownership != "tenant"
    requires f.grid != "grid" && f.grid != "off-grid"
    ensures PassesFilters(f, scheme)
  {
  }

  /** `[scheme for scheme in matches if passes_filters(scheme)]`. */
  function FilterMatches(matches: seq<Scheme>, f: Filters): seq<Scheme>
    decreases |matches|
  {
    if |matches| == 0 then []
    else (if PassesFilters(f, matches[0]) then [matches[0]] else []) + FilterMatches(matches[1..], f)
  }

  /** The filtered list keeps the order of the matches, and holds exactly the passing ones. */
  lemma {:induction false} FilterMatchesFacts(matches: seq<Scheme>, f: Filters)
    ensures IsSubsequence(FilterMatches(matches, f), matches)
    ensures forall s :: s in FilterMatches(matches, f) <==> s in matches && PassesFilters(f, s)
    decreases |matches|
  {
    if |matches| > 0 {
      var rest := FilterMatches(matches[1..], f);
      FilterMatchesFacts(matches[1..], f);
      if PassesFilters(f, matches[0]) {
        assert FilterMatches(matches, f) == [matches[0]] + rest;
        assert ([matches[0]] + rest)[1..] == rest;
      } else {
        assert FilterMatches(matches, f) == rest;
        assert rest == [] || IsSubsequence(rest, matches[1..]);
      }
      assert forall s :: s in matches <==> s == matches[0] || s in matches[1..];
    }
  }

  // ---------------------------------------------------------------------------
  // Filter links

  /** One filter link; `params` are the query arguments of its URL. */
  datatype FilterLink = FilterLink(value: string, labelText: string, params: map<string, string>, active: bool)

  const CoverageLabels: map<string, string> :=
    map["all" := "All", "national" := "National", "state" := "State", "csr" := "CSR / NGO"]
  const OwnershipLabels: map<string, string> :=
    map["all" := "All", "owner" := "Owner required", "tenant" := "Tenant-friendly"]
  const GridLabels: map<string, string> :=
    map["all" := "All", "grid" := "Grid-connected", "off-grid" := "Off-grid / hybrid"]

  /** `label_map.get(value, value.title())`. */
  function LinkLabel(value: string, labels: map<string, string>): string {
    if value in labels then labels[value] else Title(value)
  }

  /**
   * The link as the source builds it: `active` compares the fresh params with
   * themselves, so every link claims to be the active one.
   */
  function LinkAsWritten(name: string, value: string, labels: map<string, string>, current: map<string, string>): (r: FilterLink)
    ensures r.value == value && r.labelText == LinkLabel(value, labels)
    ensures name in r.params && r.params[name] == value
    ensures forall k :: k != name ==> (k in r.params <==> k in current) && (k in current ==> r.params[k] == current[k])
    ensures r.active
  {
    var params := current[name := value];
    FilterLink(value, LinkLabel(value, labels), params, params[name] == value)
  }

  /** With no filter chosen, the "National" coverage link is marked active all the same. */
  lemma AsWrittenNationalActiveUnderAll()
    ensures var current := FilterParams(FiltersFrom(None, None, None));
      current["coverage"] == "all" && LinkAsWritten("coverage", "national", CoverageLabels, current).active
  {
  }

  /**
   * The link with `active` meaning "this value is the filter now in force": its
   * parameters are the current filters with only `name` set to the option.
   */
  function Link(name: string, value: string, labels: map<string, string>, current: map<string, string>): (r: FilterLink)
    ensures r.value == value && r.labelText == LinkLabel(value, labels)
    ensures name in r.params && r.params[name] == value
    ensures forall k :: k != name ==> (k in r.params <==> k in current) && (k in current ==> r.params[k] == current[k])
    ensures r.active <==> name in current && current[name] == value
  {
    var params := current[name := value];
    FilterLink(value, LinkLabel(value, labels), params, name in current && current[name] == value)
  }

  /** `build_filter_links`, one link per option in order. */
  function FilterLinks(name: string, options: seq<string>, labels: map<string, string>, current: map<string, string>): (r: seq<FilterLink>)
    ensures |r| == |options|
    decreases |options|
  {
    if |options| == 0 then []
    else FilterLinks(name, options[..|options| - 1], labels, current) + [Link(name, options[|options| - 1], labels, current)]
  }

  lemma {:induction false} FilterLinksAt(name: string, options: seq<string>, labels: map<string, string>, current: map<string, string>)
    ensures forall i :: 0 <= i < |options| ==>
      FilterLinks(name, options, labels, current)[i] == Link(name, options[i], labels, current)
    decreases |options|
  {
    if |options| > 0 {
      FilterLinksAt(name, options[..|options| - 1], labels, current);
    }
  }

  /**
   * One link per option, in order; each link's parameters are the current filters
   * with only `name` replaced by the option, and it is active exactly when that
   * option is the filter in force.
   */
  lemma FilterLinksFacts(name: string, options: seq<string>, labels: map<string, string>, current: map<string, string>)
    ensures var r := FilterLinks(name, options, labels, current);
      forall i :: 0 <= i < |options| ==>
        r[i].value == options[i] && r[i].labelText == LinkLabel(options[i], labels) &&
        r[i].params == current[name := options[i]] &&
        (forall k :: k != name ==> (k in r[i].params <==> k in current)) &&
        (r[i].active <==> name in current && current[name] == options[i])
  {
    FilterLinksAt(name, options, labels, current);
  }

  /** Among distinct options at most one link is active. */
  lemma AtMostOneActive(name: string, options: seq<string>, labels: map<string, string>, current: map<string, string>)
    requires forall i, j :: 0 <= i < j < |options| ==> options[i] != options[j]
    ensures var r := FilterLinks(name, options, labels, current);
      forall i, j :: 0 <= i < j < |r| && r[i].active ==> !r[j].active
  {
    FilterLinksFacts(name, options, labels, current);
  }

  /** Builds the links one by one, as the loop in `build_filter_links` does. */
  method BuildFilterLinks(name: string, options: seq<string>, labels: map<string, string>, current: map<string, string>)
    returns (links: seq<FilterLink>)
    ensures links == FilterLinks(name, options, labels, current)
  {
    links := [];
    for i := 0 to |options|
      invariant links == FilterLinks(name, options[..i], labels, current)
    {
      var link := Link(name, options[i], labels, current);
      assert options[..i + 1][..i] == options[..i] && options[..i + 1][i] == options[i];
      assert FilterLinks(name, options[..i + 1], labels, current) == links + [link];
      links := links + [link];
    }
    assert options[..|options|] == options;
  }

  // ---------------------------------------------------------------------------
  // Savings

  /**
   * The annual-savings estimate: the offset consumption at the provider's tariff when
   * the consumption is known, else 60% of a year of bills, else 6 per kWh of output.
   * With a known consumption it is the cost of the consumption or of the system's
   * whole output and, for a non-negative tariff, it exceeds neither: the smaller of
   * the two. Non-negative
   * inputs give a non-negative estimate.
   */
  function EstimatedAnnualSavings(annualConsumption: Option<real>, monthlyBill: real, recommendedKw: real, tariff: real): (r: real)
    ensures Truthy(annualConsumption) && tariff >= 0.0 ==>
      r <= annualConsumption.value * tariff && r <= recommendedKw * 1100.0 * tariff
    ensures Truthy(annualConsumption) ==>
      r == annualConsumption.value * tariff || r == recommendedKw * 1100.0 * tariff
    ensures (monthlyBill >= 0.0 && recommendedKw >= 0.0 && tariff >= 0.0 &&
             (annualConsumption.Some? ==> annualConsumption.value >= 0.0)) ==> r >= 0.0
  {
    var estimatedAnnualOutput := recommendedKw * 1100.0;
    if Truthy(annualConsumption) then
      var offset := Min(annualConsumption.value, estimatedAnnualOutput);
      if tariff >= 0.0 then
        ScaleAtMost(0.0, offset, tariff);
        ScaleAtMost(offset, annualConsumption.value, tariff);
        ScaleAtMost(offset, estimatedAnnualOutput, tariff);
        offset * tariff
      else offset * tariff
    else if monthlyBill != 0.0 then monthlyBill * 12.0 * 0.6
    else estimatedAnnualOutput * 6.0
  }

  /** Multiplying by a non-negative factor keeps the order. */
  lemma ScaleAtMost(a: real, b: real, t: real)
    requires t >= 0.0
    ensures a <= b ==> a * t <= b * t
  {
    assert b * t - a * t == (b - a) * t;
  }

  /** Without a consumption the bill decides: 60% of a year of bills, else 6600 per kW. */
  lemma SavingsWithoutConsumption(annual: Option<real>, monthlyBill: real, kw: real, tariff: real)
    requires !Truthy(annual)
    ensures monthlyBill != 0.0 ==> EstimatedAnnualSavings(annual, monthlyBill, kw, tariff) == 0.6 * (12.0 * monthlyBill)
    ensures monthlyBill == 0.0 ==> EstimatedAnnualSavings(annual, monthlyBill, kw, tariff) == 6600.0 * kw
    ensures EstimatedAnnualSavings(annual, monthlyBill, kw, tariff) == EstimatedAnnualSavings(annual, monthlyBill, kw, tariff + 1.0)
  {
  }

  // ---------------------------------------------------------------------------
  // The results page

  /** The inputs `match_subsidy_schemes` receives. */
  datatype MatchQuery = MatchQuery(
    state: string,
    consumerSegment: string,
    ownsProperty: Option<JourneyValue>,
    isGridConnected: bool,
    roofArea: Option<real>,
    annualConsumption: Option<real>)

  /** The helpers the results page calls, whose bodies are not part of this model. */
  datatype Estimators = Estimators(
    monthlyUnitsFromBill: (real, string) -> Option<real>,
    systemSizeKw: (Option<real>, Option<real>) -> real,
    netCost: real -> real,
    matchSchemes: MatchQuery -> seq<Scheme>,
    providerTariff: string -> real,
    coverageOptions: seq<Scheme> -> seq<string>)

  /** What the results page shows (the profile tags are presentation and left out). */
  datatype ResultsPage = ResultsPage(
    recommendedKw: real,
    roofArea: real,
    annualConsumption: Option<real>,
    monthlyBill: real,
    estimatedMonthlyUnits: Option<real>,
    netCost: real,
    matches: seq<Scheme>,
    totalMatches: nat,
    estimatedAnnualSavings: real,
    coverageLinks: seq<FilterLink>,
    ownershipLinks: seq<FilterLink>,
    gridLinks: seq<FilterLink>,
    currentFilters: Filters)

  /** Python's `x or None` on a number. */
  function OrNone(x: real): Option<real> {
    if x != 0.0 then Some(x) else None
  }

  function NumberAt(j: Journey, key: Key): real
    requires key in j && j[key].Number?
  {
    j[key].n
  }

  function StrAt(j: Journey, key: Key): string
    requires key in j && j[key].Str?
  {
    j[key].s
  }

  /** The answers the results page reads from a complete journey. */
  datatype Answers = Answers(
    roofArea: real,
    monthlyBill: real,
    provider: string,
    state: string,
    consumerSegment: string,
    gridConnection: string,
    ownership: Option<JourneyValue>)

  /** The journey's entries, read with the types the wizard stored them with. */
  function AnswersOf(j: Journey): Answers
    requires WellFormed(j) && RequiredKeys <= j.Keys
  {
    Answers(NumberAt(j, RoofArea), NumberAt(j, MonthlyBill), StrAt(j, Provider),
            StrAt(j, State), StrAt(j, ConsumerSegment), StrAt(j, GridConnection),
            if Ownership in j then Some(j[Ownership]) else None)
  }

  /** The scheme query: `ownership` is read when present, else `None`. */
  function Query(a: Answers, annualConsumption: Option<real>): MatchQuery {
    MatchQuery(
      a.state,
      if a.consumerSegment == "" then "residential" else a.consumerSegment,
      a.ownership,
      a.gridConnection == "grid",
      OrNone(a.roofArea),
      annualConsumption)
  }

  /**
   * No step of the wizard writes an `ownership` key, so the scheme matcher is never
   * told whether the user owns the property.
   */
  lemma OwnershipNeverKnown(j: Journey, annual: Option<real>)
    requires WellFormed(j) && RequiredKeys <= j.Keys
    ensures Query(AnswersOf(j), annual).ownsProperty == None
  {
    assert Ownership !in Step1Keys + Step2Keys;
  }

  /**
   * The results page for the answers of a complete journey. It lists, in order,
   * exactly the matched schemes that pass the filters, and its annual consumption is
   * twelve months of the estimated units when those are known.
   */
  function ResultsOf(a: Answers, est: Estimators, f: Filters): (page: ResultsPage)
    ensures var all := est.matchSchemes(Query(a, page.annualConsumption));
      IsSubsequence(page.matches, all) && page.totalMatches == |all| &&
      (forall s :: s in page.matches <==> s in all && PassesFilters(f, s)) &&
      (page.annualConsumption.Some? <==> Truthy(page.estimatedMonthlyUnits)) &&
      (page.annualConsumption.Some? ==> page.annualConsumption.value == page.estimatedMonthlyUnits.value * 12.0) &&
      |page.ownershipLinks| == 3 && |page.gridLinks| == 3 &&
      |page.coverageLinks| == 1 + |est.coverageOptions(all)|
  {
    var units := est.monthlyUnitsFromBill(a.monthlyBill, a.provider);
    var annual := if Truthy(units) then Some(units.value * 12.0) else None;
    var kw := est.systemSizeKw(OrNone(a.roofArea), annual);
    var matches := est.matchSchemes(Query(a, annual));
    var current := FilterParams(f);
    FilterMatchesFacts(matches, f);
    ResultsPage(
      kw, a.roofArea, annual, a.monthlyBill, units, est.netCost(kw),
      FilterMatches(matches, f), |matches|,
      EstimatedAnnualSavings(annual, a.monthlyBill, kw, est.providerTariff(a.provider)),
      FilterLinks("coverage", ["all"] + est.coverageOptions(matches), CoverageLabels, current),
      FilterLinks("ownership", ["all", "owner", "tenant"], OwnershipLabels, current),
      FilterLinks("grid", ["all", "grid", "off-grid"], GridLabels, current),
      f)
  }

  // ---------------------------------------------------------------------------
  // The session and the signed-in user

  /** The session's journey and the user's fields the wizard writes. */
  class Wizard {
    /** `session["subsidy_journey"]`, absent as `None`. */
    var journey: Option<Journey>
    /** `current_user.journey_completed`. */
    var journeyCompleted: bool
    var lastSystemKw: Option<real>
    var lastNetCostInr: Option<real>
    var lastEstimatedSavingsInr: Option<real>
    /** `current_user.last_estimate_updated_at`, as a clock reading supplied by the caller. */
    var lastEstimateUpdatedAt: Option<int>

    ghost predicate Valid()
      reads this
    {
      journey.Some? ==> WellFormed(journey.value)
    }

    constructor(journeyCompleted: bool)
      ensures Valid() && journey == None && this.journeyCompleted == journeyCompleted
      ensures lastSystemKw == None && lastNetCostInr == None
      ensures lastEstimatedSavingsInr == None && lastEstimateUpdatedAt == None
    {
      journey := None;
      this.journeyCompleted := journeyCompleted;
      lastSystemKw, lastNetCostInr, lastEstimatedSavingsInr, lastEstimateUpdatedAt := None, None, None, None;
    }

    /** `_reset_journey`. */
    method ResetJourney()
      modifies this
      ensures journey == None
      ensures journeyCompleted == old(journeyCompleted) && lastSystemKw == old(lastSystemKw)
      ensures lastNetCostInr == old(lastNetCostInr) && lastEstimatedSavingsInr == old(lastEstimatedSavingsInr)
      ensures lastEstimateUpdatedAt == old(lastEstimateUpdatedAt)
    {
      journey := None;
    }

    /** `_ensure_session`: an absent or empty journey becomes an empty one. */
    method EnsureSession() returns (data: Journey)
      requires Valid()
      modifies this
      ensures Valid() && journey == Some(data) && data == old(journey).GetOr(map[])
      ensures journeyCompleted == old(journeyCompleted) && lastSystemKw == old(lastSystemKw)
      ensures lastNetCostInr == old(lastNetCostInr) && lastEstimatedSavingsInr == old(lastEstimatedSavingsInr)
      ensures lastEstimateUpdatedAt == old(lastEstimateUpdatedAt)
    {
      if journey.None? || journey.value == map[] {
        journey := Some(map[]);
      }
      data := journey.value;
    }

    /**
     * Step 1: the previous journey is always discarded; a valid submission stores
     * exactly the three step-1 answers and moves on to step 2.
     */
    method Eligibility(form: Option<NumbersForm>) returns (outcome: Outcome)
      requires Valid()
      modifies this
      ensures Valid()
      ensures form.None? ==> journey == None && outcome == Show(NumbersStep)
      ensures form.Some? ==> journey == Some(Step1Journey(form.value)) && outcome == Redirect(SiteStep)
      ensures journeyCompleted == old(journeyCompleted) && lastSystemKw == old(lastSystemKw)
      ensures lastNetCostInr == old(lastNetCostInr) && lastEstimatedSavingsInr == old(lastEstimatedSavingsInr)
      ensures lastEstimateUpdatedAt == old(lastEstimateUpdatedAt)
    {
      ResetJourney();
      if form.Some? {
        var data := EnsureSession();
        var f := form.value;
        journey := Some(data[RoofArea := Number(f.roofArea.GetOr(0.0))]
                            [MonthlyBill := Number(f.monthlyBill.GetOr(0.0))]
                            [Provider := Str(f.provider.GetOr(""))]);
        Step1JourneyKeys(f);
        return Redirect(SiteStep);
      }
      return Show(NumbersStep);
    }

    /**
     * Step 2: without a roof area the user is sent back to step 1; a valid submission
     * adds the four site answers and moves on to the results.
     */
    method Site(form: Option<SiteForm>) returns (outcome: Outcome)
      requires Valid()
      modifies this
      ensures Valid()
      ensures var data := old(journey).GetOr(map[]);
        (RoofArea !in data ==> journey == Some(data) && outcome == Redirect(NumbersStep)) &&
        (RoofArea in data && form.None? ==> journey == Some(data) && outcome == Show(SiteStep)) &&
        (RoofArea in data && form.Some? ==>
          journey == Some(Step2Update(data, form.value)) && outcome == Redirect(ResultsStep))
      ensures journeyCompleted == old(journeyCompleted) && lastSystemKw == old(lastSystemKw)
      ensures lastNetCostInr == old(lastNetCostInr) && lastEstimatedSavingsInr == old(lastEstimatedSavingsInr)
      ensures lastEstimateUpdatedAt == old(lastEstimateUpdatedAt)
    {
      var data := EnsureSession();
      if RoofArea !in data {
        return Redirect(NumbersStep);
      }
      if form.Some? {
        Step2KeepsStep1(data, form.value);
        journey := Some(Step2Update(data, form.value));
        return Redirect(ResultsStep);
      }
      return Show(SiteStep);
    }

    /**
     * The results page: without all six required answers the user is sent back to
     * step 1 and nothing else changes; otherwise the estimate is recorded on the user,
     * the journey is marked completed, and the page is shown.
     */
    method Results(est: Estimators, coverageArg: Option<string>, ownershipArg: Option<string>,
                   gridArg: Option<string>, now: int) returns (outcome: Outcome)
      requires Valid()
      modifies this
      ensures Valid()
      ensures journey == Some(old(journey).GetOr(map[]))
      ensures var data := old(journey).GetOr(map[]);
        (!(RequiredKeys <= data.Keys) ==>
          outcome == Redirect(NumbersStep) &&
          journeyCompleted == old(journeyCompleted) && lastSystemKw == old(lastSystemKw) &&
          lastNetCostInr == old(lastNetCostInr) &&
          lastEstimatedSavingsInr == old(lastEstimatedSavingsInr) &&
          lastEstimateUpdatedAt == old(lastEstimateUpdatedAt)) &&
        (RequiredKeys <= data.Keys ==>
          var page := ResultsOf(AnswersOf(data), est, FiltersFrom(coverageArg, ownershipArg, gridArg));
          outcome == ShowResults(page) && journeyCompleted &&
          lastSystemKw == Some(page.recommendedKw) && lastNetCostInr == Some(page.netCost) &&
          lastEstimatedSavingsInr == Some(page.estimatedAnnualSavings) &&
          lastEstimateUpdatedAt == Some(now))
    {
      var data := EnsureSession();
      if !(RequiredKeys <= data.Keys) {
        return Redirect(NumbersStep);
      }
      var page := ResultsOf(AnswersOf(data), est, FiltersFrom(coverageArg, ownershipArg, gridArg));
      RecordEstimate(page, now);
      outcome := ShowResults(page);
    }

    /** The estimate the results page stores on the user, who is marked completed. */
    method RecordEstimate(page: ResultsPage, now: int)
      modifies this
      ensures journey == old(journey) && journeyCompleted
      ensures lastSystemKw == Some(page.recommendedKw) && lastNetCostInr == Some(page.netCost)
      ensures lastEstimatedSavingsInr == Some(page.estimatedAnnualSavings)
      ensures lastEstimateUpdatedAt == Some(now)
    {
      lastSystemKw := Some(page.recommendedKw);
      lastNetCostInr := Some(page.netCost);
      lastEstimatedSavingsInr := Some(page.estimatedAnnualSavings);
      lastEstimateUpdatedAt := Some(now);
      if !journeyCompleted {
        journeyCompleted := true;
      }
    }

    /** Restart: the journey is discarded and the user is no longer marked completed. */
    method Restart() returns (outcome: Outcome)
      requires Valid()
      modifies this
      ensures Valid() && journey == None && !journeyCompleted && outcome == Redirect(NumbersStep)
      ensures lastSystemKw == old(lastSystemKw) && lastNetCostInr == old(lastNetCostInr)
      ensures lastEstimatedSavingsInr == old(lastEstimatedSavingsInr)
      ensures lastEstimateUpdatedAt == old(lastEstimateUpdatedAt)
    {
      if journeyCompleted {
        journeyCompleted := false;
      }
      ResetJourney();
      return Redirect(NumbersStep);
    }
  }

  /** A journey through both steps reaches the results page. */
  method WizardReachesResults(est: Estimators, numbers: NumbersForm, site: SiteForm) returns (outcome: Outcome)
    ensures outcome.ShowResults?
  {
    var w := new Wizard(false);
    var o1 := w.Eligibility(Some(numbers));
    var o2 := w.Site(Some(site));
    Step1JourneyKeys(numbers);
    Step2KeepsStep1(Step1Journey(numbers), site);
    outcome := w.Results(est, None, None, None, 0);
  }
}
