/**
 * The energy dashboard's aggregation (`build_energy_context` after its query):
 * energy logs are grouped by day into generation, consumption, export and revenue
 * buckets, the days are listed in date order with each column rounded to two
 * decimals, the columns are totalled, and a list of insights is derived.
 *
 * The day key, `strftime("%Y-%m-%d")` of the log's date, is an `int` here whose
 * order is the order of those strings.
 */
module Energy {
  import opened Wrappers
  import opened Numeric
  import opened Text

  datatype EnergyLog = EnergyLog(
    date: int,
    entryType: Option<string>,
    kwh: Option<real>,
    revenue: Option<real>)

  datatype Column = Generation | Consumption | Export | Revenue

  /** One day's running sums, the value type of `daily_totals`. */
  datatype DayTotals = DayTotals(generation: real, consumption: real, exported: real, revenue: real)

  /** What the `defaultdict` creates for a day seen for the first time. */
  const NoTotals := DayTotals(0.0, 0.0, 0.0, 0.0)

  function Col(t: DayTotals, c: Column): real {
    match c
    case Generation => t.generation
    case Consumption => t.consumption
    case Export => t.exported
    case Revenue => t.revenue
  }

  /** `float(log.kwh or 0)`. */
  function KwhValue(log: EnergyLog): real {
    match log.kwh
    case None => 0.0
    case Some(x) => x
  }

  /** The bucket named by `(log.entry_type or "").lower()`; anything unrecognised is consumption. */
  function Bucket(entryType: Option<string>): (c: Column)
    ensures c != Revenue
  {
    var kind := Lower(entryType.GetOr(""));
    if kind == "generation" then Generation
    else if kind == "export" then Export
    else Consumption
  }

  /** Adds one log to its day's sums, branch by branch as the loop body does. */
  function AddLog(t: DayTotals, log: EnergyLog): DayTotals {
    var kwh := KwhValue(log);
    var t' := match Bucket(log.entryType)
      case Generation => t.(generation := t.generation + kwh)
      case Export => t.(exported := t.exported + kwh)
      case _ => t.(consumption := t.consumption + kwh);
    if log.revenue.Some? then t'.(revenue := t'.revenue + log.revenue.value) else t'
  }

  /**
   * Reference definition: what a log contributes to each column. Its kWh goes to
   * its bucket alone; its revenue counts only when it is present.
   */
  function Contribution(log: EnergyLog, c: Column): real {
    match c
    case Revenue => (match log.revenue case None => 0.0 case Some(r) => r)
    case _ => if Bucket(log.entryType) == c then KwhValue(log) else 0.0
  }

  lemma AddLogAdds(t: DayTotals, log: EnergyLog, c: Column)
    ensures Col(AddLog(t, log), c) == Col(t, c) + Contribution(log, c)
  {
  }

  /** A log's kWh lands in exactly one of the three energy columns. */
  lemma KwhInOneBucket(log: EnergyLog)
    ensures Contribution(log, Generation) + Contribution(log, Consumption) + Contribution(log, Export)
      == KwhValue(log)
    ensures Contribution(log, Bucket(log.entryType)) == KwhValue(log)
  {
  }

  /** Sum of one column's contributions over all logs. */
  function LogSum(logs: seq<EnergyLog>, c: Column): real
    decreases |logs|
  {
    if |logs| == 0 then 0.0
    else LogSum(logs[..|logs| - 1], c) + Contribution(logs[|logs| - 1], c)
  }

  /** Sum of one column's contributions over the logs dated `day`. */
  function DaySum(logs: seq<EnergyLog>, day: int, c: Column): real
    decreases |logs|
  {
    if |logs| == 0 then 0.0
    else
      var last := logs[|logs| - 1];
      DaySum(logs[..|logs| - 1], day, c) + (if last.date == day then Contribution(last, c) else 0.0)
  }

  function Dates(logs: seq<EnergyLog>): set<int> {
    set i | 0 <= i < |logs| :: logs[i].date
  }

  predicate Distinct(s: seq<int>) {
    forall i, j :: 0 <= i < j < |s| ==> s[i] != s[j]
  }

  // ---------------------------------------------------------------------------
  // Grouping by day

  /** The keys of `daily_totals` in insertion order: each day where it first appears. */
  function Keys(logs: seq<EnergyLog>): seq<int>
    decreases |logs|
  {
    if |logs| == 0 then []
    else
      var prior := Keys(logs[..|logs| - 1]);
      var day := logs[|logs| - 1].date;
      if day in prior then prior else prior + [day]
  }

  /** The contents of `daily_totals` after the loop has seen `logs`. */
  function DailyTotals(logs: seq<EnergyLog>): map<int, DayTotals>
    decreases |logs|
  {
    if |logs| == 0 then map[]
    else
      var prior := DailyTotals(logs[..|logs| - 1]);
      var log := logs[|logs| - 1];
      var day := if log.date in prior then prior[log.date] else NoTotals;
      prior[log.date := AddLog(day, log)]
  }

  /** The loop of `build_energy_context` over the logs, filling `daily_totals`. */
  method Aggregate(logs: seq<EnergyLog>) returns (keys: seq<int>, dailyTotals: map<int, DayTotals>)
    ensures keys == Keys(logs) && dailyTotals == DailyTotals(logs)
  {
    keys, dailyTotals := [], map[];
    for i := 0 to |logs|
      invariant keys == Keys(logs[..i]) && dailyTotals == DailyTotals(logs[..i])
    {
      var log := logs[i];
      assert logs[..i + 1][..i] == logs[..i];
      KeysDomain(logs[..i]);
      var dayTotals := NoTotals;
      if log.date in dailyTotals {
        dayTotals := dailyTotals[log.date];
      } else {
        keys := keys + [log.date];
      }
      dailyTotals := dailyTotals[log.date := AddLog(dayTotals, log)];
    }
    assert logs[..|logs|] == logs;
  }

  /** The keys are exactly the days that occur in the logs, each once, and each has its sums. */
  lemma {:induction false} KeysDomain(logs: seq<EnergyLog>)
    ensures Distinct(Keys(logs))
    ensures forall k :: k in Keys(logs) <==> k in DailyTotals(logs)
    ensures forall k :: k in Keys(logs) <==> k in Dates(logs)
    decreases |logs|
  {
    if |logs| > 0 {
      var prefix := logs[..|logs| - 1];
      KeysDomain(prefix);
      assert Dates(logs) == Dates(prefix) + {logs[|logs| - 1].date} by {
        forall k | k in Dates(logs) ensures k in Dates(prefix) + {logs[|logs| - 1].date} {
          var i :| 0 <= i < |logs| && logs[i].date == k;
          if i < |logs| - 1 { assert prefix[i] == logs[i]; }
        }
        forall k | k in Dates(prefix) ensures k in Dates(logs) {
          var i :| 0 <= i < |prefix| && prefix[i].date == k;
          assert logs[i] == prefix[i];
        }
      }
    }
  }

  /** Each day's sums are the sums of that day's logs, column by column. */
  lemma {:induction false} DailyTotalsAreDaySums(logs: seq<EnergyLog>, day: int, c: Column)
    requires day in DailyTotals(logs)
    ensures Col(DailyTotals(logs)[day], c) == DaySum(logs, day, c)
    decreases |logs|
  {
    var prefix := logs[..|logs| - 1];
    var log := logs[|logs| - 1];
    var prior := DailyTotals(prefix);
    if log.date == day {
      var start := if day in prior then prior[day] else NoTotals;
      AddLogAdds(start, log, c);
      if day in prior {
        DailyTotalsAreDaySums(prefix, day, c);
      } else {
        DaySumOfAbsentDay(prefix, day, c);
      }
    } else {
      DailyTotalsAreDaySums(prefix, day, c);
    }
  }

  /** A day with no sums has no logs, so its logs sum to zero. */
  lemma {:induction false} DaySumOfAbsentDay(logs: seq<EnergyLog>, day: int, c: Column)
    requires day !in DailyTotals(logs)
    ensures DaySum(logs, day, c) == 0.0
    decreases |logs|
  {
    if |logs| > 0 {
      DaySumOfAbsentDay(logs[..|logs| - 1], day, c);
    }
  }

  // ---------------------------------------------------------------------------
  // Sums over the days

  predicate InDomain(keys: seq<int>, m: map<int, DayTotals>) {
    forall i :: 0 <= i < |keys| ==> keys[i] in m
  }

  /** Sum of column `c` over the days `keys`, in that order. */
  function SumKeys(keys: seq<int>, m: map<int, DayTotals>, c: Column): real
    requires InDomain(keys, m)
  {
    if |keys| == 0 then 0.0 else Col(m[keys[0]], c) + SumKeys(keys[1..], m, c)
  }

  lemma {:induction false} SumKeysAppend(keys: seq<int>, k: int, m: map<int, DayTotals>, c: Column)
    requires InDomain(keys, m)
    requires k in m
    ensures SumKeys(keys + [k], m, c) == SumKeys(keys, m, c) + Col(m[k], c)
  {
    if |keys| > 0 {
      assert (keys + [k])[1..] == keys[1..] + [k];
      SumKeysAppend(keys[1..], k, m, c);
    }
  }

  lemma {:induction false} SumKeysFresh(keys: seq<int>, m: map<int, DayTotals>, d: int, v: DayTotals, c: Column)
    requires InDomain(keys, m)
    requires d !in keys
    ensures SumKeys(keys, m[d := v], c) == SumKeys(keys, m, c)
  {
    if |keys| > 0 {
      SumKeysFresh(keys[1..], m, d, v, c);
    }
  }

  lemma {:induction false} SumKeysUpdate(keys: seq<int>, m: map<int, DayTotals>, d: int, v: DayTotals, c: Column)
    requires InDomain(keys, m)
    requires Distinct(keys) && d in keys
    ensures SumKeys(keys, m[d := v], c) == SumKeys(keys, m, c) - Col(m[d], c) + Col(v, c)
  {
    assert Distinct(keys[1..]);
    if keys[0] == d {
      assert d !in keys[1..];
      SumKeysFresh(keys[1..], m, d, v, c);
    } else {
      SumKeysUpdate(keys[1..], m, d, v, c);
    }
  }

  /** Conservation: summed over all days, each column is the sum over all logs. */
  lemma {:induction false} AggregateConserves(logs: seq<EnergyLog>, c: Column)
    ensures InDomain(Keys(logs), DailyTotals(logs))
    ensures SumKeys(Keys(logs), DailyTotals(logs), c) == LogSum(logs, c)
    decreases |logs|
  {
    KeysDomain(logs);
    if |logs| > 0 {
      var prefix := logs[..|logs| - 1];
      var log := logs[|logs| - 1];
      var keys, prior := Keys(prefix), DailyTotals(prefix);
      AggregateConserves(prefix, c);
      KeysDomain(prefix);
      if log.date in keys {
        var v := AddLog(prior[log.date], log);
        AddLogAdds(prior[log.date], log, c);
        SumKeysUpdate(keys, prior, log.date, v, c);
      } else {
        var v := AddLog(NoTotals, log);
        AddLogAdds(NoTotals, log, c);
        SumKeysFresh(keys, prior, log.date, v, c);
        SumKeysAppend(keys, log.date, prior[log.date := v], c);
      }
    }
  }

  // ---------------------------------------------------------------------------
  // The daily series: `sorted(daily_totals.items())`, each column rounded

  /** Inserts `x` into an ascending list before the first element not below it. */
  function Insert(x: int, s: seq<int>): (r: seq<int>)
    ensures |r| == |s| + 1
  {
    if |s| == 0 || x <= s[0] then [x] + s else [s[0]] + Insert(x, s[1..])
  }

  /** Ascending order of the day keys (the order `sorted` gives distinct keys). */
  function SortAsc(s: seq<int>): (r: seq<int>)
    ensures |r| == |s|
  {
    if |s| == 0 then [] else Insert(s[0], SortAsc(s[1..]))
  }

  lemma {:induction false} InsertFacts(x: int, s: seq<int>)
    ensures multiset(Insert(x, s)) == multiset(s) + multiset{x}
    ensures Insert(x, s)[0] == x || (|s| > 0 && Insert(x, s)[0] == s[0])
  {
    if |s| > 0 && x > s[0] {
      InsertFacts(x, s[1..]);
      assert s == [s[0]] + s[1..];
    }
  }

  /** Sorting keeps the keys, each as often as before. */
  lemma {:induction false} SortFacts(s: seq<int>)
    ensures multiset(SortAsc(s)) == multiset(s)
  {
    if |s| > 0 {
      var rest := SortAsc(s[1..]);
      calc {
        multiset(SortAsc(s));
        multiset(Insert(s[0], rest));
        { InsertFacts(s[0], rest); }
        multiset(rest) + multiset{s[0]};
        { SortFacts(s[1..]); }
        multiset(s[1..]) + multiset{s[0]};
        { assert s == [s[0]] + s[1..]; }
        multiset(s);
      }
    }
  }

  /** Each key is below the next one. */
  predicate Increasing(s: seq<int>)
    decreases |s|
  {
    |s| < 2 || (s[0] < s[1] && Increasing(s[1..]))
  }

  lemma {:induction false} InsertIncreasing(x: int, s: seq<int>)
    requires Increasing(s) && x !in s
    ensures Increasing(Insert(x, s))
  {
    if |s| > 0 && x > s[0] {
      assert s == [s[0]] + s[1..];
      InsertIncreasing(x, s[1..]);
      InsertFacts(x, s[1..]);
    }
  }

  /** Sorting distinct keys puts them in strictly ascending order. */
  lemma {:induction false} SortIncreasing(s: seq<int>)
    requires Distinct(s)
    ensures Increasing(SortAsc(s))
  {
    if |s| > 0 {
      assert Distinct(s[1..]);
      SortIncreasing(s[1..]);
      SortFacts(s[1..]);
      assert s[0] !in multiset(s[1..]);
      InsertIncreasing(s[0], SortAsc(s[1..]));
    }
  }

  lemma {:induction false} IncreasingOrdered(s: seq<int>)
    requires Increasing(s)
    ensures forall i, j :: 0 <= i < j < |s| ==> s[i] < s[j]
    decreases |s|
  {
    if |s| >= 2 {
      IncreasingOrdered(s[1..]);
      forall i, j | 0 <= i < j < |s| ensures s[i] < s[j] {
        if i > 0 { assert s[i] == s[1..][i - 1] && s[j] == s[1..][j - 1]; }
        else if j > 1 { assert s[1] == s[1..][0] && s[j] == s[1..][j - 1]; }
      }
    }
  }

  lemma {:induction false} SumKeysInsert(x: int, s: seq<int>, m: map<int, DayTotals>, c: Column)
    requires InDomain(s, m) && x in m
    ensures InDomain(Insert(x, s), m)
    ensures SumKeys(Insert(x, s), m, c) == Col(m[x], c) + SumKeys(s, m, c)
  {
    if |s| > 0 && x > s[0] {
      SumKeysInsert(x, s[1..], m, c);
    }
  }

  /** Summing the days in sorted order gives the same sum. */
  lemma {:induction false} SumKeysSort(s: seq<int>, m: map<int, DayTotals>, c: Column)
    requires InDomain(s, m)
    ensures InDomain(SortAsc(s), m)
    ensures SumKeys(SortAsc(s), m, c) == SumKeys(s, m, c)
  {
    if |s| > 0 {
      SumKeysSort(s[1..], m, c);
      SumKeysInsert(s[0], SortAsc(s[1..]), m, c);
    }
  }

  /** One entry of `daily_series`. */
  datatype DayRow = DayRow(date: int, generation: real, consumption: real, exported: real, revenue: real)

  function RowCol(r: DayRow, c: Column): real {
    match c
    case Generation => r.generation
    case Consumption => r.consumption
    case Export => r.exported
    case Revenue => r.revenue
  }

  function Row(day: int, t: DayTotals): DayRow {
    DayRow(day, Round(t.generation, 2), Round(t.consumption, 2), Round(t.exported, 2), Round(t.revenue, 2))
  }

  function Rows(keys: seq<int>, m: map<int, DayTotals>): (r: seq<DayRow>)
    requires InDomain(keys, m)
    ensures |r| == |keys|
  {
    if |keys| == 0 then [] else [Row(keys[0], m[keys[0]])] + Rows(keys[1..], m)
  }

  lemma {:induction false} RowsAt(keys: seq<int>, m: map<int, DayTotals>)
    requires InDomain(keys, m)
    ensures forall i :: 0 <= i < |keys| ==> Rows(keys, m)[i] == Row(keys[i], m[keys[i]])
  {
    if |keys| > 0 {
      RowsAt(keys[1..], m);
    }
  }

  lemma SortedKeysInDomain(logs: seq<EnergyLog>)
    ensures InDomain(SortAsc(Keys(logs)), DailyTotals(logs))
  {
    AggregateConserves(logs, Generation);
    SumKeysSort(Keys(logs), DailyTotals(logs), Generation);
  }

  /** A sequence without repeats has as many elements as it has distinct values. */
  lemma {:induction false} DistinctCard(s: seq<int>)
    requires Distinct(s)
    ensures |set k | k in s| == |s|
  {
    if |s| > 0 {
      var rest := s[1..];
      assert Distinct(rest);
      DistinctCard(rest);
      assert (set k | k in s) == (set k | k in rest) + {s[0]};
      assert s[0] !in (set k | k in rest);
    }
  }

  /**
   * `daily_series`: one row per day, by ascending date, each column rounded to 2
   * places; there are as many rows as there are distinct dates in the logs.
   */
  function DailySeries(logs: seq<EnergyLog>): (r: seq<DayRow>)
    ensures |r| == |Dates(logs)|
  {
    SortedKeysInDomain(logs);
    KeysDomain(logs);
    DistinctCard(Keys(logs));
    assert (set k | k in Keys(logs)) == Dates(logs);
    Rows(SortAsc(Keys(logs)), DailyTotals(logs))
  }

  /** The i-th row is dated by the i-th key. */
  lemma {:induction false} RowsDates(keys: seq<int>, m: map<int, DayTotals>)
    requires InDomain(keys, m)
    ensures forall i :: 0 <= i < |keys| ==> Rows(keys, m)[i].date == keys[i]
  {
    if |keys| > 0 {
      RowsDates(keys[1..], m);
    }
  }

  /** Sorting distinct keys gives the same keys in strictly ascending order. */
  lemma SortedKeys(keys: seq<int>)
    requires Distinct(keys)
    ensures forall i, j :: 0 <= i < j < |SortAsc(keys)| ==> SortAsc(keys)[i] < SortAsc(keys)[j]
    ensures forall k :: k in SortAsc(keys) <==> k in keys
  {
    var sorted := SortAsc(keys);
    SortFacts(keys);
    SortIncreasing(keys);
    IncreasingOrdered(sorted);
    forall k ensures k in sorted <==> k in keys {
      assert k in sorted <==> k in multiset(sorted);
      assert k in keys <==> k in multiset(keys);
    }
  }

  /** The series has one row for each day that occurs in the logs, in strictly ascending date order. */
  lemma DailySeriesDates(logs: seq<EnergyLog>)
    ensures var s := DailySeries(logs);
      (forall i, j :: 0 <= i < j < |s| ==> s[i].date < s[j].date) &&
      (forall i :: 0 <= i < |s| ==> s[i].date in Dates(logs)) &&
      (forall k :: k in Dates(logs) ==> exists i :: 0 <= i < |s| && s[i].date == k)
  {
    var keys := Keys(logs);
    var sorted := SortAsc(keys);
    KeysDomain(logs);
    SortedKeysInDomain(logs);
    SortedKeys(keys);
    RowsDates(sorted, DailyTotals(logs));
    var s := DailySeries(logs);
    assert s == Rows(sorted, DailyTotals(logs));
    forall k | k in Dates(logs) ensures exists i :: 0 <= i < |s| && s[i].date == k {
      var i :| 0 <= i < |sorted| && sorted[i] == k;
      assert s[i].date == k;
    }
  }

  /** Each row holds its day's sums over the logs, rounded to 2 places. */
  lemma DailySeriesValues(logs: seq<EnergyLog>)
    ensures var s := DailySeries(logs);
      forall i, c :: 0 <= i < |s| ==> RowCol(s[i], c) == Round(DaySum(logs, s[i].date, c), 2)
  {
    var m := DailyTotals(logs);
    var sorted := SortAsc(Keys(logs));
    var s := DailySeries(logs);
    SortedKeysInDomain(logs);
    RowsAt(sorted, m);
    forall i, c | 0 <= i < |s| ensures RowCol(s[i], c) == Round(DaySum(logs, s[i].date, c), 2) {
      DailyTotalsAreDaySums(logs, sorted[i], c);
    }
  }

  // ---------------------------------------------------------------------------
  // Totals

  /** `sum(item[c] for item in rows)`. */
  function SeriesSum(rows: seq<DayRow>, c: Column): real {
    if |rows| == 0 then 0.0 else RowCol(rows[0], c) + SeriesSum(rows[1..], c)
  }

  lemma {:induction false} RowsRounding(keys: seq<int>, m: map<int, DayTotals>, c: Column)
    requires InDomain(keys, m)
    ensures Abs(SeriesSum(Rows(keys, m), c) - SumKeys(keys, m, c)) <= 0.005 * |keys| as real
  {
    if |keys| > 0 {
      RowsRounding(keys[1..], m, c);
      Round2Error(Col(m[keys[0]], c));
      assert Rows(keys, m)[1..] == Rows(keys[1..], m);
    }
  }

  datatype Totals = Totals(generation: real, exported: real, revenue: real, consumption: real)

  /** A total: the sum of its column over the series, rounded to 2 places. */
  function TotalOf(series: seq<DayRow>, c: Column): real {
    Round(SeriesSum(series, c), 2)
  }

  function TotalsOf(series: seq<DayRow>): Totals {
    Totals(TotalOf(series, Generation), TotalOf(series, Export), TotalOf(series, Revenue), TotalOf(series, Consumption))
  }

  /**
   * Conservation up to rounding: each total differs from the sum of that column
   * over all logs by at most half a cent per day plus half a cent for the total.
   */
  lemma TotalsConserve(logs: seq<EnergyLog>, c: Column)
    ensures var s := DailySeries(logs);
      Abs(TotalOf(s, c) - LogSum(logs, c)) <= 0.005 * (|s| + 1) as real
  {
    AggregateConserves(logs, c);
    SeriesTotalError(logs, c, LogSum(logs, c));
  }

  lemma SeriesTotalError(logs: seq<EnergyLog>, c: Column, exact: real)
    requires InDomain(Keys(logs), DailyTotals(logs)) && SumKeys(Keys(logs), DailyTotals(logs), c) == exact
    ensures var s := DailySeries(logs);
      Abs(TotalOf(s, c) - exact) <= 0.005 * (|s| + 1) as real
  {
    SortedTotalError(Keys(logs), DailyTotals(logs), c, exact);
  }

  /** The rounded total over the sorted rows is within the rounding bound of the exact sum. */
  lemma SortedTotalError(keys: seq<int>, m: map<int, DayTotals>, c: Column, exact: real)
    requires InDomain(keys, m) && SumKeys(keys, m, c) == exact
    ensures InDomain(SortAsc(keys), m)
    ensures var s := Rows(SortAsc(keys), m);
      Abs(TotalOf(s, c) - exact) <= 0.005 * (|s| + 1) as real
  {
    SumKeysSort(keys, m, c);
    RowsTotalError(SortAsc(keys), m, c, exact);
  }

  /** Rounding each row and then the total moves the exact sum by at most half a cent per row and one more. */
  lemma RowsTotalError(keys: seq<int>, m: map<int, DayTotals>, c: Column, exact: real)
    requires InDomain(keys, m) && SumKeys(keys, m, c) == exact
    ensures Abs(TotalOf(Rows(keys, m), c) - exact) <= 0.005 * (|keys| + 1) as real
  {
    var seriesSum := SeriesSum(Rows(keys, m), c);
    RowsRounding(keys, m, c);
    Round2Error(seriesSum);
    Triangle(TotalOf(Rows(keys, m), c), seriesSum, exact, 0.005, 0.005 * |keys| as real);
  }

  lemma Round2Error(x: real)
    ensures Abs(Round(x, 2) - x) <= 0.005
  {
    assert Pow10(2) == 100;
  }

  lemma Triangle(x: real, y: real, z: real, e1: real, e2: real)
    requires Abs(x - y) <= e1 && Abs(y - z) <= e2
    ensures Abs(x - z) <= e1 + e2
  {
  }

  // ---------------------------------------------------------------------------
  // Insights

  /** The insights, without their wording. */
  datatype Insight =
    | AverageGeneration(kwh: real)
    | LatestReading(date: int, kwh: real)
    | ExportRatio(percent: real)
    | PeakGeneration(date: int, kwh: real)
    | WeekOverWeek(up: bool, percent: real)
    | RevenueAverage(perDay: real, total: real)

  /** The day `max(series, key=generation)` picks: a greatest one, the first of equals. */
  function PeakIndex(series: seq<DayRow>): (p: nat)
    requires |series| > 0
    ensures p < |series|
    ensures forall i :: 0 <= i < |series| ==> series[i].generation <= series[p].generation
    ensures forall i :: 0 <= i < p ==> series[i].generation < series[p].generation
    decreases |series|
  {
    if |series| == 1 then 0
    else
      var best := PeakIndex(series[..|series| - 1]);
      if series[|series| - 1].generation > series[best].generation then |series| - 1 else best
  }

  /** Generation over the last seven days. */
  function RecentWeek(series: seq<DayRow>): real
    requires |series| >= 14
  {
    SeriesSum(series[|series| - 7..], Generation)
  }

  /** Generation over the seven days before those. */
  function PreviousWeek(series: seq<DayRow>): real
    requires |series| >= 14
  {
    SeriesSum(series[|series| - 14..|series| - 7], Generation)
  }

  function WeekInsight(series: seq<DayRow>): seq<Insight> {
    if |series| >= 14 && PreviousWeek(series) != 0.0 then
      var change := RecentWeek(series) - PreviousWeek(series);
      [WeekOverWeek(change >= 0.0, Abs(change) / PreviousWeek(series) * 100.0)]
    else []
  }

  /** The insights that come before the week-over-week comparison. */
  function LeadInsights(series: seq<DayRow>, totals: Totals): (r: seq<Insight>)
    requires |series| > 0
    ensures forall i :: 0 <= i < |r| ==> !r[i].WeekOverWeek?
  {
    var n := |series| as real;
    var latest := series[|series| - 1];
    var peak := series[PeakIndex(series)];
    [AverageGeneration(SeriesSum(series, Generation) / n),
     LatestReading(latest.date, latest.generation)] +
    (if totals.generation != 0.0 then [ExportRatio(totals.exported / totals.generation * 100.0)] else []) +
    [PeakGeneration(peak.date, peak.generation)]
  }

  /** The revenue insight, last of all. */
  function RevenueInsights(series: seq<DayRow>, totals: Totals): (r: seq<Insight>)
    requires |series| > 0
    ensures forall i :: 0 <= i < |r| ==> !r[i].WeekOverWeek?
  {
    if totals.revenue != 0.0 then [RevenueAverage(totals.revenue / |series| as real, totals.revenue)] else []
  }

  /**
   * The insights `build_energy_context` derives from the series and the totals: none
   * without a series, else three to six, the average first and the latest day next.
   */
  function Insights(series: seq<DayRow>, totals: Totals): (r: seq<Insight>)
    ensures |series| == 0 ==> r == []
    ensures |series| > 0 ==>
      3 <= |r| <= 6 &&
      r[0] == AverageGeneration(SeriesSum(series, Generation) / |series| as real) &&
      r[1] == LatestReading(series[|series| - 1].date, series[|series| - 1].generation)
  {
    if |series| == 0 then []
    else LeadInsights(series, totals) + WeekInsight(series) + RevenueInsights(series, totals)
  }

  /** Appends the insights one by one, as `build_energy_context` does. */
  method BuildInsights(series: seq<DayRow>, totals: Totals) returns (insights: seq<Insight>)
    ensures insights == Insights(series, totals)
  {
    insights := [];
    if |series| > 0 {
      var n := |series| as real;
      insights := insights + [AverageGeneration(SeriesSum(series, Generation) / n)];
      var latest := series[|series| - 1];
      insights := insights + [LatestReading(latest.date, latest.generation)];
      if totals.generation != 0.0 {
        insights := insights + [ExportRatio(totals.exported / totals.generation * 100.0)];
      }
      var peak := series[PeakIndex(series)];
      insights := insights + [PeakGeneration(peak.date, peak.generation)];
      if |series| >= 14 {
        var recentTotal := SeriesSum(series[|series| - 7..], Generation);
        var previousTotal := SeriesSum(series[|series| - 14..|series| - 7], Generation);
        if previousTotal != 0.0 {
          var change := recentTotal - previousTotal;
          insights := insights + [WeekOverWeek(change >= 0.0, Abs(change) / previousTotal * 100.0)];
        }
      }
      if totals.revenue != 0.0 {
        insights := insights + [RevenueAverage(totals.revenue / n, totals.revenue)];
      }
    }
  }

  /** The export-ratio insight appears exactly when there is a series and nonzero total generation. */
  lemma ExportRatioInsight(series: seq<DayRow>, totals: Totals)
    ensures var r := Insights(series, totals);
      (exists i :: 0 <= i < |r| && r[i].ExportRatio?) <==> |series| > 0 && totals.generation != 0.0
  {
    var r := Insights(series, totals);
    if |series| > 0 && totals.generation != 0.0 {
      assert r[2].ExportRatio?;
    }
  }

  /** The revenue insight appears exactly when there is a series and nonzero total revenue. */
  lemma RevenueInsight(series: seq<DayRow>, totals: Totals)
    ensures var r := Insights(series, totals);
      (exists i :: 0 <= i < |r| && r[i].RevenueAverage?) <==> |series| > 0 && totals.revenue != 0.0
  {
    var r := Insights(series, totals);
    if |series| > 0 && totals.revenue != 0.0 {
      assert r[|r| - 1].RevenueAverage?;
    }
  }

  /**
   * The week-over-week insight appears exactly when there are at least 14 days and the
   * earlier week generated something; it says "up" exactly when the last week did no worse.
   */
  lemma WeekOverWeekInsight(series: seq<DayRow>, totals: Totals)
    ensures var r := Insights(series, totals);
      ((exists i :: 0 <= i < |r| && r[i].WeekOverWeek?) <==>
        |series| >= 14 && PreviousWeek(series) != 0.0) &&
      (forall i :: 0 <= i < |r| && r[i].WeekOverWeek? ==>
        (r[i].up <==> RecentWeek(series) >= PreviousWeek(series)) &&
        r[i].percent * PreviousWeek(series) == Abs(RecentWeek(series) - PreviousWeek(series)) * 100.0)
  {
    if |series| > 0 {
      var r := Insights(series, totals);
      var head, week, tail := LeadInsights(series, totals), WeekInsight(series), RevenueInsights(series, totals);
      assert r == head + week + tail;
      WeekOnlyFromMiddle(head, week, tail);
      if |series| >= 14 && PreviousWeek(series) != 0.0 {
        var previous := PreviousWeek(series);
        var change := RecentWeek(series) - previous;
        var insight := WeekOverWeek(change >= 0.0, Abs(change) / previous * 100.0);
        assert week == [insight];
        assert r[|head|] == insight;
        assert insight.percent * previous == Abs(change) * 100.0;
        assert forall x :: x in week ==> x == insight;
      } else {
        assert week == [];
      }
    }
  }

  /** In `head + week + tail`, a week-over-week entry can only come from `week`. */
  lemma WeekOnlyFromMiddle(head: seq<Insight>, week: seq<Insight>, tail: seq<Insight>)
    requires forall i :: 0 <= i < |head| ==> !head[i].WeekOverWeek?
    requires forall i :: 0 <= i < |tail| ==> !tail[i].WeekOverWeek?
    ensures var r := head + week + tail;
      ((exists i :: 0 <= i < |r| && r[i].WeekOverWeek?) <==> (exists i :: 0 <= i < |week| && week[i].WeekOverWeek?)) &&
      (forall i :: 0 <= i < |r| && r[i].WeekOverWeek? ==> r[i] in week)
  {
    var r := head + week + tail;
    forall i | 0 <= i < |r| && r[i].WeekOverWeek?
      ensures |head| <= i < |head| + |week| && r[i] == week[i - |head|]
    {
    }
    forall i | 0 <= i < |week| && week[i].WeekOverWeek?
      ensures r[|head| + i] == week[i]
    {
    }
  }

  /** The peak insight names a day of greatest generation, the earliest of equals. */
  lemma PeakInsight(series: seq<DayRow>, totals: Totals)
    ensures var r := Insights(series, totals);
      forall i :: 0 <= i < |r| && r[i].PeakGeneration? ==>
        exists p :: 0 <= p < |series| && series[p].date == r[i].date && series[p].generation == r[i].kwh &&
          (forall j :: 0 <= j < |series| ==> series[j].generation <= r[i].kwh) &&
          (forall j :: 0 <= j < p ==> series[j].generation < r[i].kwh)
  {
    if |series| > 0 {
      var p := PeakIndex(series);
      var r := Insights(series, totals);
      forall i | 0 <= i < |r| && r[i].PeakGeneration?
        ensures series[p].date == r[i].date && series[p].generation == r[i].kwh
      {
      }
    }
  }

  // ---------------------------------------------------------------------------
  // The whole context

  datatype EnergyContext = EnergyContext(
    logs: seq<EnergyLog>,
    hasRealLogs: bool,
    dailySeries: seq<DayRow>,
    totals: Totals,
    insights: seq<Insight>)

  /** `build_energy_context` from the user's logs onwards (newest first, as queried). */
  method BuildEnergyContext(logs: seq<EnergyLog>) returns (ctx: EnergyContext)
    ensures ctx.logs == logs && (ctx.hasRealLogs <==> |logs| > 0)
    ensures ctx.dailySeries == DailySeries(logs)
    ensures ctx.totals == TotalsOf(ctx.dailySeries)
    ensures ctx.insights == Insights(ctx.dailySeries, ctx.totals)
  {
    var hasRealLogs := |logs| > 0;
    var keys: seq<int> := [];
    var dailyTotals: map<int, DayTotals> := map[];
    if hasRealLogs {
      keys, dailyTotals := Aggregate(logs);
    }
    SortedKeysInDomain(logs);
    var dailySeries := Rows(SortAsc(keys), dailyTotals);
    var totals := TotalsOf(dailySeries);
    var insights := BuildInsights(dailySeries, totals);
    var sampleLogs: seq<EnergyLog> := [];
    ctx := EnergyContext(if hasRealLogs then logs else sampleLogs, hasRealLogs, dailySeries, totals, insights);
  }

  /** Without logs there is no series, every total is zero and there are no insights. */
  lemma NoLogsContext()
    ensures DailySeries([]) == []
    ensures TotalsOf([]) == Totals(0.0, 0.0, 0.0, 0.0)
    ensures forall t :: Insights([], t) == []
  {
    RoundOfInt(0, 2);
  }
}
