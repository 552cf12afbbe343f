// The simulated financial tools of the CopilotKit backend's agent: a KPI table
// looked up by a normalised name, keyword-dispatched chart data, a bounded
// transaction list, dashboard defaulting and the revenue sum and maximum.
// Randomness and the clock are parameters; floating-point metrics are not modelled.

module FinancialTools {
  import opened Wrappers
  import opened Text
  import opened JsonValue

  // ---------------------------------------------------------------------------
  // calculate_kpi
  // ---------------------------------------------------------------------------

  datatype KpiData = KpiData(value: real, unit: string, trend: string, benchmark: real, status: string)

  /** The KPI table, in the order the lookup tries its keys. */
  const KpiTable: seq<(string, KpiData)> := [
    ("roi", KpiData(24.5, "%", "increasing", 18.0, "above_target")),
    ("profit margin", KpiData(32.8, "%", "stable", 30.0, "above_target")),
    ("customer acquisition cost", KpiData(145.0, "$", "decreasing", 180.0, "above_target")),
    ("ltv", KpiData(2850.0, "$", "increasing", 2500.0, "above_target"))
  ]

  const KpiKeys: seq<string> := ["roi", "profit margin", "customer acquisition cost", "ltv"]

  datatype KpiResult =
    | KpiFound(kpiName: string, timePeriod: string, currentValue: real, unit: string,
               trend: string, benchmark: real, status: string, interpretation: string)
    | KpiMissing(kpiName: string, timePeriod: string, error: string, availableKpis: seq<string>)

  /** `kpi_name.lower().replace("_", " ")`. */
  function Normalise(name: string): string {
    ReplaceChar(Lower(name), '_', ' ')
  }

  /** `key in kpi_key or kpi_key in key`. */
  predicate KeyMatches(key: string, kpiKey: string) {
    Contains(kpiKey, key) || Contains(key, kpiKey)
  }

  /** The first table position at or after `from` whose key matches. */
  function FirstMatchFrom(kpiKey: string, from: nat): (r: Option<nat>)
    requires from <= |KpiTable|
    ensures r.Some? ==> (from <= r.value < |KpiTable| && KeyMatches(KpiTable[r.value].0, kpiKey)
      && forall k :: from <= k < r.value ==> !KeyMatches(KpiTable[k].0, kpiKey))
    ensures r.None? ==> forall k :: from <= k < |KpiTable| ==> !KeyMatches(KpiTable[k].0, kpiKey)
    decreases |KpiTable| - from
  {
    if from == |KpiTable| then None
    else if KeyMatches(KpiTable[from].0, kpiKey) then Some(from)
    else FirstMatchFrom(kpiKey, from + 1)
  }

  function FoundRecord(kpiName: string, timePeriod: string, d: KpiData): KpiResult {
    KpiFound(kpiName, timePeriod, d.value, d.unit, d.trend, d.benchmark, d.status,
      kpiName + " is " + ReplaceChar(d.status, '_', ' ') + " with a " + d.trend + " trend")
  }

  function MissingRecord(kpiName: string, timePeriod: string): KpiResult {
    KpiMissing(kpiName, timePeriod, "KPI '" + kpiName + "' not available in current dataset",
      seq(|KpiTable|, i requires 0 <= i < |KpiTable| => KpiTable[i].0))
  }

  /** The reply of `calculate_kpi`. */
  function KpiReply(kpiName: string, timePeriod: string): KpiResult {
    match FirstMatchFrom(Normalise(kpiName), 0)
    case Some(i) => FoundRecord(kpiName, timePeriod, KpiTable[i].1)
    case None => MissingRecord(kpiName, timePeriod)
  }

  /** `calculate_kpi`: the loop over the table with its early return. */
  method CalculateKpi(kpiName: string, timePeriod: string) returns (r: KpiResult)
    ensures r == KpiReply(kpiName, timePeriod)
  {
    var kpiKey := Normalise(kpiName);
    var i := 0;
    while i < |KpiTable|
      invariant 0 <= i <= |KpiTable|
      invariant FirstMatchFrom(kpiKey, 0) == FirstMatchFrom(kpiKey, i)
    {
      var (key, data) := KpiTable[i];
      if KeyMatches(key, kpiKey) {
        r := FoundRecord(kpiName, timePeriod, data);
        return;
      }
      i := i + 1;
    }
    r := MissingRecord(kpiName, timePeriod);
  }

  /** `i` is the first table position whose key matches the normalised name. */
  predicate FirstMatching(kpiName: string, i: int) {
    0 <= i < |KpiTable| && KeyMatches(KpiTable[i].0, Normalise(kpiName))
    && forall k :: 0 <= k < i ==> !KeyMatches(KpiTable[k].0, Normalise(kpiName))
  }

  /**
   * A KPI is found exactly when some key matches the normalised name; the record then
   * copies the first matching entry and echoes the name and period. Otherwise the error
   * record names the KPI and lists the four keys in table order.
   */
  lemma KpiReplySpec(kpiName: string, timePeriod: string)
    ensures KpiReply(kpiName, timePeriod).KpiFound? <==>
      exists i :: 0 <= i < |KpiTable| && KeyMatches(KpiTable[i].0, Normalise(kpiName))
    ensures KpiReply(kpiName, timePeriod).KpiFound? ==> exists i :: (FirstMatching(kpiName, i)
      && KpiReply(kpiName, timePeriod) == FoundRecord(kpiName, timePeriod, KpiTable[i].1))
    ensures KpiReply(kpiName, timePeriod).kpiName == kpiName
    ensures KpiReply(kpiName, timePeriod).timePeriod == timePeriod
    ensures KpiReply(kpiName, timePeriod).KpiMissing? ==>
      KpiReply(kpiName, timePeriod).error == "KPI '" + kpiName + "' not available in current dataset"
      && KpiReply(kpiName, timePeriod).availableKpis == KpiKeys
  {
    var m := FirstMatchFrom(Normalise(kpiName), 0);
    if m.Some? {
      assert FirstMatching(kpiName, m.value);
    } else {
      var keys := seq(|KpiTable|, i requires 0 <= i < |KpiTable| => KpiTable[i].0);
      assert keys == KpiKeys;
    }
  }

  /** The interpretation reads the status with its underscores turned into spaces. */
  lemma InterpretationSpec(kpiName: string, timePeriod: string, d: KpiData)
    ensures FoundRecord(kpiName, timePeriod, d).interpretation
      == kpiName + " is " + ReplaceChar(d.status, '_', ' ') + " with a " + d.trend + " trend"
    ensures '_' !in ReplaceChar(d.status, '_', ' ')
  {
    var s := ReplaceChar(d.status, '_', ' ');
    forall i | 0 <= i < |s| ensures s[i] != '_' {
    }
  }

  lemma LowerUpper(s: string)
    ensures Lower(Upper(s)) == Lower(s)
  {
  }

  /** Letter case in the KPI name does not change which entry is found. */
  lemma KpiIgnoresCase(kpiName: string)
    ensures FirstMatchFrom(Normalise(Upper(kpiName)), 0) == FirstMatchFrom(Normalise(kpiName), 0)
  {
    LowerUpper(kpiName);
  }

  /** An empty name occurs in every key, so it finds the first entry. */
  lemma EmptyNameFindsRoi(timePeriod: string)
    ensures KpiReply("", timePeriod) == FoundRecord("", timePeriod, KpiTable[0].1)
  {
    assert Normalise("") == "";
    assert KeyMatches(KpiTable[0].0, "");
  }

  // ---------------------------------------------------------------------------
  // generate_chart
  // ---------------------------------------------------------------------------

  datatype ChartPoint = ChartPoint(caption: string, value: real)

  datatype ChartConfig = ChartConfig(
    responsive: bool, maintainAspectRatio: bool,
    yAxisLabel: Option<string>, xAxisLabel: Option<string>)

  datatype Chart = Chart(chartType: string, title: string, data: seq<ChartPoint>, config: ChartConfig)

  const RevenuePoints: seq<ChartPoint> :=
    [ChartPoint("October", 765000.0), ChartPoint("November", 850000.0), ChartPoint("December", 950000.0)]

  const GrowthPoints: seq<ChartPoint> :=
    [ChartPoint("October", 0.0), ChartPoint("November", 11.1), ChartPoint("December", 17.6)]

  const CategoryPoints: seq<ChartPoint> :=
    [ChartPoint("Category A", 45.0), ChartPoint("Category B", 30.0), ChartPoint("Category C", 25.0)]

  const DefaultChartTitle: string := "Financial Analysis"

  /** The chart `generate_chart` returns. */
  function ChartFor(chartType: string, dataSource: string, title: string): Chart {
    var source := Lower(dataSource);
    var plain := ChartConfig(true, false, None, None);
    if Contains(source, "revenue") then
      Chart(chartType, title, RevenuePoints, plain.(yAxisLabel := Some("Revenue ($)"), xAxisLabel := Some("Month")))
    else if Contains(source, "growth") then
      Chart(chartType, title, GrowthPoints, plain.(yAxisLabel := Some("Growth Rate (%)"), xAxisLabel := Some("Month")))
    else
      Chart(chartType, title, CategoryPoints, plain)
  }

  /** `generate_chart`: the record is built, then its data and axis labels are set by keyword. */
  method GenerateChart(chartType: string, dataSource: string, title: string) returns (chart: Chart)
    ensures chart == ChartFor(chartType, dataSource, title)
  {
    chart := Chart(chartType, title, [], ChartConfig(true, false, None, None));
    var source := Lower(dataSource);
    if Contains(source, "revenue") {
      chart := chart.(data := RevenuePoints);
      chart := chart.(config := chart.config.(yAxisLabel := Some("Revenue ($)")));
      chart := chart.(config := chart.config.(xAxisLabel := Some("Month")));
    } else if Contains(source, "growth") {
      chart := chart.(data := GrowthPoints);
      chart := chart.(config := chart.config.(yAxisLabel := Some("Growth Rate (%)")));
      chart := chart.(config := chart.config.(xAxisLabel := Some("Month")));
    } else {
      chart := chart.(data := CategoryPoints);
    }
  }

  /**
   * The revenue series is chosen exactly when "revenue" occurs in the data source in any
   * letter case, even alongside "growth"; the growth series exactly when only "growth"
   * occurs; the categories otherwise, without axis labels. Type and title are echoed.
   */
  lemma ChartSpec(chartType: string, dataSource: string, title: string)
    ensures ChartFor(chartType, dataSource, title).chartType == chartType
    ensures ChartFor(chartType, dataSource, title).title == title
    ensures ChartFor(chartType, dataSource, title).config.responsive
    ensures !ChartFor(chartType, dataSource, title).config.maintainAspectRatio
    ensures ChartFor(chartType, dataSource, title).data == RevenuePoints
      <==> Contains(Lower(dataSource), "revenue")
    ensures ChartFor(chartType, dataSource, title).data == GrowthPoints
      <==> !Contains(Lower(dataSource), "revenue") && Contains(Lower(dataSource), "growth")
    ensures ChartFor(chartType, dataSource, title).config.xAxisLabel.None?
      <==> ChartFor(chartType, dataSource, title).data == CategoryPoints
  {
    assert RevenuePoints[1].value != GrowthPoints[1].value;
    assert RevenuePoints[0].caption != CategoryPoints[0].caption;
    assert GrowthPoints[0].caption != CategoryPoints[0].caption;
  }

  /** The keyword test ignores letter case. */
  lemma ChartIgnoresCase(chartType: string, dataSource: string, title: string)
    ensures ChartFor(chartType, Upper(dataSource), title) == ChartFor(chartType, dataSource, title)
  {
    LowerUpper(dataSource);
  }

  // ---------------------------------------------------------------------------
  // search_transactions
  // ---------------------------------------------------------------------------

  /** The random amount and category and the clock-derived date of the `i`-th transaction. */
  datatype Draw = Draw(date: string, amount: int, category: string)

  datatype Transaction = Transaction(
    transactionId: string, date: string, amount: int,
    description: string, category: string, status: string)

  datatype TransactionReply = TransactionReply(
    query: string, totalResults: nat, transactions: seq<Transaction>,
    filtersApplied: seq<(string, Json)>)

  /** `len(range(min(limit, 5)))`. */
  function ResultCount(limit: int): nat {
    var n := if limit < 5 then limit else 5;
    if n < 0 then 0 else n
  }

  function TransactionId(i: nat): string {
    "TXN-" + NatToString(1000 + i)
  }

  function TransactionAt(i: nat, d: Draw): Transaction {
    Transaction(TransactionId(i), d.date, d.amount, "Transaction " + NatToString(i + 1), d.category, "completed")
  }

  /** `filters or {}` for a dict argument that may be absent. */
  function FiltersApplied(filters: Option<seq<(string, Json)>>): seq<(string, Json)> {
    match filters
    case None => []
    case Some(f) => f
  }

  /** `search_transactions` with the random draws and dates taken from `draw`. */
  method SearchTransactions(query: string, limit: int, filters: Option<seq<(string, Json)>>, draw: nat -> Draw)
    returns (r: TransactionReply)
    ensures r.query == query && r.filtersApplied == FiltersApplied(filters)
    ensures r.totalResults == |r.transactions| == ResultCount(limit)
    ensures forall i :: 0 <= i < |r.transactions| ==> r.transactions[i] == TransactionAt(i, draw(i))
  {
    var transactions: seq<Transaction> := [];
    var n := if limit < 5 then limit else 5;
    var i := 0;
    while i < n
      invariant 0 <= i <= (if n < 0 then 0 else n)
      invariant |transactions| == i
      invariant forall k :: 0 <= k < i ==> transactions[k] == TransactionAt(k, draw(k))
    {
      transactions := transactions + [TransactionAt(i, draw(i))];
      i := i + 1;
    }
    r := TransactionReply(query, |transactions|, transactions, FiltersApplied(filters));
  }

  /** At most five transactions; exactly `limit` of them when it is between 0 and 5; none when it is not positive. */
  lemma ResultCountSpec(limit: int)
    ensures ResultCount(limit) <= 5
    ensures 0 <= limit <= 5 ==> ResultCount(limit) == limit
    ensures limit >= 5 ==> ResultCount(limit) == 5
    ensures limit <= 0 ==> ResultCount(limit) == 0
  {
  }

  /** The numeric part of the `i`-th id is 1000 + i, so the ids are distinct and increase. */
  lemma TransactionIdValue(i: nat)
    ensures TransactionId(i)[..4] == "TXN-"
    ensures DigitsValue(TransactionId(i)[4..]) == 1000 + i
  {
    NatToStringValue(1000 + i);
    assert TransactionId(i)[4..] == NatToString(1000 + i);
  }

  lemma TransactionIdsDistinct(i: nat, j: nat)
    requires i != j
    ensures TransactionId(i) != TransactionId(j)
  {
    TransactionIdValue(i);
    TransactionIdValue(j);
  }

  // ---------------------------------------------------------------------------
  // update_dashboard
  // ---------------------------------------------------------------------------

  datatype Dashboard = Dashboard(updatedAt: string, metrics: Json, charts: Json, alerts: Json, status: string)

  /** `d.get(key, default)`. */
  function Get(d: seq<(string, Json)>, key: string, default: Json): Json {
    Lookup(d, key).GetOr(default)
  }

  /** `update_dashboard`, with the clock reading as a parameter. */
  function UpdateDashboard(dashboardData: seq<(string, Json)>, updatedAt: string): Dashboard {
    Dashboard(updatedAt,
      Get(dashboardData, "metrics", EmptyObject),
      Get(dashboardData, "charts", EmptyArray),
      Get(dashboardData, "alerts", EmptyArray),
      "updated")
  }

  /** A present entry is copied, an absent one defaults to {} for metrics and [] for charts and alerts. */
  lemma DashboardSpec(d: seq<(string, Json)>, t: string)
    ensures UpdateDashboard(d, t).status == "updated" && UpdateDashboard(d, t).updatedAt == t
    ensures (exists i :: 0 <= i < |d| && d[i].0 == "metrics")
      ==> exists i :: 0 <= i < |d| && d[i] == ("metrics", UpdateDashboard(d, t).metrics)
    ensures (forall i :: 0 <= i < |d| ==> d[i].0 != "metrics") ==> UpdateDashboard(d, t).metrics == EmptyObject
    ensures (exists i :: 0 <= i < |d| && d[i].0 == "charts")
      ==> exists i :: 0 <= i < |d| && d[i] == ("charts", UpdateDashboard(d, t).charts)
    ensures (forall i :: 0 <= i < |d| ==> d[i].0 != "charts") ==> UpdateDashboard(d, t).charts == EmptyArray
    ensures (exists i :: 0 <= i < |d| && d[i].0 == "alerts")
      ==> exists i :: 0 <= i < |d| && d[i] == ("alerts", UpdateDashboard(d, t).alerts)
    ensures (forall i :: 0 <= i < |d| ==> d[i].0 != "alerts") ==> UpdateDashboard(d, t).alerts == EmptyArray
  {
  }

  /** Entries under any other key do not affect the dashboard. */
  lemma DashboardIgnoresOthers(d: seq<(string, Json)>, key: string, v: Json, t: string)
    requires key != "metrics" && key != "charts" && key != "alerts"
    ensures UpdateDashboard(d + [(key, v)], t) == UpdateDashboard(d, t)
  {
    var e := d + [(key, v)];
    assert e[..|e| - 1] == d;
  }

  // ---------------------------------------------------------------------------
  // analyze_revenue (the sum and the strongest month)
  // ---------------------------------------------------------------------------

  const Months: seq<string> := ["October", "November", "December"]

  const BaseRevenue: int := 750000

  const MonthlyStep: int := 85000

  datatype MonthRevenue = MonthRevenue(month: string, revenue: int)

  datatype RevenueAnalysis = RevenueAnalysis(
    period: string, totalRevenue: int, monthlyBreakdown: seq<MonthRevenue>,
    strongestMonth: string, trend: string)

  /** The `i`-th month's revenue, with `offset` the value `random.randint` drew for it. */
  function MonthAt(i: nat, offset: int): MonthRevenue
    requires i < |Months|
  {
    MonthRevenue(Months[i], BaseRevenue + i * MonthlyStep + offset)
  }

  function TotalOf(ms: seq<MonthRevenue>): int {
    if ms == [] then 0 else TotalOf(ms[..|ms| - 1]) + ms[|ms| - 1].revenue
  }

  /** `max(ms, key=revenue)`: the first entry of largest revenue. */
  function Strongest(ms: seq<MonthRevenue>): (r: MonthRevenue)
    requires |ms| > 0
    ensures exists j :: 0 <= j < |ms| && ms[j] == r && forall k :: 0 <= k < j ==> ms[k].revenue < r.revenue
    ensures forall k :: 0 <= k < |ms| ==> ms[k].revenue <= r.revenue
  {
    if |ms| == 1 then ms[0]
    else
      var front := ms[..|ms| - 1];
      var best := Strongest(front);
      assert forall k :: 0 <= k < |ms| - 1 ==> front[k] == ms[k];
      if ms[|ms| - 1].revenue > best.revenue then ms[|ms| - 1] else best
  }

  /** The year-over-year growth is the constant 18.5, so the trend is always upward. */
  const YoyGrowthTenths: int := 185

  /** `analyze_revenue` without its floating-point metrics and forecast. */
  method AnalyzeRevenue(period: string, offset: nat -> int) returns (r: RevenueAnalysis)
    ensures r.period == period
    ensures |r.monthlyBreakdown| == |Months|
    ensures forall i :: 0 <= i < |Months| ==> r.monthlyBreakdown[i] == MonthAt(i, offset(i))
    ensures r.totalRevenue == TotalOf(r.monthlyBreakdown)
    ensures r.strongestMonth == Strongest(r.monthlyBreakdown).month
    ensures r.trend == "upward"
  {
    var breakdown: seq<MonthRevenue> := [];
    var total := 0;
    var i := 0;
    while i < |Months|
      invariant 0 <= i <= |Months| && |breakdown| == i
      invariant forall k :: 0 <= k < i ==> breakdown[k] == MonthAt(k, offset(k))
      invariant total == TotalOf(breakdown)
    {
      var m := MonthAt(i, offset(i));
      assert (breakdown + [m])[..i] == breakdown;
      breakdown := breakdown + [m];
      total := total + m.revenue;
      i := i + 1;
    }
    var trend := if YoyGrowthTenths > 0 then "upward" else "downward";
    r := RevenueAnalysis(period, total, breakdown, Strongest(breakdown).month, trend);
  }

  /** The total is the three base revenues plus the drawn offsets. */
  lemma TotalRevenue(offset: nat -> int)
    ensures TotalOf([MonthAt(0, offset(0)), MonthAt(1, offset(1)), MonthAt(2, offset(2))])
      == 3 * BaseRevenue + 3 * MonthlyStep + offset(0) + offset(1) + offset(2)
  {
    var ms := [MonthAt(0, offset(0)), MonthAt(1, offset(1)), MonthAt(2, offset(2))];
    assert ms[..2][..1] == [ms[0]] && [ms[0]][..0] == [];
    assert TotalOf([ms[0]]) == ms[0].revenue;
    assert ms[..2] == [ms[0], ms[1]];
    assert TotalOf(ms[..2]) == ms[0].revenue + ms[1].revenue;
  }

  /** With the offsets in `randint(-20000, 30000)`, December always has the strongest revenue. */
  lemma DecemberStrongest(offset: nat -> int)
    requires forall i :: 0 <= i < 3 ==> -20000 <= offset(i) <= 30000
    ensures Strongest([MonthAt(0, offset(0)), MonthAt(1, offset(1)), MonthAt(2, offset(2))]).month == "December"
  {
    var ms := [MonthAt(0, offset(0)), MonthAt(1, offset(1)), MonthAt(2, offset(2))];
    var r := Strongest(ms);
    assert ms[0].revenue < ms[2].revenue && ms[1].revenue < ms[2].revenue;
    var j :| 0 <= j < |ms| && ms[j] == r;
    assert j == 2;
  }
}
