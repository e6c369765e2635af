/** The analytics page: it loads six answers at once, totals the anomalies
    per lower-cased category, projects the three totals maps onto chart
    datasets, and picks what to show from its loading flag and insights. */
module AnalyticsPage {
  import opened Wrappers
  import opened Text
  import opened Tally
  import opened Ledger

  /** An outlying expense as the insights answer lists it. */
  datatype Anomaly = Anomaly(amount: real, description: string, category: string, expenseDate: string)

  /** The insights answer: a spending label, a trend, the top category,
      suggestions and anomalies. */
  datatype Insights = Insights(spendingLabel: string, trend: string, topCategory: string,
                               suggestions: seq<string>, anomalies: seq<Anomaly>)

  /** The six answers `Promise.all` resolves to, in request order. The two
      breakdowns are the JSON objects' entries in the order they arrive. */
  datatype Answers = Answers(insights: Insights, weekly: real, monthly: real, yearly: real,
                             monthlyBreakdown: Totals<string>, weeklyBreakdown: Totals<string>)

  /** A dataset's colours: one for the whole series, or one per point. */
  datatype Colors = One(color: string) | Each(colors: seq<string>)

  /** A chart's labels and its one dataset's series label, values and border colours. */
  datatype Chart = Chart(labels: seq<string>, series: string, data: seq<real>, borderColor: Colors)

  /** What the page renders. */
  datatype Screen = LoadingScreen | NoInsightsScreen | ReportScreen

  const LoadingText := "loading analytics..."
  const NoInsightsText := "no insights available."
  const NoAnomaliesText := "no anomalies detected"

  /** The ten border colours of the pie and the bars. */
  const Palette := ["#f87171", "#60a5fa", "#34d399", "#fbbf24", "#c084fc",
                    "#fb7185", "#38bdf8", "#4ade80", "#facc15", "#f472b6"]

  function CategoryKey(a: Anomaly): string { Lower(a.category) }
  function AnomalyAmount(a: Anomaly): real { a.amount }

  /** The `forEach` that fills `catMap`: each anomaly adds its amount under its
      lower-cased category, a new category going last. */
  method CategoryTotals(anomalies: seq<Anomaly>) returns (catMap: Totals<string>)
    ensures catMap == Group(anomalies, CategoryKey, AnomalyAmount)
  {
    catMap := [];
    var i := 0;
    while i < |anomalies|
      invariant 0 <= i <= |anomalies|
      invariant catMap == Group(anomalies[..i], CategoryKey, AnomalyAmount)
    {
      var cat := Lower(anomalies[i].category);
      catMap := Add(catMap, cat, anomalies[i].amount);
      assert anomalies[..i + 1][..i] == anomalies[..i];
      i := i + 1;
    }
    assert anomalies[..i] == anomalies;
  }

  /** A category is a key of the category map exactly when some anomaly's
      category lower-cases to it. */
  lemma CategoryKeys(anomalies: seq<Anomaly>, c: string)
    ensures c in KeysOf(Group(anomalies, CategoryKey, AnomalyAmount))
        <==> exists i :: 0 <= i < |anomalies| && Lower(anomalies[i].category) == c
  {
    GroupKeys(anomalies, CategoryKey, AnomalyAmount, c);
  }

  /** `palette.slice(0, n)`: the first `n` colours, never more than the ten
      there are; colours are not reused. */
  function BorderColors(n: nat): (r: seq<string>)
    ensures |r| == Min(n, |Palette|)
    ensures forall i :: 0 <= i < |r| ==> r[i] == Palette[i]
    ensures n >= |Palette| ==> r == Palette
  {
    Palette[..Min(n, |Palette|)]
  }

  /** Ten distinct colours: no two sliced colours are the same. */
  lemma BorderColorsDistinct(n: nat)
    ensures forall i, j :: 0 <= i < j < |BorderColors(n)| ==> BorderColors(n)[i] != BorderColors(n)[j]
  {
  }

  /** `Array.from(m.keys())` and `Array.from(m.values())`, or `Object.keys`
      and `Object.values`: one label and one value per entry, in the map's
      order. */
  function Project(m: Totals<string>, series: string, colors: Colors): (r: Chart)
    ensures |r.labels| == |r.data| == |m|
    ensures forall i :: 0 <= i < |m| ==> r.labels[i] == m[i].0 && r.data[i] == m[i].1
    ensures r.series == series && r.borderColor == colors
  {
    Chart(KeysOf(m), series, ValuesOf(m), colors)
  }

  /** The pie: the category totals, one border colour per category up to ten. */
  function CategoryChart(catMap: Totals<string>): (r: Chart)
    ensures |r.labels| == |r.data| == |catMap|
    ensures r.borderColor == Each(BorderColors(|catMap|))
  {
    Project(catMap, "", Each(BorderColors(|catMap|)))
  }

  /** The line chart of spending per month, in one colour. */
  function MonthlyChart(breakdown: Totals<string>): (r: Chart)
    ensures |r.labels| == |r.data| == |breakdown|
    ensures r.series == "monthly spending"
  {
    Project(breakdown, "monthly spending", One("#3b82f6"))
  }

  /** The bar chart of spending per week, one border colour per week up to ten. */
  function WeeklyChart(breakdown: Totals<string>): (r: Chart)
    ensures |r.labels| == |r.data| == |breakdown|
    ensures r.series == "weekly averages"
    ensures r.borderColor == Each(BorderColors(|breakdown|))
  {
    Project(breakdown, "weekly averages", Each(BorderColors(|breakdown|)))
  }

  /** The pie's values add up to the total of all anomalies. */
  lemma CategoryChartTotal(anomalies: seq<Anomaly>)
    ensures SumOf(CategoryChart(Group(anomalies, CategoryKey, AnomalyAmount)).data) == SumAmounts(anomalies, AnomalyAmount)
  {
  }

  /** The list of anomalies, or the notice that there are none. */
  function AnomaliesNotice(insights: Insights): (r: Option<string>)
    ensures r == Some(NoAnomaliesText) <==> insights.anomalies == []
    ensures r == None <==> insights.anomalies != []
  {
    if |insights.anomalies| > 0 then None else Some(NoAnomaliesText)
  }

  class Analytics {
    /** `localStorage.getItem("userId")`. */
    const userId: Option<string>
    var insights: Option<Insights>
    var weekly: Option<real>
    var monthly: Option<real>
    var yearly: Option<real>
    var categoryChart: Option<Chart>
    var monthlyChart: Option<Chart>
    var weeklyChart: Option<Chart>
    var loading: bool

    /** The initial state: loading, with nothing loaded. */
    constructor (userId: Option<string>)
      ensures this.userId == userId && loading
      ensures insights == None && weekly == None && monthly == None && yearly == None
      ensures categoryChart == None && monthlyChart == None && weeklyChart == None
    {
      this.userId := userId;
      insights := None;
      weekly := None;
      monthly := None;
      yearly := None;
      categoryChart := None;
      monthlyChart := None;
      weeklyChart := None;
      loading := true;
    }

    /** The effect that loads the page. Without a user id nothing happens and
        the page stays loading. `outcome` is the six answers, or `None` when
        any request fails, which only ends loading. */
    method Load(outcome: Option<Answers>)
      modifies this
      ensures !SignedIn(userId) ==>
        loading == old(loading) && insights == old(insights)
        && weekly == old(weekly) && monthly == old(monthly) && yearly == old(yearly)
        && categoryChart == old(categoryChart) && monthlyChart == old(monthlyChart) && weeklyChart == old(weeklyChart)
      ensures SignedIn(userId) && outcome.None? ==>
        !loading && insights == old(insights)
        && weekly == old(weekly) && monthly == old(monthly) && yearly == old(yearly)
        && categoryChart == old(categoryChart) && monthlyChart == old(monthlyChart) && weeklyChart == old(weeklyChart)
      ensures SignedIn(userId) && outcome.Some? ==>
        var a := outcome.value;
        && !loading && insights == Some(a.insights)
        && weekly == Some(a.weekly) && monthly == Some(a.monthly) && yearly == Some(a.yearly)
        && categoryChart == Some(CategoryChart(Group(a.insights.anomalies, CategoryKey, AnomalyAmount)))
        && monthlyChart == Some(MonthlyChart(a.monthlyBreakdown))
        && weeklyChart == Some(WeeklyChart(a.weeklyBreakdown))
    {
      if !SignedIn(userId) {
        return;
      }
      if outcome.None? {
        loading := false;
        return;
      }
      Present(outcome.value);
    }

    /** The `try` block after the answers arrive: every value is stored, the
        charts are built, and loading ends. */
    method Present(a: Answers)
      modifies this
      ensures !loading && insights == Some(a.insights)
      ensures weekly == Some(a.weekly) && monthly == Some(a.monthly) && yearly == Some(a.yearly)
      ensures categoryChart == Some(CategoryChart(Group(a.insights.anomalies, CategoryKey, AnomalyAmount)))
      ensures monthlyChart == Some(MonthlyChart(a.monthlyBreakdown))
      ensures weeklyChart == Some(WeeklyChart(a.weeklyBreakdown))
    {
      StoreAnswers(a);
      DrawCharts(a);
      loading := false;
    }

    /** `setInsights` and the three `set…Total` calls. */
    method StoreAnswers(a: Answers)
      modifies this`insights, this`weekly, this`monthly, this`yearly
      ensures insights == Some(a.insights)
      ensures weekly == Some(a.weekly) && monthly == Some(a.monthly) && yearly == Some(a.yearly)
    {
      insights := Some(a.insights);
      weekly := Some(a.weekly);
      monthly := Some(a.monthly);
      yearly := Some(a.yearly);
    }

    /** The three chart setters: the pie from the anomalies, the line and the
        bars from the two breakdowns. */
    method DrawCharts(a: Answers)
      modifies this`categoryChart, this`monthlyChart, this`weeklyChart
      ensures categoryChart == Some(CategoryChart(Group(a.insights.anomalies, CategoryKey, AnomalyAmount)))
      ensures monthlyChart == Some(MonthlyChart(a.monthlyBreakdown))
      ensures weeklyChart == Some(WeeklyChart(a.weeklyBreakdown))
    {
      var catMap := CategoryTotals(a.insights.anomalies);
      categoryChart := Some(CategoryChart(catMap));
      monthlyChart := Some(MonthlyChart(a.monthlyBreakdown));
      weeklyChart := Some(WeeklyChart(a.weeklyBreakdown));
    }

    /** `if (loading) …; if (!insights) …;`: the loading message comes first,
        then the empty notice, then the report. */
    function Showing(): (r: Screen)
      reads this
      ensures r == LoadingScreen <==> loading
      ensures r == NoInsightsScreen <==> !loading && insights.None?
      ensures r == ReportScreen <==> !loading && insights.Some?
    {
      if loading then LoadingScreen
      else if insights.None? then NoInsightsScreen
      else ReportScreen
    }
  }

  /** The end-to-end test's one anomaly, 5000 on "Travel", gives the pie one
      slice "travel" of 5000 with the first border colour. */
  lemma TravelExample()
    ensures var anomalies := [Anomaly(5000.0, "Flight ticket", "Travel", "2023-10-20T00:00:00.000Z")];
      var chart := CategoryChart(Group(anomalies, CategoryKey, AnomalyAmount));
      chart.labels == ["travel"] && chart.data == [5000.0] && chart.borderColor == Each(["#f87171"])
  {
    var anomalies := [Anomaly(5000.0, "Flight ticket", "Travel", "2023-10-20T00:00:00.000Z")];
    assert Lower("Travel") == "travel";
    assert anomalies[..0] == [];
    var m := Group(anomalies, CategoryKey, AnomalyAmount);
    assert m == [("travel", 5000.0)];
    assert KeysOf(m) == ["travel"];
    assert ValuesOf(m) == [5000.0];
  }
}
