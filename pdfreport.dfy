/**
 * The PDF report generator: a generator holds a report configuration; it
 * selects the transactions of the configured period, totals them, groups
 * expenses by category, classifies the balance trend, derives insights and
 * projections, and lays the report out in sections that depend on the
 * configuration. Times are milliseconds since the epoch.
 */
module PdfReport {
  import opened Seqs
  import opened Ledger
  import Calendar
  import NumFmt

  datatype ReportType = Monthly | Yearly | Custom
  datatype Format = Executive | Detailed | Summary

  /** `ReportConfig`: the period's bounds in milliseconds and the section switches. */
  datatype Config = Config(kind: ReportType, start: int, end: int, graphs: bool, goals: bool, insights: bool,
                           projections: bool, format: Format)

  datatype Trend = Rising | Stable | Falling

  datatype Insight =
    | PositiveBalance(balance: real)
    | NegativeBalance(magnitude: real)
    | TopCategory(name: string, share: NumFmt.JsNumber, value: real)
    | GoalsRegistered(count: nat)
    | HighActivity(perDay: real)

  datatype Projection = Projection(nextMonth: real, nextQuarter: real, fiscalYear: real)

  datatype ReportData = ReportData(transactions: seq<Transaction>, metas: seq<Meta>, income: real, expense: real,
                                   balance: real, categories: seq<(string, real)>, trend: Trend,
                                   insights: seq<Insight>, projections: Projection)

  const MsPerDay: int := 86400000

  /** `new Date(t.date).getTime()`: a date-only string is read as midnight UTC. */
  function Stamp(t: Transaction): int { Calendar.DayNumber(t.date) * MsPerDay }

  function InPeriodOf(c: Config): Transaction -> bool
  {
    (t: Transaction) => c.start <= Stamp(t) <= c.end
  }

  /** The transactions of the period, in order. */
  function InPeriod(c: Config, ts: seq<Transaction>): (r: seq<Transaction>)
    ensures forall t :: t in r <==> t in ts && c.start <= Stamp(t) <= c.end
  {
    FilterSpec(ts, InPeriodOf(c));
    Filter(ts, InPeriodOf(c))
  }

  /**
   * The trend rule: rising when the second half exceeds the first by more
   * than 10%, then falling when it is below 90% of the first, which wins
   * over the first rule; otherwise stable.
   */
  function TrendOf(first: real, second: real): (r: Trend)
    ensures r == Falling <==> second < first * 0.9
    ensures r == Rising <==> second > first * 1.1 && !(second < first * 0.9)
  {
    var r := if second > first * 1.1 then Rising else Stable;
    if second < first * 0.9 then Falling else r
  }

  /** With a negative first half, equal halves satisfy both rules and are reported as falling. */
  lemma TrendNegativeBase(first: real)
    requires first < 0.0
    ensures first > first * 1.1 && first < first * 0.9
    ensures TrendOf(first, first) == Falling
  {
  }

  /** The signed sums of the two halves, split at `floor(n / 2)`. */
  function Halves(ts: seq<Transaction>): (real, real)
  {
    (Net(ts[..|ts| / 2]), Net(ts[|ts| / 2..]))
  }

  /** The two halves together hold the whole balance. */
  lemma HalvesNet(ts: seq<Transaction>)
    ensures Halves(ts).0 + Halves(ts).1 == Net(ts)
  {
    assert ts == ts[..|ts| / 2] + ts[|ts| / 2..];
    SumAppend(ts[..|ts| / 2], ts[|ts| / 2..], Signed);
  }

  /** `Math.max(1, Math.ceil((fim - inicio) / day))`. */
  function PeriodDays(c: Config): (n: int)
    ensures n >= 1
  {
    var d := Ceil((c.end - c.start) as real / MsPerDay as real);
    if d > 1 then d else 1
  }

  /** `calculateProjections`: zeros for no transactions, else 30, 90 and 365 times the daily signed average. */
  function ProjectionsOf(c: Config, ts: seq<Transaction>): Projection
  {
    if ts == [] then Projection(0.0, 0.0, 0.0)
    else
      var daily := Net(ts) / PeriodDays(c) as real;
      Projection(daily * 30.0, daily * 90.0, daily * 365.0)
  }

  /** The projections scale one daily figure, which has the sign of the balance. */
  lemma ProjectionsSpec(c: Config, ts: seq<Transaction>)
    ensures ts == [] ==> ProjectionsOf(c, ts) == Projection(0.0, 0.0, 0.0)
    ensures ProjectionsOf(c, ts).nextQuarter == 3.0 * ProjectionsOf(c, ts).nextMonth
    ensures 30.0 * ProjectionsOf(c, ts).fiscalYear == 365.0 * ProjectionsOf(c, ts).nextMonth
    ensures ts != [] ==> (ProjectionsOf(c, ts).nextMonth > 0.0 <==> Net(ts) > 0.0)
  {
    if ts != [] {
      SignOfQuotient(Net(ts), PeriodDays(c) as real);
    }
  }

  lemma SignOfQuotient(a: real, d: real)
    requires d > 0.0
    ensures a / d * 30.0 > 0.0 <==> a > 0.0
  {
    var q := a / d;
    assert q * d == a;
  }

  /** The top-category insight: the largest total with its share of all totals, when there is a category. */
  function TopPart(categories: seq<(string, real)>): (r: seq<Insight>)
    ensures |r| <= 1 && (r == [] <==> categories == [])
    ensures r != [] ==> r[0].TopCategory? && (r[0].name, r[0].value) in categories
                        && forall e :: e in categories ==> e.1 <= r[0].value
  {
    var top := TopByValue(categories, 1);
    TopByValueSpec(categories, 1);
    if top == [] then [] else [TopCategory(top[0].0, NumFmt.Percent(top[0].1, SumValues(categories)), top[0].1)]
  }

  /** The high-activity insight: more than three transactions a day over the period. */
  function ActivityPart(c: Config, ts: seq<Transaction>): (r: seq<Insight>)
    ensures |r| <= 1 && forall i :: 0 <= i < |r| ==> r[i].HighActivity?
    ensures r != [] <==> |ts| as real > 3.0 * PeriodDays(c) as real
  {
    var perDay := |ts| as real / PeriodDays(c) as real;
    QuotientAbove(|ts| as real, PeriodDays(c) as real, 3.0);
    if perDay > 3.0 then [HighActivity(perDay)] else []
  }

  lemma QuotientAbove(a: real, d: real, k: real)
    requires d > 0.0
    ensures a / d > k <==> a > k * d
  {
    var q := a / d;
    assert q * d == a;
    if q > k {
      assert (q - k) * d > 0.0;
    } else {
      assert (k - q) * d >= 0.0;
    }
  }

  /** `generateInsights`: the balance, the top category, the goal count and a high activity note. */
  function InsightsOf(c: Config, ts: seq<Transaction>, metas: seq<Meta>, categories: seq<(string, real)>, balance: real)
    : seq<Insight>
  {
    var first := if balance > 0.0 then PositiveBalance(balance) else NegativeBalance(-balance);
    var goalPart := if |metas| > 0 then [GoalsRegistered(|metas|)] else [];
    [first] + TopPart(categories) + goalPart + ActivityPart(c, ts)
  }

  /**
   * The first insight always states the balance's sign; the top category,
   * when there is one, is a largest total; the goal count appears exactly
   * when there are goals.
   */
  lemma InsightsSpec(c: Config, ts: seq<Transaction>, metas: seq<Meta>, categories: seq<(string, real)>, balance: real)
    ensures var r := InsightsOf(c, ts, metas, categories, balance);
            1 <= |r| <= 4 && (r[0].PositiveBalance? <==> balance > 0.0) && (r[0].NegativeBalance? <==> balance <= 0.0)
    ensures var r := InsightsOf(c, ts, metas, categories, balance);
            categories != [] ==> r[1].TopCategory? && (r[1].name, r[1].value) in categories
                                 && forall e :: e in categories ==> e.1 <= r[1].value
    ensures var r := InsightsOf(c, ts, metas, categories, balance);
            categories == [] ==> forall i :: 0 <= i < |r| ==> !r[i].TopCategory?
    ensures var r := InsightsOf(c, ts, metas, categories, balance);
            GoalsRegistered(|metas|) in r <==> |metas| > 0
  {
    var r := InsightsOf(c, ts, metas, categories, balance);
    var first := if balance > 0.0 then PositiveBalance(balance) else NegativeBalance(-balance);
    var goalPart := if |metas| > 0 then [GoalsRegistered(|metas|)] else [];
    var top, activity := TopPart(categories), ActivityPart(c, ts);
    assert r == [first] + top + goalPart + activity;
    var g := GoalsRegistered(|metas|);
    assert g !in [first] + top && g !in activity;
    if categories != [] {
      assert r[1] == top[0];
    }
  }

  /** The tokens of `analyzeData` a generator derives from one list. */
  function Analysis(c: Config, ts: seq<Transaction>, metas: seq<Meta>): ReportData
  {
    var period := InPeriod(c, ts);
    var balance := IncomeTotal(period) - ExpenseTotal(period);
    var categories := ExpenseByCategory(period);
    ReportData(period, metas, IncomeTotal(period), ExpenseTotal(period), balance, categories,
               TrendOf(Halves(period).0, Halves(period).1), InsightsOf(c, period, metas, categories, balance),
               ProjectionsOf(c, period))
  }

  /** The period's balance is income minus expense, and its categories add up to its expense. */
  lemma AnalysisSpec(c: Config, ts: seq<Transaction>, metas: seq<Meta>)
    ensures var d := Analysis(c, ts, metas);
            d.balance == Net(d.transactions) && SumValues(d.categories) == d.expense
            && Halves(d.transactions).0 + Halves(d.transactions).1 == d.balance
    ensures var d := Analysis(c, ts, metas);
            forall t :: t in d.transactions <==> t in ts && c.start <= Stamp(t) <= c.end
  {
    var period := InPeriod(c, ts);
    NetIsIncomeMinusExpense(period);
    ExpenseByCategoryTotal(period);
    HalvesNet(period);
  }

  /** One part of the report's layout. */
  datatype Section =
    | Heading(format: Format)
    | Totals(income: real, expense: real, balance: real, trend: Trend)
    | CategoriesHeading
    | CategoryLine(name: string, value: real, share: NumFmt.JsNumber)
    | InsightsHeading
    | InsightLine(insight: Insight)
    | GoalsHeading
    | GoalLine(nome: string, valor: real)
    | ProjectionsBlock(projections: Projection)
    | DetailsHeading
    | DetailLine(isIncome: bool, date: Calendar.Date, description: string, amount: real, category: string)
    | Footer

  function CategoryLineOf(expense: real): ((string, real)) -> Section
  {
    (e: (string, real)) => CategoryLine(e.0, e.1, NumFmt.Percent(e.1, expense))
  }

  function InsightLineOf(i: Insight): Section { InsightLine(i) }

  function GoalLineOf(m: Meta): Section { GoalLine(m.nome, m.valor) }

  function DetailLineOf(t: Transaction): Section
  {
    DetailLine(t.kind == Income, t.date, if t.description == "" then "Sem descrição" else t.description, t.amount, t.category)
  }

  /** One section per element, in order (each `forEach` of the layout). */
  function Each<T>(xs: seq<T>, f: T -> Section): (r: seq<Section>)
    ensures |r| == |xs|
    ensures forall i :: 0 <= i < |xs| ==> r[i] == f(xs[i])
  {
    seq(|xs|, i requires 0 <= i < |xs| => f(xs[i]))
  }

  /** The title and the totals, which every report starts with. */
  function Head(c: Config, d: ReportData): seq<Section>
  {
    [Heading(c.format), Totals(d.income, d.expense, d.balance, d.trend), CategoriesHeading]
  }

  /** One line per category total, largest first. */
  function CategoryPart(d: ReportData): seq<Section>
  {
    Each(Sort(d.categories, ByValueDesc), CategoryLineOf(d.expense))
  }

  /** The insights, present exactly when switched on. */
  function InsightsPart(c: Config, d: ReportData): (r: seq<Section>)
    ensures r != [] <==> c.insights
    ensures r != [] ==> r == [InsightsHeading] + Each(d.insights, InsightLineOf)
  {
    if c.insights then [InsightsHeading] + Each(d.insights, InsightLineOf) else []
  }

  /** The goals, present exactly when switched on and there are goals. */
  function GoalsPart(c: Config, d: ReportData): (r: seq<Section>)
    ensures r != [] <==> c.goals && |d.metas| > 0
    ensures r != [] ==> r == [GoalsHeading] + Each(d.metas, GoalLineOf)
  {
    if c.goals && |d.metas| > 0 then [GoalsHeading] + Each(d.metas, GoalLineOf) else []
  }

  /** The projections, present exactly when switched on. */
  function ProjectionsPart(c: Config, d: ReportData): (r: seq<Section>)
    ensures r != [] <==> c.projections
    ensures r != [] ==> r == [ProjectionsBlock(d.projections)]
  {
    if c.projections then [ProjectionsBlock(d.projections)] else []
  }

  /** The transaction detail, present exactly in the detailed format, one line per transaction. */
  function DetailsPart(c: Config, d: ReportData): (r: seq<Section>)
    ensures r != [] <==> c.format == Detailed
    ensures r != [] ==> r == [DetailsHeading] + Each(d.transactions, DetailLineOf)
  {
    if c.format == Detailed then [DetailsHeading] + Each(d.transactions, DetailLineOf) else []
  }

  /** The sections of `generateReportContent`, in order. */
  function Layout(c: Config, d: ReportData): seq<Section>
  {
    Head(c, d) + CategoryPart(d) + InsightsPart(c, d) + GoalsPart(c, d) + ProjectionsPart(c, d) + DetailsPart(c, d) + [Footer]
  }

  /** The category lines list every category total once, largest first. */
  lemma CategoryPartSpec(d: ReportData)
    ensures |CategoryPart(d)| == |d.categories|
    ensures forall i, j :: 0 <= i < j < |CategoryPart(d)| ==> CategoryPart(d)[i].value >= CategoryPart(d)[j].value
    ensures forall i :: 0 <= i < |CategoryPart(d)| ==> (CategoryPart(d)[i].name, CategoryPart(d)[i].value) in d.categories
  {
    var sorted := Sort(d.categories, ByValueDesc);
    assert TotalPreorder(ByValueDesc);
    SortSorted(d.categories, ByValueDesc);
    assert |multiset(sorted)| == |multiset(d.categories)|;
    forall i | 0 <= i < |sorted| ensures sorted[i] in d.categories {
      assert sorted[i] in multiset(sorted);
    }
  }

  /** `PDFReportGenerator`: a report configuration, fixed at construction. */
  class Generator {
    var config: Config

    constructor (c: Config)
      ensures config == c
    {
      config := c;
    }

    /** `analyzeData`: the category totals loop, then the trend set step by step. */
    method AnalyzeData(ts: seq<Transaction>, metas: seq<Meta>) returns (d: ReportData)
      ensures d == Analysis(config, ts, metas)
    {
      var period := InPeriod(config, ts);
      var income := IncomeTotal(period);
      var expense := ExpenseTotal(period);
      var balance := income - expense;
      var categories := ExpenseMap(period);
      var trend := Tendency(period);
      var insights := InsightsOf(config, period, metas, categories, balance);
      d := ReportData(period, metas, income, expense, balance, categories, trend, insights, ProjectionsOf(config, period));
    }

    /** `generateReportContent`: the sections appended one `forEach` at a time. */
    method ReportContent(d: ReportData) returns (content: seq<Section>)
      ensures content == Layout(config, d)
    {
      content := [Heading(config.format), Totals(d.income, d.expense, d.balance, d.trend), CategoriesHeading];
      content := AppendEach(content, Sort(d.categories, ByValueDesc), CategoryLineOf(d.expense));
      assert content == Head(config, d) + CategoryPart(d);
      content := AppendPart(content, config.insights, InsightsHeading, d.insights, InsightLineOf);
      assert content == Head(config, d) + CategoryPart(d) + InsightsPart(config, d);
      content := AppendPart(content, config.goals && |d.metas| > 0, GoalsHeading, d.metas, GoalLineOf);
      ghost var upToGoals := content;
      assert upToGoals == Head(config, d) + CategoryPart(d) + InsightsPart(config, d) + GoalsPart(config, d);
      if config.projections {
        content := content + [ProjectionsBlock(d.projections)];
      }
      assert content == upToGoals + ProjectionsPart(config, d);
      content := AppendPart(content, config.format == Detailed, DetailsHeading, d.transactions, DetailLineOf);
      assert content == upToGoals + ProjectionsPart(config, d) + DetailsPart(config, d);
      content := content + [Footer];
    }

    /** `generateReport`: the analysis laid out. */
    method GenerateReport(ts: seq<Transaction>, metas: seq<Meta>) returns (content: seq<Section>)
      ensures content == Layout(config, Analysis(config, ts, metas))
    {
      var d := AnalyzeData(ts, metas);
      content := ReportContent(d);
    }
  }

  /** The trend of `analyzeData`: stable, then rising, then falling, each rule overriding the one before. */
  method Tendency(period: seq<Transaction>) returns (trend: Trend)
    ensures trend == TrendOf(Halves(period).0, Halves(period).1)
  {
    var half := |period| / 2;
    var first := Net(period[..half]);
    var second := Net(period[half..]);
    trend := Stable;
    if second > first * 1.1 {
      trend := Rising;
    }
    if second < first * 0.9 {
      trend := Falling;
    }
  }

  /** An `if` block of the layout: a heading and one section per element, or nothing when switched off. */
  method AppendPart<T>(content: seq<Section>, on: bool, heading: Section, xs: seq<T>, f: T -> Section)
    returns (r: seq<Section>)
    ensures r == content + (if on then [heading] + Each(xs, f) else [])
  {
    r := content;
    if on {
      r := AppendEach(content + [heading], xs, f);
    }
  }

  /** A `forEach` that appends one section per element. */
  method AppendEach<T>(content: seq<Section>, xs: seq<T>, f: T -> Section) returns (r: seq<Section>)
    ensures r == content + Each(xs, f)
  {
    r := content;
    for i := 0 to |xs|
      invariant r == content + Each(xs[..i], f)
    {
      assert Each(xs[..i + 1], f) == Each(xs[..i], f) + [f(xs[i])];
      r := r + [f(xs[i])];
    }
    assert xs[..|xs|] == xs;
  }

  /** `Partial<ReportConfig>` of a template: the switches and the format. */
  datatype Template = Template(kind: ReportType, graphs: bool, goals: bool, insights: bool, projections: bool, format: Format)

  /** `getTemplates`. */
  function Templates(): (r: seq<(string, Template)>)
    ensures |r| == 3 && r[0].0 == "executivoMensal" && r[1].0 == "resumoSemanal" && r[2].0 == "relatorioAnual"
    ensures forall i :: 0 <= i < |r| ==> r[i].1.insights
    ensures forall i :: 0 <= i < |r| ==> (r[i].1.format == Detailed <==> r[i].0 == "relatorioAnual")
    ensures forall i :: 0 <= i < |r| ==> (r[i].1.goals <==> r[i].1.graphs) && (r[i].1.goals <==> r[i].1.projections)
    ensures r[1].1 == Template(Custom, false, false, true, false, Summary)
  {
    [("executivoMensal", Template(Monthly, true, true, true, true, Executive)),
     ("resumoSemanal", Template(Custom, false, false, true, false, Summary)),
     ("relatorioAnual", Template(Yearly, true, true, true, true, Detailed))]
  }
}
