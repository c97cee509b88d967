/**
 * The advanced dashboard: the transactions of the chosen period (the last
 * 3, 6 or 12 whole months, or everything), their month-by-month income and
 * expense, their largest expense categories, a few insights and the quick
 * statistics. The period button's state and "today" are parameters; the
 * local time zone is taken to be UTC, so a date compares by its day.
 */
module AdvancedDashboard {
  import opened Seqs
  import opened Ledger
  import opened Calendar
  import Strs
  import NumFmt
  import ExportManager

  /** The period buttons: '3m', '6m', '1y' and 'all'. */
  datatype TimeFilter = ThreeMonths | SixMonths | OneYear | AllTime

  /** `monthsBack`: 3, 6 or 12. */
  function MonthsBack(f: TimeFilter): nat
    requires !f.AllTime?
  {
    match f
    case ThreeMonths => 3
    case SixMonths => 6
    case OneYear => 12
  }

  /** `new Date(now.getFullYear(), now.getMonth() - monthsBack, 1)`. */
  function StartDate(f: TimeFilter, today: Day): Date
    requires !f.AllTime?
  {
    MakeDate(today.year, today.month - 1 - MonthsBack(f), 1)
  }

  /** The period starts on the first day of the month 3, 6 or 12 months before the current one. */
  lemma StartDateSpec(f: TimeFilter, today: Day)
    requires !f.AllTime?
    ensures StartDate(f, today).day == 1 && 1 <= StartDate(f, today).month <= 12
    ensures StartDate(f, today).year * 12 + StartDate(f, today).month == today.year * 12 + today.month - MonthsBack(f)
    ensures Lt(StartDate(f, today), today)
  {
    var a := today.month - 1 - MonthsBack(f);
    MakeDateFirst(today.year, a);
    assert a == 12 * (a / 12) + a % 12;
  }

  predicate OnOrAfter(start: Date, t: Transaction)
  {
    Le(start, t.date)
  }

  /** `filteredTransactions`. */
  function Filtered(ts: seq<Transaction>, f: TimeFilter, today: Day): seq<Transaction>
  {
    if f.AllTime? then ts
    else
      var start := StartDate(f, today);
      Filter(ts, t => OnOrAfter(start, t))
  }

  /**
   * "all" keeps everything; a period keeps exactly the transactions dated on
   * or after its first day, in order, so every transaction of the current
   * month is kept.
   */
  lemma FilteredSpec(ts: seq<Transaction>, f: TimeFilter, today: Day)
    ensures f.AllTime? ==> Filtered(ts, f, today) == ts
    ensures !f.AllTime? ==>
              Subseq(Filtered(ts, f, today), ts) &&
              (forall t :: t in Filtered(ts, f, today) <==> t in ts && Le(StartDate(f, today), t.date))
    ensures forall t :: t in ts && t.date.year == today.year && t.date.month == today.month ==> t in Filtered(ts, f, today)
  {
    if !f.AllTime? {
      var start := StartDate(f, today);
      StartDateSpec(f, today);
      FilterSpec(ts, t => OnOrAfter(start, t));
    }
  }

  // ---- monthlyData ----

  /** The `YYYY-MM` key of a transaction, as its year and month. */
  function MonthOf(t: Transaction): (int, int) { (t.date.year, t.date.month) }

  /** `monthlyMap`: income and expense (everything that is not income) per month, in order of first appearance. */
  function MonthlyMap(ts: seq<Transaction>): seq<((int, int), (real, real))>
  {
    Entries2(ts, MonthOf, IncomePart, ExpensePart)
  }

  /** The `forEach` filling `monthlyMap`. */
  method BuildMonthlyMap(ts: seq<Transaction>) returns (monthlyMap: seq<((int, int), (real, real))>)
    ensures monthlyMap == MonthlyMap(ts)
  {
    monthlyMap := [];
    for i := 0 to |ts|
      invariant monthlyMap == MonthlyMap(ts[..i])
    {
      var transaction := ts[i];
      MonthlyStep(ts, i);
      if transaction.kind == Income {
        monthlyMap := Bump2(monthlyMap, MonthOf(transaction), transaction.amount, 0.0);
      } else {
        monthlyMap := Bump2(monthlyMap, MonthOf(transaction), 0.0, transaction.amount);
      }
    }
    assert ts[..|ts|] == ts;
  }

  /** One more transaction adds its amount to its month's income or expense. */
  lemma MonthlyStep(ts: seq<Transaction>, i: nat)
    requires i < |ts|
    ensures MonthlyMap(ts[..i + 1]) ==
              if ts[i].kind == Income then Bump2(MonthlyMap(ts[..i]), MonthOf(ts[i]), ts[i].amount, 0.0)
              else Bump2(MonthlyMap(ts[..i]), MonthOf(ts[i]), 0.0, ts[i].amount)
  {
    assert ts[..i + 1] == ts[..i] + [ts[i]];
    Bump2Entries(ts[..i], ts[i], MonthOf, IncomePart, ExpensePart);
  }

  /** `a.localeCompare(b)` on `YYYY-MM` keys: earlier months first. */
  function ByMonth(a: ((int, int), (real, real)), b: ((int, int), (real, real))): bool
  {
    a.0.0 < b.0.0 || (a.0.0 == b.0.0 && a.0.1 <= b.0.1)
  }

  predicate MonthLe(a: (int, int), b: (int, int))
  {
    a.0 < b.0 || (a.0 == b.0 && a.1 <= b.1)
  }

  /** One point of the trend: the month, its income, its expense and its balance. */
  datatype MonthlyData = MonthlyData(month: (int, int), income: real, expense: real, balance: real)

  function MonthRow(e: ((int, int), (real, real))): MonthlyData
  {
    MonthlyData(e.0, e.1.0, e.1.1, e.1.0 - e.1.1)
  }

  /** `monthlyData`: the months in ascending order, the last six, each with its balance. */
  function MonthlyDataOf(ts: seq<Transaction>): seq<MonthlyData>
  {
    var last := TakeLast(Sort(MonthlyMap(ts), ByMonth), 6);
    seq(|last|, i requires 0 <= i < |last| => MonthRow(last[i]))
  }

  /**
   * At most six points, one more for each month with a transaction up to
   * six, earliest first; each carries its month's income and expense totals
   * and their difference; and a month left out is not later than the first
   * one shown.
   */
  lemma MonthlySpec(ts: seq<Transaction>)
    ensures |MonthlyDataOf(ts)| == if |Keys(ts, MonthOf)| < 6 then |Keys(ts, MonthOf)| else 6
    ensures forall i, j :: 0 <= i < j < |MonthlyDataOf(ts)| ==> MonthLe(MonthlyDataOf(ts)[i].month, MonthlyDataOf(ts)[j].month)
    ensures forall r :: r in MonthlyDataOf(ts) ==>
              r.month in Keys(ts, MonthOf) &&
              r.income == KeySum(ts, MonthOf, IncomePart, r.month) &&
              r.expense == KeySum(ts, MonthOf, ExpensePart, r.month) &&
              r.balance == r.income - r.expense
    ensures forall t :: t in ts ==>
              (exists r :: r in MonthlyDataOf(ts) && r.month == MonthOf(t)) ||
              (MonthlyDataOf(ts) != [] && MonthLe(MonthOf(t), MonthlyDataOf(ts)[0].month))
  {
    MonthlyShape(ts);
    MonthlyContents(ts);
  }

  lemma MonthlyShape(ts: seq<Transaction>)
    ensures |MonthlyDataOf(ts)| == if |Keys(ts, MonthOf)| < 6 then |Keys(ts, MonthOf)| else 6
    ensures forall i, j :: 0 <= i < j < |MonthlyDataOf(ts)| ==> MonthLe(MonthlyDataOf(ts)[i].month, MonthlyDataOf(ts)[j].month)
  {
    var es := MonthlyMap(ts);
    ByMonthTotal();
    LastSpec(es, 6, ByMonth);
    RowsOrder(TakeLast(Sort(es, ByMonth), 6), MonthlyDataOf(ts));
  }

  lemma MonthlyContents(ts: seq<Transaction>)
    ensures forall r :: r in MonthlyDataOf(ts) ==>
              r.month in Keys(ts, MonthOf) &&
              r.income == KeySum(ts, MonthOf, IncomePart, r.month) &&
              r.expense == KeySum(ts, MonthOf, ExpensePart, r.month) &&
              r.balance == r.income - r.expense
    ensures forall t :: t in ts ==>
              (exists r :: r in MonthlyDataOf(ts) && r.month == MonthOf(t)) ||
              (MonthlyDataOf(ts) != [] && MonthLe(MonthOf(t), MonthlyDataOf(ts)[0].month))
  {
    MonthlyRowsContents(ts);
    MonthlyRowsCover(ts);
  }

  lemma ByMonthTotal()
    ensures TotalPreorder(ByMonth)
  {
  }

  lemma MonthlyRowsContents(ts: seq<Transaction>)
    ensures forall r :: r in MonthlyDataOf(ts) ==>
              r.month in Keys(ts, MonthOf) &&
              r.income == KeySum(ts, MonthOf, IncomePart, r.month) &&
              r.expense == KeySum(ts, MonthOf, ExpensePart, r.month) &&
              r.balance == r.income - r.expense
  {
    var es := MonthlyMap(ts);
    ByMonthTotal();
    LastSpec(es, 6, ByMonth);
    MonthlyMapSpec(ts);
    RowsContents(ts, es, TakeLast(Sort(es, ByMonth), 6), MonthlyDataOf(ts));
  }

  lemma MonthlyRowsCover(ts: seq<Transaction>)
    ensures forall t :: t in ts ==>
              (exists r :: r in MonthlyDataOf(ts) && r.month == MonthOf(t)) ||
              (MonthlyDataOf(ts) != [] && MonthLe(MonthOf(t), MonthlyDataOf(ts)[0].month))
  {
    var es := MonthlyMap(ts);
    ByMonthTotal();
    LastSpec(es, 6, ByMonth);
    MonthlyMapSpec(ts);
    RowsCover(ts, es, TakeLast(Sort(es, ByMonth), 6), MonthlyDataOf(ts));
  }

  /** Rows made from entries sorted by month are in month order. */
  lemma RowsOrder(last: seq<((int, int), (real, real))>, rows: seq<MonthlyData>)
    requires |rows| == |last| && forall i :: 0 <= i < |rows| ==> rows[i] == MonthRow(last[i])
    requires SortedBy(last, ByMonth)
    ensures forall i, j :: 0 <= i < j < |rows| ==> MonthLe(rows[i].month, rows[j].month)
  {
    forall i, j | 0 <= i < j < |rows| ensures MonthLe(rows[i].month, rows[j].month) {
      assert ByMonth(last[i], last[j]);
    }
  }

  /** Every entry of `monthlyMap` is a month with its two totals, and every transaction's month has an entry. */
  lemma MonthlyMapSpec(ts: seq<Transaction>)
    ensures forall e :: e in MonthlyMap(ts) ==>
              e.0 in Keys(ts, MonthOf) &&
              e.1 == (KeySum(ts, MonthOf, IncomePart, e.0), KeySum(ts, MonthOf, ExpensePart, e.0))
    ensures forall t :: t in ts ==> exists e :: e in MonthlyMap(ts) && e.0 == MonthOf(t)
  {
    var es := MonthlyMap(ts);
    var ks := Keys(ts, MonthOf);
    forall t | t in ts ensures exists e :: e in es && e.0 == MonthOf(t) {
      var n :| 0 <= n < |ts| && ts[n] == t;
      assert MonthOf(ts[n]) in ks;
      var k :| 0 <= k < |ks| && ks[k] == MonthOf(t);
      assert es[k] in es;
    }
  }

  /** Rows made from entries with their months' totals carry those totals. */
  lemma RowsContents(ts: seq<Transaction>, es: seq<((int, int), (real, real))>,
                     last: seq<((int, int), (real, real))>, rows: seq<MonthlyData>)
    requires |rows| == |last| && forall i :: 0 <= i < |rows| ==> rows[i] == MonthRow(last[i])
    requires forall e :: e in last ==> e in es
    requires forall e :: e in es ==>
               e.0 in Keys(ts, MonthOf) &&
               e.1 == (KeySum(ts, MonthOf, IncomePart, e.0), KeySum(ts, MonthOf, ExpensePart, e.0))
    ensures forall r :: r in rows ==>
              r.month in Keys(ts, MonthOf) &&
              r.income == KeySum(ts, MonthOf, IncomePart, r.month) &&
              r.expense == KeySum(ts, MonthOf, ExpensePart, r.month) &&
              r.balance == r.income - r.expense
  {
    forall r | r in rows
      ensures r.month in Keys(ts, MonthOf) &&
              r.income == KeySum(ts, MonthOf, IncomePart, r.month) &&
              r.expense == KeySum(ts, MonthOf, ExpensePart, r.month)
    {
      var i :| 0 <= i < |rows| && rows[i] == r;
      assert last[i] in last;
    }
  }

  /** Every month with an entry either has a row or comes no later than the first row. */
  lemma RowsCover(ts: seq<Transaction>, es: seq<((int, int), (real, real))>,
                  last: seq<((int, int), (real, real))>, rows: seq<MonthlyData>)
    requires |rows| == |last| && forall i :: 0 <= i < |rows| ==> rows[i] == MonthRow(last[i])
    requires es != [] ==> last != []
    requires forall e :: e in es ==> e in last || ByMonth(e, last[0])
    requires forall t :: t in ts ==> exists e :: e in es && e.0 == MonthOf(t)
    ensures forall t :: t in ts ==>
              (exists r :: r in rows && r.month == MonthOf(t)) || (rows != [] && MonthLe(MonthOf(t), rows[0].month))
  {
    forall t | t in ts
      ensures (exists r :: r in rows && r.month == MonthOf(t)) || (rows != [] && MonthLe(MonthOf(t), rows[0].month))
    {
      var e :| e in es && e.0 == MonthOf(t);
      if e in last {
        var i :| 0 <= i < |last| && last[i] == e;
        assert rows[i] in rows && rows[i].month == MonthOf(t);
      } else {
        assert ByMonth(e, last[0]);
        assert rows[0].month == last[0].0;
      }
    }
  }

  /** `monthlyData`, computed with the `forEach`. */
  method MonthlyDataFor(ts: seq<Transaction>) returns (rows: seq<MonthlyData>)
    ensures rows == MonthlyDataOf(ts)
  {
    var monthlyMap := BuildMonthlyMap(ts);
    var last := TakeLast(Sort(monthlyMap, ByMonth), 6);
    rows := seq(|last|, i requires 0 <= i < |last| => MonthRow(last[i]));
  }

  // ---- categoryAnalysis ----

  /** `name.charAt(0).toUpperCase() + name.slice(1)`. */
  function Capitalize(s: string): (r: string)
    ensures |r| == |s|
    ensures s != [] ==> r[0] == Strs.UpperChar(s[0]) && r[1..] == s[1..]
  {
    if s == [] then [] else [Strs.UpperChar(s[0])] + s[1..]
  }

  /** One category of the analysis (its `trend` is always 'stable'). */
  datatype CategoryData = CategoryData(name: string, value: real, percentage: real)

  /** `total > 0 ? (value / total) * 100 : 0`. */
  function Share(value: real, total: real): real
  {
    if total > 0.0 then value / total * 100.0 else 0.0
  }

  function CategoryRow(e: (string, real), total: real): CategoryData
  {
    CategoryData(Capitalize(e.0), e.1, Share(e.1, total))
  }

  /** `sort((a, b) => b.value - a.value)`. */
  function ByValue(a: CategoryData, b: CategoryData): bool { a.value >= b.value }

  /** Every expense category with its share of the expense total, before sorting. */
  function CategoryRows(ts: seq<Transaction>): (rows: seq<CategoryData>)
    ensures |rows| == |ExpenseByCategory(ts)|
  {
    var es := ExpenseByCategory(ts);
    seq(|es|, i requires 0 <= i < |es| => CategoryRow(es[i], ExpenseTotal(ts)))
  }

  /** `categoryAnalysis`: the eight largest expense categories, largest first. */
  function CategoryAnalysisOf(ts: seq<Transaction>): seq<CategoryData>
  {
    Take(Sort(CategoryRows(ts), ByValue), 8)
  }

  /**
   * At most eight categories, one more for each expense category up to
   * eight, largest first; each is an expense category with its total and
   * that total's share of all expenses (0 when there are none); and no
   * category left out spent more than the last one shown.
   */
  lemma CategorySpec(ts: seq<Transaction>)
    ensures |CategoryAnalysisOf(ts)| == if |ExpenseByCategory(ts)| < 8 then |ExpenseByCategory(ts)| else 8
    ensures SortedBy(CategoryAnalysisOf(ts), ByValue)
    ensures forall c :: c in CategoryAnalysisOf(ts) ==>
              (exists e :: e in ExpenseByCategory(ts) && c.name == Capitalize(e.0) && c.value == e.1) &&
              c.percentage == Share(c.value, ExpenseTotal(ts))
    ensures forall e :: e in ExpenseByCategory(ts) ==>
              CategoryRow(e, ExpenseTotal(ts)) in CategoryAnalysisOf(ts) ||
              e.1 <= CategoryAnalysisOf(ts)[|CategoryAnalysisOf(ts)| - 1].value
  {
    assert TotalPreorder(ByValue);
    TopSpec(CategoryRows(ts), 8, ByValue);
    RowsSpec(ExpenseByCategory(ts), ExpenseTotal(ts), CategoryRows(ts));
  }

  /** The rows made from a list of category totals are exactly those totals, with their shares of `total`. */
  lemma RowsSpec(es: seq<(string, real)>, total: real, rows: seq<CategoryData>)
    requires |rows| == |es| && forall i :: 0 <= i < |es| ==> rows[i] == CategoryRow(es[i], total)
    ensures forall c :: c in rows ==>
              (exists e :: e in es && c.name == Capitalize(e.0) && c.value == e.1) && c.percentage == Share(c.value, total)
    ensures forall e :: e in es ==> CategoryRow(e, total) in rows
  {
    forall c | c in rows
      ensures (exists e :: e in es && c.name == Capitalize(e.0) && c.value == e.1) && c.percentage == Share(c.value, total)
    {
      var i :| 0 <= i < |rows| && rows[i] == c;
      assert es[i] in es;
    }
    forall e | e in es ensures CategoryRow(e, total) in rows {
      var i :| 0 <= i < |es| && es[i] == e;
      assert rows[i] == CategoryRow(e, total);
    }
  }

  /** The percentages are shares of a total the category totals add up to. */
  lemma ShareSpec(ts: seq<Transaction>)
    ensures SumValues(ExpenseByCategory(ts)) == ExpenseTotal(ts)
    ensures ExpenseTotal(ts) <= 0.0 ==> forall c :: c in CategoryAnalysisOf(ts) ==> c.percentage == 0.0
  {
    ExpenseByCategoryTotal(ts);
    CategorySpec(ts);
  }

  /** `categoryAnalysis`, computed with the `forEach` over the expenses. */
  method CategoryAnalysis(ts: seq<Transaction>) returns (r: seq<CategoryData>)
    ensures r == CategoryAnalysisOf(ts)
  {
    var categoryMap := ExpenseMap(ts);
    var total := ExpenseTotal(ts);
    var rows := seq(|categoryMap|, i requires 0 <= i < |categoryMap| => CategoryRow(categoryMap[i], total));
    r := Take(Sort(rows, ByValue), 8);
  }

  // ---- insights ----

  datatype InsightKind = Success | Warning | Info | Danger

  datatype Insight = Insight(kind: InsightKind, title: string, message: string, value: Option<string>, icon: string)

  /** The transactions of the current month (of all of them, not only the period's). */
  function ThisMonth(ts: seq<Transaction>, today: Day): seq<Transaction>
  {
    Filter(ts, (t: Transaction) => t.date.year == today.year && t.date.month == today.month)
  }

  /** The balance insight: a success for a positive balance, a warning for a negative one, none at 0. */
  function BalanceInsight(balance: real): Option<Insight>
  {
    if balance > 0.0 then
      Some(Insight(Success, "Saldo Positivo", "Você está economizando neste mês!", Some("+R$ " + NumFmt.Fixed2(balance)), "💰"))
    else if balance < 0.0 then
      Some(Insight(Warning, "Gastos Elevados", "Gastos excedem receitas este mês", Some("R$ " + NumFmt.Fixed2(-balance)), "⚠️"))
    else None
  }

  /** The main-category insight, about the first category of the analysis. */
  function TopCategoryInsight(cats: seq<CategoryData>): Option<Insight>
  {
    if cats == [] then None
    else
      var top := cats[0];
      Some(Insight(Info, "Categoria Principal",
                   top.name + " representa " + NumFmt.Fixed1(top.percentage) + "% dos gastos",
                   Some("R$ " + NumFmt.Fixed2(top.value)), "📊"))
  }

  /** `(valorAcumulado / meta.valor) * 100`. */
  function Progress(ts: seq<Transaction>, m: Meta): NumFmt.JsNumber
  {
    NumFmt.Percent(Accumulated(ts, m), m.valor)
  }

  /** `progresso >= 80 && progresso < 100`. */
  predicate Close(ts: seq<Transaction>, m: Meta)
  {
    NumFmt.AtLeast(Progress(ts, m), 80.0) && NumFmt.Below(Progress(ts, m), 100.0)
  }

  /** The "almost reached" insight, about the first goal between 80% and 100%. */
  function GoalInsight(ms: seq<Meta>, ts: seq<Transaction>): Option<Insight>
  {
    var close := Filter(ms, m => Close(ts, m));
    if close == [] then None
    else
      Some(Insight(Success, "Meta Quase Atingida!",
                   close[0].nome + " está " + NumFmt.Text1(Progress(ts, close[0])) + "% completa", None, "🎯"))
  }

  function Listed(o: Option<Insight>): seq<Insight>
  {
    if o.Some? then [o.value] else []
  }

  /** `thisMonthIncome - thisMonthExpenses`. */
  function MonthBalance(ts: seq<Transaction>, today: Day): real
  {
    var month := ThisMonth(ts, today);
    Sum(Filter(month, IsIncome), Amount) - Sum(Filter(month, IsExpense), Amount)
  }

  /** The pushes, in order, of the insights that apply. */
  function Assemble(balance: Option<Insight>, top: Option<Insight>, goal: Option<Insight>): seq<Insight>
  {
    Listed(balance) + Listed(top) + Listed(goal)
  }

  /** `insights`: the balance, main-category and goal insights that apply, in that order. */
  function InsightsOf(ts: seq<Transaction>, ms: seq<Meta>, today: Day, cats: seq<CategoryData>): seq<Insight>
  {
    Assemble(BalanceInsight(MonthBalance(ts, today)), TopCategoryInsight(cats), GoalInsight(ms, ts))
  }

  /** The balance insight is there exactly when the balance is not 0, a success above 0 and a warning below, with the balance's size. */
  lemma BalanceInsightSpec(balance: real)
    ensures BalanceInsight(balance).Some? <==> balance != 0.0
    ensures balance > 0.0 ==> BalanceInsight(balance).value.kind == Success &&
                              BalanceInsight(balance).value.value == Some("+R$ " + NumFmt.Fixed2(balance))
    ensures balance < 0.0 ==> BalanceInsight(balance).value.kind == Warning &&
                              BalanceInsight(balance).value.value == Some("R$ " + NumFmt.Fixed2(-balance))
  {
  }

  /** The goal insight is there exactly when some goal is between 80% and 100%, and it is about the first such goal. */
  lemma GoalInsightSpec(ms: seq<Meta>, ts: seq<Transaction>)
    ensures GoalInsight(ms, ts).Some? <==> exists i :: 0 <= i < |ms| && Close(ts, ms[i])
    ensures GoalInsight(ms, ts).Some? ==>
              exists i :: 0 <= i < |ms| && Close(ts, ms[i]) && (forall j :: 0 <= j < i ==> !Close(ts, ms[j])) &&
                          GoalInsight(ms, ts).value.message ==
                            ms[i].nome + " está " + NumFmt.Text1(Progress(ts, ms[i])) + "% completa"
  {
    FilterFirst(ms, m => Close(ts, m));
  }

  /** For a positive target, a goal is close exactly when it has accumulated at least 80% of it and not all of it. */
  lemma CloseSpec(ts: seq<Transaction>, m: Meta)
    requires m.valor > 0.0
    ensures Close(ts, m) <==> 0.8 * m.valor <= Accumulated(ts, m) < m.valor
  {
    var a := Accumulated(ts, m);
    ExportManager.PercentAtLeast(a, m.valor, 0.8);
    ExportManager.PercentAtLeast(a, m.valor, 1.0);
  }

  /** The balance looked at is the current month's income total minus its expense total. */
  lemma MonthBalanceSpec(ts: seq<Transaction>, today: Day)
    ensures MonthBalance(ts, today) == IncomeTotal(ThisMonth(ts, today)) - ExpenseTotal(ThisMonth(ts, today))
    ensures MonthBalance(ts, today) == Net(ThisMonth(ts, today))
  {
    var month := ThisMonth(ts, today);
    FilterIncomeTotal(month);
    FilterExpenseTotal(month);
    NetIsIncomeMinusExpense(month);
  }

  /**
   * The insights come in a fixed order, each at most once: the balance one
   * first when there is one, then the main category, then the goal.
   */
  lemma AssembleSpec(balance: Option<Insight>, top: Option<Insight>, goal: Option<Insight>)
    ensures |Assemble(balance, top, goal)| == |Listed(balance)| + |Listed(top)| + |Listed(goal)| <= 3
    ensures balance.Some? ==> Assemble(balance, top, goal)[0] == balance.value
    ensures top.Some? ==> Assemble(balance, top, goal)[|Listed(balance)|] == top.value
    ensures goal.Some? ==> Assemble(balance, top, goal)[|Assemble(balance, top, goal)| - 1] == goal.value
  {
  }

  // ---- stats ----

  datatype Stats = Stats(
    totalReceitas: real,
    totalDespesas: real,
    saldo: real,
    totalTransacoes: nat,
    mediaReceitas: real,
    mediaDespesas: real,
    economiaRate: real)

  /** `monthsInPeriod`: 3, 6, 12, or 1 for "all". */
  function MonthsInPeriod(f: TimeFilter): (n: nat)
    ensures n >= 1
  {
    if f.AllTime? then 1 else MonthsBack(f)
  }

  /** `stats`, over the period's transactions. */
  function StatsOf(ts: seq<Transaction>, f: TimeFilter): Stats
  {
    var totalReceitas := Sum(Filter(ts, IsIncome), Amount);
    var totalDespesas := Sum(Filter(ts, IsExpense), Amount);
    var months := MonthsInPeriod(f) as real;
    Stats(totalReceitas, totalDespesas, totalReceitas - totalDespesas, |ts|,
          totalReceitas / months, totalDespesas / months,
          if totalReceitas > 0.0 then (totalReceitas - totalDespesas) / totalReceitas * 100.0 else 0.0)
  }

  /**
   * The totals are the period's income and expense and the balance their
   * difference (the signed sum); the averages spread the totals over the
   * period's months; the savings rate is 0 without income and otherwise
   * positive exactly when the balance is.
   */
  lemma StatsSpec(ts: seq<Transaction>, f: TimeFilter)
    ensures var s := StatsOf(ts, f);
            s.totalReceitas == IncomeTotal(ts) && s.totalDespesas == ExpenseTotal(ts) &&
            s.saldo == Net(ts) && s.totalTransacoes == |ts| &&
            s.mediaReceitas * MonthsInPeriod(f) as real == s.totalReceitas &&
            s.mediaDespesas * MonthsInPeriod(f) as real == s.totalDespesas
    ensures var s := StatsOf(ts, f);
            (s.totalReceitas <= 0.0 ==> s.economiaRate == 0.0) &&
            (s.totalReceitas > 0.0 ==> (s.economiaRate > 0.0 <==> s.saldo > 0.0))
  {
    StatsTotals(ts, f);
    var s := StatsOf(ts, f);
    if s.totalReceitas > 0.0 {
      RateSign(s.totalReceitas, s.saldo);
    }
  }

  lemma StatsTotals(ts: seq<Transaction>, f: TimeFilter)
    ensures var s := StatsOf(ts, f);
            s.totalReceitas == IncomeTotal(ts) && s.totalDespesas == ExpenseTotal(ts) &&
            s.saldo == Net(ts)
  {
    FilterIncomeTotal(ts);
    FilterExpenseTotal(ts);
    NetIsIncomeMinusExpense(ts);
  }

  lemma RateSign(income: real, saldo: real)
    requires income > 0.0
    ensures saldo / income * 100.0 > 0.0 <==> saldo > 0.0
  {
    var q := saldo / income;
    assert q * income == saldo;
    if q > 0.0 { assert q * income > 0.0; } else { assert q * income <= 0.0; }
  }
}
