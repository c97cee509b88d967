/**
 * The financial report card: the quick date ranges, the report over the
 * chosen range (income, expense and balance, the per-category totals, the
 * next five payments and the figures of the month before) and the
 * month-over-month percentage. "Now" is a parameter, in milliseconds, and
 * the local time zone is taken to be UTC.
 */
module FinancialReport {
  import opened Seqs
  import opened Ledger
  import opened Calendar

  /** The quick-filter buttons; `Custom` is highlighted by its own button or by typing a date. */
  datatype QuickFilter = ThisMonth | NextMonth | ThisYear | Custom

  /** The range a quick filter selects, or `None` for `custom`, which leaves the range as it is. */
  function QuickRange(filter: QuickFilter, today: Day): Option<(Day, Day)>
  {
    match filter
    case ThisMonth => Some((MakeDate(today.year, today.month - 1, 1), MakeDate(today.year, today.month, 0)))
    case NextMonth => Some((MakeDate(today.year, today.month, 1), MakeDate(today.year, today.month + 1, 0)))
    case ThisYear => Some((MakeDate(today.year, 0, 1), MakeDate(today.year, 11, 31)))
    case Custom => None
  }

  /**
   * This month runs from its 1st to its last day, next month likewise (December
   * rolling over to January), this year from January 1 to December 31.
   */
  lemma QuickRangeSpec(today: Day)
    ensures QuickRange(ThisMonth, today) ==
            Some((Date(today.year, today.month, 1), Date(today.year, today.month, DaysInMonth(today.year, today.month))))
    ensures var ny := if today.month == 12 then today.year + 1 else today.year;
            var nm := if today.month == 12 then 1 else today.month + 1;
            QuickRange(NextMonth, today) == Some((Date(ny, nm, 1), Date(ny, nm, DaysInMonth(ny, nm))))
    ensures QuickRange(ThisYear, today) == Some((Date(today.year, 1, 1), Date(today.year, 12, 31)))
    ensures QuickRange(Custom, today).None?
  {
    WholeMonth(today.year, today.month - 1);
    WholeMonth(today.year, today.month);
    MakeDateExact(today.year, 0, 1);
    MakeDateExact(today.year, 11, 31);
  }

  /** `new Date(y, i, 1)` and `new Date(y, i + 1, 0)` for `i` from 0 to 12: the first and last day of that month. */
  lemma WholeMonth(y: int, i: int)
    requires 0 <= i <= 12
    ensures var ny := if i == 12 then y + 1 else y;
            var nm := if i == 12 then 1 else i + 1;
            MakeDate(y, i, 1) == Date(ny, nm, 1) && MakeDate(y, i + 1, 0) == Date(ny, nm, DaysInMonth(ny, nm))
  {
    MakeDateFirst(y, i);
    MakeDateLastDay(y, i);
    assert NormYear(y, i) == if i == 12 then y + 1 else y;
    assert NormMonth(i) == if i == 12 then 1 else i + 1;
  }

  /** The month before the one holding `start`: its first and its last day. */
  function PreviousMonth(start: Day): (Day, Day)
  {
    (MakeDate(start.year, start.month - 2, 1), MakeDate(start.year, start.month - 1, 0))
  }

  /** The previous-month window is the whole calendar month before the start's month. */
  lemma PreviousMonthSpec(start: Day)
    ensures var py := if start.month == 1 then start.year - 1 else start.year;
            var pm := if start.month == 1 then 12 else start.month - 1;
            PreviousMonth(start) == (Date(py, pm, 1), Date(py, pm, DaysInMonth(py, pm)))
  {
    var py := if start.month == 1 then start.year - 1 else start.year;
    var pm := if start.month == 1 then 12 else start.month - 1;
    MakeDateFirst(start.year, start.month - 2);
    MakeDateLastDay(start.year, start.month - 2);
    assert NormYear(start.year, start.month - 2) == py && NormMonth(start.month - 2) == pm;
  }

  /** Income, expense and balance of the month before. */
  datatype Comparison = Comparison(income: real, expense: real, balance: real)

  /** What the card shows. */
  datatype Report = Report(
    income: real,
    expense: real,
    balance: real,
    period: seq<Transaction>,
    incomeByCategory: seq<(string, real)>,
    expenseByCategory: seq<(string, real)>,
    upcoming: seq<Transaction>,
    previous: Option<Comparison>)

  /** The report while a bound is empty: zeros, empty lists, no comparison. */
  const EmptyReport: Report := Report(0.0, 0.0, 0.0, [], [], [], [], None)

  /** The day lies between the range's first and last day, both included. */
  predicate InRange(start: Day, end: Day, t: Transaction)
  {
    Le(start, t.date) && Le(t.date, end)
  }

  /** An expense dated from now to thirty days from now. */
  predicate DueSoon(nowMs: int, t: Transaction)
  {
    t.kind == Expense && nowMs <= Millis(t.date) <= nowMs + 30 * MsPerDay
  }

  /** The comparator `new Date(a.date).getTime() - new Date(b.date).getTime()`: earlier first. */
  predicate Sooner(a: Transaction, b: Transaction)
  {
    DayNumber(a.date) <= DayNumber(b.date)
  }

  /** How many upcoming payments the card lists. */
  const UpcomingShown: nat := 5

  function UpcomingPayments(ts: seq<Transaction>, nowMs: int): seq<Transaction>
  {
    Take(Sort(Filter(ts, t => DueSoon(nowMs, t)), Sooner), UpcomingShown)
  }

  function PeriodOf(ts: seq<Transaction>, start: Day, end: Day): seq<Transaction>
  {
    Filter(ts, t => InRange(start, end, t))
  }

  function ComparisonOf(ts: seq<Transaction>, start: Day): Comparison
  {
    var window := PreviousMonth(start);
    var last := PeriodOf(ts, window.0, window.1);
    var income := Sum(Filter(last, IsIncome), Amount);
    var expense := Sum(Filter(last, IsExpense), Amount);
    Comparison(income, expense, income - expense)
  }

  /** `reportData` for the range `start`..`end` (`None` for an empty input). */
  function ReportOf(ts: seq<Transaction>, start: Option<Day>, end: Option<Day>, nowMs: int): Report
  {
    if start.None? || end.None? then EmptyReport
    else
      var period := PeriodOf(ts, start.value, end.value);
      var income := Sum(Filter(period, IsIncome), Amount);
      var expense := Sum(Filter(period, IsExpense), Amount);
      Report(income, expense, income - expense, period,
             Entries(Filter(period, IsIncome), CategoryKey, Amount),
             Entries(Filter(period, IsExpense), CategoryKey, Amount),
             UpcomingPayments(ts, nowMs),
             Some(ComparisonOf(ts, start.value)))
  }

  /** An empty start or end gives the empty report. */
  lemma EmptyRangeSpec(ts: seq<Transaction>, start: Option<Day>, end: Option<Day>, nowMs: int)
    requires start.None? || end.None?
    ensures var r := ReportOf(ts, start, end, nowMs);
            r.income == 0.0 && r.expense == 0.0 && r.balance == 0.0 && r.period == [] &&
            r.incomeByCategory == [] && r.expenseByCategory == [] && r.upcoming == [] && r.previous.None?
  {
  }

  /**
   * With both bounds, the period holds exactly the transactions dated in the
   * range, both ends included, in their order.
   */
  lemma PeriodSpec(ts: seq<Transaction>, start: Day, end: Day, nowMs: int)
    ensures var r := ReportOf(ts, Some(start), Some(end), nowMs);
            Subseq(r.period, ts) &&
            (forall t :: t in r.period <==> t in ts && Le(start, t.date) && Le(t.date, end))
  {
    FilterSpec(ts, t => InRange(start, end, t));
  }

  /** Income and expense are the totals of the period and the balance their difference. */
  lemma TotalsSpec(ts: seq<Transaction>, start: Day, end: Day, nowMs: int)
    ensures var r := ReportOf(ts, Some(start), Some(end), nowMs);
            r.income == IncomeTotal(r.period) && r.expense == ExpenseTotal(r.period) && r.balance == Net(r.period)
  {
    PeriodTotals(PeriodOf(ts, start, end));
  }

  /** The per-category totals add up to the income and to the expense. */
  lemma CategorySumsSpec(ts: seq<Transaction>, start: Day, end: Day, nowMs: int)
    ensures var r := ReportOf(ts, Some(start), Some(end), nowMs);
            SumValues(r.incomeByCategory) == r.income && SumValues(r.expenseByCategory) == r.expense
  {
    PeriodTotals(PeriodOf(ts, start, end));
  }

  /** The previous month's figures are its income and expense totals, and its balance their difference. */
  lemma PreviousSpec(ts: seq<Transaction>, start: Day, end: Day, nowMs: int)
    ensures var r := ReportOf(ts, Some(start), Some(end), nowMs);
            var window := PreviousMonth(start);
            var last := Filter(ts, t => InRange(window.0, window.1, t));
            r.previous.Some? &&
            r.previous.value.income == IncomeTotal(last) && r.previous.value.expense == ExpenseTotal(last) &&
            r.previous.value.balance == r.previous.value.income - r.previous.value.expense
  {
    var window := PreviousMonth(start);
    PeriodTotals(PeriodOf(ts, window.0, window.1));
  }

  lemma PeriodTotals(period: seq<Transaction>)
    ensures Sum(Filter(period, IsIncome), Amount) == IncomeTotal(period)
    ensures Sum(Filter(period, IsExpense), Amount) == ExpenseTotal(period)
    ensures Sum(Filter(period, IsIncome), Amount) - Sum(Filter(period, IsExpense), Amount) == Net(period)
    ensures SumValues(Entries(Filter(period, IsIncome), CategoryKey, Amount)) == Sum(Filter(period, IsIncome), Amount)
    ensures SumValues(Entries(Filter(period, IsExpense), CategoryKey, Amount)) == Sum(Filter(period, IsExpense), Amount)
  {
    FilterIncomeTotal(period);
    FilterExpenseTotal(period);
    NetIsIncomeMinusExpense(period);
    EntriesTotal(Filter(period, IsIncome), CategoryKey, Amount);
    EntriesTotal(Filter(period, IsExpense), CategoryKey, Amount);
  }

  /**
   * Each per-category dictionary lists every category key of its kind in the
   * period once, and no other (a missing category counts as "Sem categoria").
   */
  lemma CategoryKeysSpec(ts: seq<Transaction>, start: Day, end: Day, nowMs: int)
    ensures var r := ReportOf(ts, Some(start), Some(end), nowMs);
            Distinct(Labels(r.incomeByCategory)) && Distinct(Labels(r.expenseByCategory)) &&
            (forall t :: t in r.period && t.kind == Income ==> CategoryKey(t) in Labels(r.incomeByCategory)) &&
            (forall t :: t in r.period && t.kind == Expense ==> CategoryKey(t) in Labels(r.expenseByCategory)) &&
            (forall k :: k in Labels(r.incomeByCategory) ==> exists t :: t in r.period && t.kind == Income && CategoryKey(t) == k) &&
            (forall k :: k in Labels(r.expenseByCategory) ==> exists t :: t in r.period && t.kind == Expense && CategoryKey(t) == k)
  {
    var period := PeriodOf(ts, start, end);
    KeysListed(period, IsIncome);
    KeysListed(period, IsExpense);
  }

  /** The keys of the dictionary of the transactions passing `p` are exactly their category keys, once each. */
  lemma KeysListed(period: seq<Transaction>, p: Transaction -> bool)
    ensures var ls := Labels(Entries(Filter(period, p), CategoryKey, Amount));
            Distinct(ls) &&
            (forall t :: t in period && p(t) ==> CategoryKey(t) in ls) &&
            (forall k :: k in ls ==> exists t :: t in period && p(t) && CategoryKey(t) == k)
  {
    var xs := Filter(period, p);
    FilterSpec(period, p);
    EntriesLabels(xs, CategoryKey, Amount);
    forall k | k in Keys(xs, CategoryKey) ensures exists t :: t in period && p(t) && CategoryKey(t) == k {
      var j :| 0 <= j < |xs| && CategoryKey(xs[j]) == k;
      assert xs[j] in xs;
    }
  }

  /**
   * At most five upcoming payments, all expenses of the list dated from now
   * to thirty days ahead, earliest first, and none left out is earlier than
   * the last one listed.
   */
  lemma UpcomingSpec(ts: seq<Transaction>, nowMs: int)
    ensures var up := UpcomingPayments(ts, nowMs);
            |up| <= 5 &&
            (forall t :: t in up ==> t in ts && t.kind == Expense && nowMs <= Millis(t.date) <= nowMs + 30 * MsPerDay) &&
            (forall i, j :: 0 <= i < j < |up| ==> DayNumber(up[i].date) <= DayNumber(up[j].date)) &&
            (forall t :: t in ts && DueSoon(nowMs, t) && t !in up ==> |up| == 5 && DayNumber(up[4].date) <= DayNumber(t.date))
  {
    var due := Filter(ts, t => DueSoon(nowMs, t));
    FilterSpec(ts, t => DueSoon(nowMs, t));
    assert TotalPreorder(Sooner);
    TopSpec(due, UpcomingShown, Sooner);
    TopFull(due, UpcomingShown, Sooner);
    var up := UpcomingPayments(ts, nowMs);
    forall i, j | 0 <= i < j < |up| ensures DayNumber(up[i].date) <= DayNumber(up[j].date) {
      assert Sooner(up[i], up[j]);
    }
    forall t | t in ts && DueSoon(nowMs, t) && t !in up ensures |up| == 5 && DayNumber(up[4].date) <= DayNumber(t.date) {
      assert t in due;
      assert Sooner(up[|up| - 1], t);
    }
  }

  /** `calcularPercentualMudanca`. */
  function PercentChange(atual: real, anterior: real): real
  {
    if anterior == 0.0 then (if atual > 0.0 then 100.0 else 0.0)
    else (atual - anterior) / anterior * 100.0
  }

  /**
   * From zero the change is 100 for growth and 0 otherwise; from a non-zero
   * value it is the difference as a percentage of that value, so from a
   * positive value it is positive exactly for growth and zero exactly for no
   * change.
   */
  lemma PercentChangeSpec(atual: real, anterior: real)
    ensures anterior == 0.0 ==> (PercentChange(atual, anterior) == 100.0 <==> atual > 0.0)
    ensures anterior == 0.0 ==> (PercentChange(atual, anterior) == 0.0 <==> atual <= 0.0)
    ensures anterior != 0.0 ==> PercentChange(atual, anterior) * anterior == (atual - anterior) * 100.0
    ensures anterior > 0.0 ==> (PercentChange(atual, anterior) > 0.0 <==> atual > anterior)
    ensures anterior > 0.0 ==> (PercentChange(atual, anterior) == 0.0 <==> atual == anterior)
  {
    if anterior != 0.0 {
      var q := (atual - anterior) / anterior;
      assert q * anterior == atual - anterior;
      assert PercentChange(atual, anterior) == q * 100.0;
    }
  }

  /** The card's state: the selected range (`None` for an empty input) and the highlighted filter. */
  class ReportCard {
    var start: Option<Day>
    var end: Option<Day>
    var active: QuickFilter

    /** The first render, after the effect that selects the current month. */
    constructor (today: Day)
      ensures start.Some? && end.Some? && Some((start.value, end.value)) == QuickRange(ThisMonth, today)
      ensures active == ThisMonth
    {
      var range := QuickRange(ThisMonth, today).value;
      start, end := Some(range.0), Some(range.1);
      active := ThisMonth;
    }

    /** `setQuickFilter`: a button selects its range and is highlighted; `custom` changes nothing. */
    method SetQuickFilter(filter: QuickFilter, today: Day)
      modifies this
      ensures filter == Custom ==> start == old(start) && end == old(end) && active == old(active)
      ensures filter != Custom ==>
                start.Some? && end.Some? && QuickRange(filter, today) == Some((start.value, end.value)) && active == filter
    {
      var range := QuickRange(filter, today);
      if range.None? {
        return;
      }
      start, end := Some(range.value.0), Some(range.value.1);
      active := filter;
    }

    /** The "custom" button: only the highlight moves; the range stays until a date is typed. */
    method ChooseCustom()
      modifies this
      ensures active == Custom && start == old(start) && end == old(end)
    {
      active := Custom;
    }

    /** Typing a start date: the range keeps its end and the custom filter is highlighted. */
    method SetStart(d: Option<Day>)
      modifies this
      ensures start == d && end == old(end) && active == Custom
    {
      start := d;
      active := Custom;
    }

    /** Typing an end date. */
    method SetEnd(d: Option<Day>)
      modifies this
      ensures end == d && start == old(start) && active == Custom
    {
      end := d;
      active := Custom;
    }

    /** The report for the current range. */
    method Data(ts: seq<Transaction>, nowMs: int) returns (r: Report)
      ensures r == ReportOf(ts, start, end, nowMs)
    {
      r := BuildReport(ts, start, end, nowMs);
    }
  }

  /** `reportData`: the period filter, the totals, the category loop and the comparison. */
  method BuildReport(ts: seq<Transaction>, start: Option<Day>, end: Option<Day>, nowMs: int) returns (r: Report)
    ensures r == ReportOf(ts, start, end, nowMs)
  {
    if start.None? || end.None? {
      return EmptyReport;
    }
    var period := PeriodOf(ts, start.value, end.value);
    var income := Sum(Filter(period, IsIncome), Amount);
    var expense := Sum(Filter(period, IsExpense), Amount);
    var incomes, expenses := CategoryTotals(period);
    var previous := ComparisonOf(ts, start.value);
    var comparison := Comparison(previous.income, previous.expense, 0.0);
    comparison := comparison.(balance := comparison.income - comparison.expense);
    assert comparison == ComparisonOf(ts, start.value);
    r := Report(income, expense, income - expense, period, incomes, expenses, UpcomingPayments(ts, nowMs), Some(comparison));
  }

  /** The `forEach` adding each period transaction to its kind's dictionary under its category. */
  method CategoryTotals(period: seq<Transaction>) returns (incomes: seq<(string, real)>, expenses: seq<(string, real)>)
    ensures incomes == Entries(Filter(period, IsIncome), CategoryKey, Amount)
    ensures expenses == Entries(Filter(period, IsExpense), CategoryKey, Amount)
  {
    incomes, expenses := [], [];
    for i := 0 to |period|
      invariant incomes == Entries(Filter(period[..i], IsIncome), CategoryKey, Amount)
      invariant expenses == Entries(Filter(period[..i], IsExpense), CategoryKey, Amount)
    {
      var t := period[i];
      var categoria := CategoryKey(t);
      FilterPrefixStep(period, i, IsIncome);
      FilterPrefixStep(period, i, IsExpense);
      if t.kind == Income {
        assert Filter(period[..i + 1], IsExpense) == Filter(period[..i], IsExpense);
        BumpEntries(Filter(period[..i], IsIncome), t, CategoryKey, Amount);
        incomes := Bump(incomes, categoria, t.amount);
      } else {
        assert Filter(period[..i + 1], IsIncome) == Filter(period[..i], IsIncome);
        BumpEntries(Filter(period[..i], IsExpense), t, CategoryKey, Amount);
        expenses := Bump(expenses, categoria, t.amount);
      }
    }
    assert period[..|period|] == period;
  }
}
