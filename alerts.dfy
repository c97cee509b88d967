/**
 * The alert board of `AlertsManager`: the pattern analysis that turns the
 * recent transactions and the goals into alerts, the merge that appends
 * unseen alerts and keeps the last 50, marking and removing alerts, and the
 * rule form with its defaults.
 */
module Alerts {
  import opened Seqs
  import opened Ledger
  import Calendar
  import Strs

  datatype Severity = Low | Medium | High | Critical
  datatype AlertKind = Success | Warning | Error | Info
  datatype Area = BudgetArea | GoalArea | PatternArea | InsightArea | PredictionArea

  /** One alert; `amount` is the related amount when the alert carries one. */
  datatype Alert = Alert(id: string, title: string, kind: AlertKind, severity: Severity, area: Area,
                         isRead: bool, amount: Option<real>)

  // ---- pattern analysis ----

  /** `new Date(now.getTime() - days * 24 * 60 * 60 * 1000)`: the instant `days` days before now, in milliseconds. */
  function WindowStart(nowMs: int, days: nat): int
  {
    nowMs - days * Calendar.MsPerDay
  }

  /** `new Date(t.date) >= cutoff`: the stored date is midnight UTC of its day. */
  function OnOrAfter(cutoffMs: int): Transaction -> bool
  {
    (t: Transaction) => Calendar.Millis(t.date) >= cutoffMs
  }

  /**
   * With now `msOfDay` milliseconds after midnight of `today`, the last
   * `days` days keep exactly the transactions dated on or after the day
   * `days` days back, or the day after it when now is past midnight (that
   * day's midnight is then before the window opens).
   */
  lemma WindowDays(today: Day, msOfDay: int, days: nat, t: Transaction)
    requires 0 <= msOfDay < Calendar.MsPerDay
    ensures var first := Calendar.AddDays(today, if msOfDay == 0 then -(days as int) else 1 - days as int);
            OnOrAfter(WindowStart(Calendar.Millis(today) + msOfDay, days))(t) <==>
            Calendar.DayNumber(t.date) >= Calendar.DayNumber(first)
  {
    Calendar.DayNumberAdd(today, if msOfDay == 0 then -(days as int) else 1 - days as int);
  }

  /** Every transaction of the last 7 days is one of the last 30 days. */
  lemma WeekWithinMonth(ts: seq<Transaction>, nowMs: int)
    ensures forall t :: t in Filter(ts, OnOrAfter(WindowStart(nowMs, 7))) ==> t in Filter(ts, OnOrAfter(WindowStart(nowMs, 30)))
  {
    FilterSpec(ts, OnOrAfter(WindowStart(nowMs, 7)));
    FilterSpec(ts, OnOrAfter(WindowStart(nowMs, 30)));
  }

  /** `record[key] || 0` on insertion-ordered entries. */
  function Lookup(es: seq<(string, real)>, k: string): (v: real)
    ensures Find(es, k) < |es| ==> v == es[Find(es, k)].1
    ensures Find(es, k) == |es| ==> v == 0.0
  {
    var j := Find(es, k);
    if j < |es| then es[j].1 else 0.0
  }

  /** This week's spending in a category is over 1.5 times the month's weekly average and over 500. */
  predicate Surge(weekAmount: real, monthAmount: real)
  {
    weekAmount > monthAmount / 4.0 * 1.5 && weekAmount > 500.0
  }

  const SurgeTitle: string := "📈 Aumento significativo em "
  const HighExpenseTitle: string := "💸 Gasto elevado detectado"
  const FrequencyTitle: string := "📊 Alta frequência de transações"
  const GoalTitle: string := "🎯 Lembrete de Meta: "
  const LowSavingsTitle: string := "💰 Taxa de poupança baixa"
  const HighSavingsTitle: string := "🎉 Excelente controle financeiro!"
  const DeficitTitle: string := "⚠️ Projeção de déficit anual"

  function SurgeAlert(e: (string, real), stamp: string): Alert
  {
    Alert("pattern-increase-" + e.0 + "-" + stamp, SurgeTitle + e.0, Warning, Medium, PatternArea, false, Some(e.1))
  }

  /** One alert per category of this week whose spending surged, in the week's category order. */
  function SurgeAlerts(week: seq<(string, real)>, month: seq<(string, real)>, stamp: string): (r: seq<Alert>)
    ensures |r| <= |week|
    decreases |week|
  {
    if week == [] then []
    else
      var e := week[|week| - 1];
      SurgeAlerts(week[..|week| - 1], month, stamp)
      + (if Surge(e.1, Lookup(month, e.0)) then [SurgeAlert(e, stamp)] else [])
  }

  /** The surge test on one `[category, weekAmount]` entry of the week. */
  function Surging(month: seq<(string, real)>): ((string, real)) -> bool
  {
    (e: (string, real)) => Surge(e.1, Lookup(month, e.0))
  }

  /**
   * The alerts are exactly those of the week's surging categories, in the
   * week's category order: the i-th alert is that of the i-th surging entry,
   * and an alert is raised for an entry exactly when its category surged.
   */
  lemma {:induction false} SurgeAlertsSpec(week: seq<(string, real)>, month: seq<(string, real)>, stamp: string)
    ensures var r := SurgeAlerts(week, month, stamp);
            var f := Filter(week, Surging(month));
            |r| == |f| && forall i :: 0 <= i < |r| ==> r[i] == SurgeAlert(f[i], stamp)
    ensures forall a :: a in SurgeAlerts(week, month, stamp) <==>
              exists e :: e in week && Surge(e.1, Lookup(month, e.0)) && a == SurgeAlert(e, stamp)
    decreases |week|
  {
    var r := SurgeAlerts(week, month, stamp);
    var f := Filter(week, Surging(month));
    if week != [] {
      var init := week[..|week| - 1];
      SurgeAlertsSpec(init, month, stamp);
    }
    assert |r| == |f| && forall i :: 0 <= i < |r| ==> r[i] == SurgeAlert(f[i], stamp);
    FilterSpec(week, Surging(month));
    forall a | a in r
      ensures exists e :: e in week && Surge(e.1, Lookup(month, e.0)) && a == SurgeAlert(e, stamp)
    {
      var i :| 0 <= i < |r| && r[i] == a;
      assert f[i] in f;
    }
    forall e | e in week && Surge(e.1, Lookup(month, e.0))
      ensures SurgeAlert(e, stamp) in r
    {
      assert Surging(month)(e);
      var j :| 0 <= j < |f| && f[j] == e;
      assert r[j] == SurgeAlert(e, stamp);
    }
  }

  /** `sort((a, b) => b.amount - a.amount)`. */
  function ByAmountDesc(a: Transaction, b: Transaction): bool { a.amount >= b.amount }

  /** An expense above 1000. */
  predicate IsHighExpense(t: Transaction) { t.kind == Expense && t.amount > 1000.0 }

  /** The three largest expenses above 1000 of the week, largest first. */
  function HighExpenses(week: seq<Transaction>): seq<Transaction>
  {
    Take(Sort(Filter(week, IsHighExpense), ByAmountDesc), 3)
  }

  function HighExpenseAlert(t: Transaction, stamp: string): Alert
  {
    Alert("high-expense-" + Strs.IntStr(t.id) + "-" + stamp, HighExpenseTitle, Warning, High, BudgetArea, false, Some(t.amount))
  }

  function GoalAlert(m: Meta, stamp: string): Alert
  {
    Alert("meta-reminder-" + m.id + "-" + stamp, GoalTitle + m.nome, Info, Low, GoalArea, false, Some(m.valor))
  }

  /** `totalIncome > 0 ? ((totalIncome - totalExpenses) / totalIncome) * 100 : 0`. */
  function SavingsRate(income: real, expense: real): (rate: real)
    ensures income <= 0.0 ==> rate == 0.0
    ensures income > 0.0 ==> rate * income == (income - expense) * 100.0
  {
    if income > 0.0 then (income - expense) / income * 100.0 else 0.0
  }

  /** The savings alert: low for a rate in [0, 10), otherwise excellent above 30, otherwise none. */
  function SavingsAlerts(rate: real, stamp: string): seq<Alert>
  {
    if rate < 10.0 && rate >= 0.0 then [Alert("low-savings-" + stamp, LowSavingsTitle, Warning, Medium, InsightArea, false, None)]
    else if rate > 30.0 then [Alert("high-savings-" + stamp, HighSavingsTitle, Success, Low, InsightArea, false, None)]
    else []
  }

  /** `now.getTime()` in milliseconds since the epoch (UTC), and the `Date.now()` text that stamps the ids. */
  datatype Clock = Clock(nowMs: int, stamp: string)

  /** The transactions of the last 30 days. */
  function Recent(ts: seq<Transaction>, clock: Clock): seq<Transaction>
  {
    Filter(ts, OnOrAfter(WindowStart(clock.nowMs, 30)))
  }

  /** The transactions of the last 7 days. */
  function LastWeek(ts: seq<Transaction>, clock: Clock): seq<Transaction>
  {
    Filter(ts, OnOrAfter(WindowStart(clock.nowMs, 7)))
  }

  /**
   * `analyzePatterns`: surges by category, the largest expenses, a high
   * transaction frequency, one reminder per goal, the savings rate and the
   * yearly projection, in that order.
   */
  function Analysis(ts: seq<Transaction>, metas: seq<Meta>, clock: Clock): seq<Alert>
  {
    var recent := Recent(ts, clock);
    var week := LastWeek(ts, clock);
    var income, expense := IncomeTotal(recent), ExpenseTotal(recent);
    SurgeAlerts(ExpenseByCategory(week), ExpenseByCategory(recent), clock.stamp)
    + Mapped(HighExpenses(week), clock.stamp)
    + FrequencyAlerts(|week|, clock.stamp)
    + Reminders(metas, clock.stamp)
    + SavingsAlerts(SavingsRate(income, expense), clock.stamp)
    + ProjectionAlerts(income, expense, clock.stamp)
  }

  /** More than five transactions a day over the week. */
  function FrequencyAlerts(weekCount: nat, stamp: string): (r: seq<Alert>)
    ensures |r| == 1 <==> weekCount as real / 7.0 > 5.0
    ensures |r| <= 1
  {
    if weekCount as real / 7.0 > 5.0 then [Alert("high-frequency-" + stamp, FrequencyTitle, Info, Low, PatternArea, false, None)] else []
  }

  /** A year of the month's expenses exceeds a year of the month's income. */
  function ProjectionAlerts(income: real, expense: real, stamp: string): (r: seq<Alert>)
    ensures |r| == 1 <==> expense > income
    ensures |r| <= 1
  {
    if expense * 12.0 > income * 12.0 then [Alert("projection-warning-" + stamp, DeficitTitle, Error, Critical, PredictionArea, false, None)] else []
  }

  /** `highExpenses.slice(0, 3).forEach(...)`: one alert per expense, in order. */
  function Mapped(es: seq<Transaction>, stamp: string): (r: seq<Alert>)
    ensures |r| == |es|
    ensures forall i :: 0 <= i < |es| ==> r[i] == HighExpenseAlert(es[i], stamp)
  {
    seq(|es|, i requires 0 <= i < |es| => HighExpenseAlert(es[i], stamp))
  }

  /** `metas.forEach(...)`: one reminder per goal, in order. */
  function Reminders(metas: seq<Meta>, stamp: string): (r: seq<Alert>)
    ensures |r| == |metas|
    ensures forall i :: 0 <= i < |metas| ==> r[i] == GoalAlert(metas[i], stamp)
  {
    seq(|metas|, i requires 0 <= i < |metas| => GoalAlert(metas[i], stamp))
  }

  /** `analyzePatterns`, pushing each alert onto the list as it is found. */
  method AnalyzePatterns(ts: seq<Transaction>, metas: seq<Meta>, clock: Clock) returns (news: seq<Alert>)
    ensures news == Analysis(ts, metas, clock)
  {
    var recent := Filter(ts, OnOrAfter(WindowStart(clock.nowMs, 30)));
    var week := Filter(ts, OnOrAfter(WindowStart(clock.nowMs, 7)));
    news := PushSurges(ExpenseByCategory(week), ExpenseByCategory(recent), clock.stamp);
    news := PushHighExpenses(news, HighExpenses(week), clock.stamp);
    news := news + FrequencyAlerts(|week|, clock.stamp);
    news := PushReminders(news, metas, clock.stamp);
    var income, expense := IncomeTotal(recent), ExpenseTotal(recent);
    news := news + SavingsAlerts(SavingsRate(income, expense), clock.stamp);
    news := news + ProjectionAlerts(income, expense, clock.stamp);
  }

  /** `Object.entries(categoriesLast7).forEach(...)`: a surge alert per category that qualifies. */
  method PushSurges(week: seq<(string, real)>, month: seq<(string, real)>, stamp: string) returns (news: seq<Alert>)
    ensures news == SurgeAlerts(week, month, stamp)
  {
    news := [];
    var i := 0;
    while i < |week|
      invariant 0 <= i <= |week|
      invariant news == SurgeAlerts(week[..i], month, stamp)
    {
      var e := week[i];
      assert week[..i + 1][..i] == week[..i];
      if e.1 > Lookup(month, e.0) / 4.0 * 1.5 && e.1 > 500.0 {
        news := news + [SurgeAlert(e, stamp)];
      }
      i := i + 1;
    }
    assert week[..i] == week;
  }

  /** `highExpenses.slice(0, 3).forEach(...)`, appending to `news`. */
  method PushHighExpenses(news0: seq<Alert>, top: seq<Transaction>, stamp: string) returns (news: seq<Alert>)
    ensures news == news0 + Mapped(top, stamp)
  {
    news := news0;
    var i := 0;
    while i < |top|
      invariant 0 <= i <= |top|
      invariant news == news0 + Mapped(top[..i], stamp)
    {
      MappedStep(top, i, stamp);
      news := news + [HighExpenseAlert(top[i], stamp)];
      i := i + 1;
    }
    assert top[..i] == top;
  }

  /** `metas.forEach(...)`, appending to `news`. */
  method PushReminders(news0: seq<Alert>, metas: seq<Meta>, stamp: string) returns (news: seq<Alert>)
    ensures news == news0 + Reminders(metas, stamp)
  {
    news := news0;
    var i := 0;
    while i < |metas|
      invariant 0 <= i <= |metas|
      invariant news == news0 + Reminders(metas[..i], stamp)
    {
      RemindersStep(metas, i, stamp);
      news := news + [GoalAlert(metas[i], stamp)];
      i := i + 1;
    }
    assert metas[..i] == metas;
  }

  lemma MappedStep(es: seq<Transaction>, i: nat, stamp: string)
    requires i < |es|
    ensures Mapped(es[..i + 1], stamp) == Mapped(es[..i], stamp) + [HighExpenseAlert(es[i], stamp)]
  {
    assert es[..i + 1][i] == es[i];
  }

  lemma RemindersStep(metas: seq<Meta>, i: nat, stamp: string)
    requires i < |metas|
    ensures Reminders(metas[..i + 1], stamp) == Reminders(metas[..i], stamp) + [GoalAlert(metas[i], stamp)]
  {
    assert metas[..i + 1][i] == metas[i];
  }

  /**
   * At most three high-expense alerts: each for an expense of the week above
   * 1000, largest first, and no other such expense is larger than the last
   * one reported.
   */
  lemma HighExpensesSpec(week: seq<Transaction>)
    ensures |HighExpenses(week)| <= 3
    ensures SortedBy(HighExpenses(week), ByAmountDesc)
    ensures forall t :: t in HighExpenses(week) ==> t in week && IsHighExpense(t)
    ensures forall t :: t in week && IsHighExpense(t) && t !in HighExpenses(week) ==>
              |HighExpenses(week)| == 3 && forall u :: u in HighExpenses(week) ==> u.amount >= t.amount
  {
    var high := Filter(week, IsHighExpense);
    var top := HighExpenses(week);
    assert TotalPreorder(ByAmountDesc);
    TopSpec(high, 3, ByAmountDesc);
    FilterSpec(week, IsHighExpense);
    forall t | t in week && IsHighExpense(t) && t !in top
      ensures |top| == 3 && forall u :: u in top ==> u.amount >= t.amount
    {
      assert t in high;
      assert t in multiset(Sort(high, ByAmountDesc));
      var last := top[|top| - 1];
      assert last.amount >= t.amount;
      forall u | u in top ensures u.amount >= t.amount {
        var k :| 0 <= k < |top| && top[k] == u;
        assert k == |top| - 1 || ByAmountDesc(top[k], top[|top| - 1]);
      }
    }
  }

  /** Without income the rate is 0, so the low-savings alert fires; the excellent alert needs a rate above 30. */
  lemma SavingsRules(income: real, expense: real, stamp: string)
    ensures income <= 0.0 ==> SavingsAlerts(SavingsRate(income, expense), stamp)[0].title == LowSavingsTitle
    ensures var r := SavingsRate(income, expense);
            (|SavingsAlerts(r, stamp)| == 1 && SavingsAlerts(r, stamp)[0].title == LowSavingsTitle) <==> 0.0 <= r < 10.0
    ensures var r := SavingsRate(income, expense);
            (|SavingsAlerts(r, stamp)| == 1 && SavingsAlerts(r, stamp)[0].title == HighSavingsTitle) <==> r > 30.0
  {
    assert LowSavingsTitle != HighSavingsTitle;
  }

  /** The analysis yields at most one alert per category of the week, three for expenses, one per goal and three more. */
  lemma AnalysisBound(ts: seq<Transaction>, metas: seq<Meta>, clock: Clock)
    ensures |Analysis(ts, metas, clock)| <= |ExpenseByCategory(LastWeek(ts, clock))| + 3 + 1 + |metas| + 1 + 1
  {
    HighExpensesSpec(LastWeek(ts, clock));
  }

  // ---- the board ----

  function AlertId(a: Alert): string { a.id }

  function Ids(s: seq<Alert>): (ids: seq<string>)
    ensures |ids| == |s|
    ensures forall i :: 0 <= i < |s| ==> ids[i] == s[i].id
  {
    seq(|s|, i requires 0 <= i < |s| => s[i].id)
  }

  /** `a => !existingIds.has(a.id)`. */
  function IdNotIn(ids: seq<string>): Alert -> bool
  {
    (a: Alert) => a.id !in ids
  }

  /** `alert => alert.id !== alertId`. */
  function OtherAlert(id: string): Alert -> bool
  {
    (a: Alert) => a.id != id
  }

  /** Most alerts the board keeps. */
  const Keep: nat := 50

  /** `[...prev, ...uniqueNewAlerts].slice(-50)`. */
  function Merged(prev: seq<Alert>, news: seq<Alert>): seq<Alert>
  {
    TakeLast(prev + Filter(news, IdNotIn(Ids(prev))), Keep)
  }

  /** `prev.map(alert => alert.id === alertId ? { ...alert, isRead: true } : alert)`. */
  function MarkRead(s: seq<Alert>, id: string): (r: seq<Alert>)
    ensures |r| == |s|
    ensures forall i :: 0 <= i < |s| ==> r[i] == if s[i].id == id then s[i].(isRead := true) else s[i]
  {
    seq(|s|, i requires 0 <= i < |s| => if s[i].id == id then s[i].(isRead := true) else s[i])
  }

  // ---- rules ----

  datatype RuleType = BudgetRule | GoalRule | SpendingRule | PatternRule | IncomeRule
  datatype Operator = Gt | Lt | Eq | Gte | Lte | ContainsOp
  datatype Frequency = Immediate | Daily | Weekly | Monthly
  datatype Condition = Condition(field: string, operator: Operator, value: real)
  datatype Action = Action(channel: string, message: string, severity: Severity)
  datatype Rule = Rule(id: string, name: string, ruleType: RuleType, condition: Condition, action: Action,
                       isActive: bool, frequency: Frequency)

  /** The rule form: `Partial<AlertRule>`, each field possibly missing. */
  datatype Draft = Draft(name: string, ruleType: Option<RuleType>, condition: Option<Condition>,
                         action: Option<Action>, isActive: Option<bool>, frequency: Option<Frequency>)

  const DefaultCondition: Condition := Condition("amount", Gt, 1000.0)
  const DefaultAction: Action := Action("notification", "", Medium)

  /** The form as first shown and as reset after a rule is added. */
  const EmptyDraft: Draft := Draft("", Some(BudgetRule), Some(DefaultCondition), Some(DefaultAction), Some(true), Some(Immediate))

  function OrElse<T>(o: Option<T>, d: T): T { if o.Some? then o.value else d }

  /** A rule can be added when it has a name and an action message. */
  predicate Ready(d: Draft)
  {
    d.name != "" && d.action.Some? && d.action.value.message != ""
  }

  /** The rule built from the form, missing fields filled with the defaults. */
  function RuleOf(d: Draft, id: string): (r: Rule)
    requires d.action.Some?
    ensures r.id == id && r.name == d.name && r.action == d.action.value
    ensures r.ruleType == (if d.ruleType.Some? then d.ruleType.value else BudgetRule)
    ensures r.condition == (if d.condition.Some? then d.condition.value else DefaultCondition)
    ensures r.isActive == (d.isActive != Some(false))
    ensures r.frequency == (if d.frequency.Some? then d.frequency.value else Immediate)
  {
    Rule(id, d.name, OrElse(d.ruleType, BudgetRule), OrElse(d.condition, DefaultCondition),
         d.action.value, OrElse(d.isActive, true), OrElse(d.frequency, Immediate))
  }

  class Board {
    var alerts: seq<Alert>
    var rules: seq<Rule>
    var draft: Draft

    /** At most 50 alerts. */
    predicate Valid()
      reads this
    {
      |alerts| <= Keep
    }

    constructor()
      ensures alerts == [] && rules == [] && draft == EmptyDraft && Valid()
    {
      alerts, rules, draft := [], [], EmptyDraft;
    }

    /** `runAnalysis`: the unseen alerts appended, the last 50 kept. */
    method RunAnalysis(news: seq<Alert>)
      modifies this
      ensures alerts == Merged(old(alerts), news) && Valid()
      ensures rules == old(rules) && draft == old(draft)
    {
      alerts := TakeLast(alerts + Filter(news, IdNotIn(Ids(alerts))), Keep);
    }

    method MarkAsRead(id: string)
      requires Valid()
      modifies this
      ensures alerts == MarkRead(old(alerts), id) && Valid()
      ensures UnreadCount() <= old(UnreadCount()) && CriticalCount() == old(CriticalCount())
      ensures rules == old(rules) && draft == old(draft)
    {
      MarkReadCounts(alerts, id);
      alerts := MarkRead(alerts, id);
    }

    method RemoveAlert(id: string)
      requires Valid()
      modifies this
      ensures alerts == Filter(old(alerts), OtherAlert(id)) && Valid()
      ensures UnreadCount() <= old(UnreadCount()) && CriticalCount() <= old(CriticalCount())
      ensures rules == old(rules) && draft == old(draft)
    {
      RemoveCounts(alerts, id);
      alerts := Filter(alerts, OtherAlert(id));
    }

    /** `addRule`: with a name and a message, append the rule and reset the form; otherwise nothing changes. */
    method AddRule(id: string)
      modifies this
      ensures Ready(old(draft)) ==> rules == old(rules) + [RuleOf(old(draft), id)] && draft == EmptyDraft
      ensures !Ready(old(draft)) ==> rules == old(rules) && draft == old(draft)
      ensures alerts == old(alerts)
    {
      if draft.name != "" && draft.action.Some? && draft.action.value.message != "" {
        rules := rules + [RuleOf(draft, id)];
        draft := EmptyDraft;
      }
    }

    /** `unreadAlerts.length`. */
    function UnreadCount(): nat
      reads this
    {
      Count(alerts, IsUnread)
    }

    /** `criticalAlerts.length`: read or not. */
    function CriticalCount(): nat
      reads this
    {
      Count(alerts, IsCritical)
    }
  }

  /** `!a.isRead`. */
  predicate IsUnread(a: Alert) { !a.isRead }

  /** `a.severity === 'critical'`. */
  predicate IsCritical(a: Alert) { a.severity == Critical }

  /**
   * Marking an alert read never raises the unread count, lowers it when an
   * unread alert has that id, and leaves the critical count as it is: the
   * critical count includes read alerts.
   */
  lemma {:induction false} MarkReadCounts(s: seq<Alert>, id: string)
    ensures Count(MarkRead(s, id), IsUnread) <= Count(s, IsUnread)
    ensures (exists a :: a in s && a.id == id && !a.isRead) ==> Count(MarkRead(s, id), IsUnread) < Count(s, IsUnread)
    ensures Count(MarkRead(s, id), IsCritical) == Count(s, IsCritical)
    decreases |s|
  {
    if s != [] {
      var init, x := s[..|s| - 1], s[|s| - 1];
      MarkReadCounts(init, id);
      var r := MarkRead(s, id);
      var y := r[|r| - 1];
      assert r[..|r| - 1] == MarkRead(init, id);
      assert IsCritical(y) == IsCritical(x) && (IsUnread(y) ==> IsUnread(x));
      assert Count(r, IsUnread) == Count(MarkRead(init, id), IsUnread) + (if IsUnread(y) then 1 else 0);
      assert Count(s, IsUnread) == Count(init, IsUnread) + (if IsUnread(x) then 1 else 0);
      if exists a :: a in s && a.id == id && !a.isRead {
        var a :| a in s && a.id == id && !a.isRead;
        if a != x {
          assert a in init;
        }
      }
    }
  }

  /** Removing alerts never raises either count. */
  lemma {:induction false} RemoveCounts(s: seq<Alert>, id: string)
    ensures Count(Filter(s, OtherAlert(id)), IsUnread) <= Count(s, IsUnread)
    ensures Count(Filter(s, OtherAlert(id)), IsCritical) <= Count(s, IsCritical)
    decreases |s|
  {
    if s != [] {
      RemoveCounts(s[..|s| - 1], id);
      var x := s[|s| - 1];
      var f := Filter(s, OtherAlert(id));
      if OtherAlert(id)(x) {
        assert f[..|f| - 1] == Filter(s[..|s| - 1], OtherAlert(id));
      }
    }
  }


  /**
   * A merge keeps at most 50 alerts; each is an old alert or a new one whose
   * id was not on the board; when everything fits, the old alerts come first
   * and the unseen ones follow in order.
   */
  lemma MergedSpec(prev: seq<Alert>, news: seq<Alert>)
    ensures |Merged(prev, news)| <= Keep
    ensures forall a :: a in Merged(prev, news) ==> a in prev || (a in news && a.id !in Ids(prev))
    ensures |prev| + |Filter(news, IdNotIn(Ids(prev)))| <= Keep ==>
              Merged(prev, news) == prev + Filter(news, IdNotIn(Ids(prev)))
  {
    var unseen := Filter(news, IdNotIn(Ids(prev)));
    FilterSpec(news, IdNotIn(Ids(prev)));
    var all := prev + unseen;
    forall a | a in Merged(prev, news) ensures a in prev || (a in news && a.id !in Ids(prev)) {
      var i :| 0 <= i < |Merged(prev, news)| && Merged(prev, news)[i] == a;
      assert a == all[|all| - |Merged(prev, news)| + i];
      assert a in all;
    }
  }

  /** Marking touches only the alerts with that id; removal drops exactly them, keeping the order of the rest. */
  lemma MarkAndRemove(s: seq<Alert>, id: string)
    ensures forall i :: 0 <= i < |s| && s[i].id != id ==> MarkRead(s, id)[i] == s[i]
    ensures forall i :: 0 <= i < |s| && s[i].id == id ==> MarkRead(s, id)[i].isRead
    ensures Subseq(Filter(s, OtherAlert(id)), s)
    ensures forall a :: a in Filter(s, OtherAlert(id)) <==> a in s && a.id != id
  {
    FilterSpec(s, OtherAlert(id));
  }

  /** The form is reset to the defaults after a rule is added, and the defaults fill what the form leaves out. */
  lemma RuleDefaults(d: Draft, id: string)
    requires d.action.Some? && d.ruleType.None? && d.condition.None? && d.isActive.None? && d.frequency.None?
    ensures RuleOf(d, id).ruleType == BudgetRule
    ensures RuleOf(d, id).condition == Condition("amount", Gt, 1000.0)
    ensures RuleOf(d, id).isActive && RuleOf(d, id).frequency == Immediate
  {
  }
}
