/**
 * The upcoming-payments dashboard: a period picked by key (this week, next
 * week, this month, next month, the next 90 days or a custom number of
 * days), the expenses dated inside it in date order, their total, their
 * grouping by category and by day, and the urgency of a payment date. The
 * current day and instant are parameters; dates are whole days.
 */
module UpcomingPayments {
  import opened Seqs
  import opened Strs
  import opened Ledger
  import opened Calendar
  import DateUtils

  /** A period: its name and its first and last day (both included). */
  datatype Period = Period(name: string, start: Day, end: Day)

  /** The `periods` table, looked up by key; an unknown key has no period. */
  function PeriodOf(key: string, today: Day, customDays: int): Option<Period>
  {
    if key == "thisWeek" then
      Some(Period("Esta Semana", WeekStart(today), AddDays(WeekStart(today), 6)))
    else if key == "nextWeek" then Some(Period("Próxima Semana", AddDays(today, 7), AddDays(today, 14)))
    else if key == "thisMonth" then
      Some(Period("Este Mês", MakeDate(today.year, today.month - 1, 1), MakeDate(today.year, today.month, 0)))
    else if key == "nextMonth" then
      Some(Period("Próximo Mês", MakeDate(today.year, today.month, 1), MakeDate(today.year, today.month + 1, 0)))
    else if key == "next90Days" then Some(Period("Próximos 90 Dias", today, AddDays(today, 90)))
    else if key == "custom" then Some(Period("Próximos " + IntStr(customDays) + " Dias", today, AddDays(today, customDays)))
    else None
  }

  /** `today.getDate() - today.getDay()`: the Sunday on or before today. */
  function WeekStart(today: Day): Day
  {
    AddDays(today, -(Weekday(today) as int))
  }

  /** The week's first day is a Sunday at most six days back, its last a Saturday six days later. */
  lemma WeekStartSpec(today: Day)
    ensures Weekday(WeekStart(today)) == 0
    ensures Weekday(AddDays(WeekStart(today), 6)) == 6
    ensures DayNumber(WeekStart(today)) == DayNumber(today) - Weekday(today)
    ensures DayNumber(AddDays(WeekStart(today), 6)) == DayNumber(WeekStart(today)) + 6
  {
    var w, start := Weekday(today), WeekStart(today);
    BackToSunday(today, w);
    WeekEnd(start);
  }

  lemma BackToSunday(d: Day, w: int)
    requires w == Weekday(d)
    ensures DayNumber(AddDays(d, -w)) == DayNumber(d) - w
    ensures Weekday(AddDays(d, -w)) == 0
  {
    var back := AddDays(d, -w);
    DayNumberAdd(d, -w);
    WeekdayAdd(d, -w);
    var x := Weekday(back);
    assert x == (w + -w) % 7;
  }

  lemma WeekEnd(start: Day)
    ensures DayNumber(AddDays(start, 6)) == DayNumber(start) + 6
    ensures Weekday(AddDays(start, 6)) == (Weekday(start) + 6) % 7
  {
    DayNumberAdd(start, 6);
    WeekdayAdd(start, 6);
  }

  /** This week runs from the Sunday on or before today to the Saturday six days later. */
  lemma ThisWeekSpec(today: Day, customDays: int)
    ensures PeriodOf("thisWeek", today, customDays).Some?
    ensures var p := PeriodOf("thisWeek", today, customDays).value;
            Weekday(p.start) == 0 && Weekday(p.end) == 6 &&
            DayNumber(p.end) == DayNumber(p.start) + 6 &&
            DayNumber(p.start) <= DayNumber(today) <= DayNumber(p.end)
  {
    var start := WeekStart(today);
    assert PeriodOf("thisWeek", today, customDays) == Some(Period("Esta Semana", start, AddDays(start, 6)));
    WeekStartSpec(today);
  }

  /** This month runs from its 1st to its last day; next month likewise for the month after. */
  lemma MonthPeriodsSpec(today: Day, customDays: int)
    ensures PeriodOf("thisMonth", today, customDays) ==
            Some(Period("Este Mês", Date(today.year, today.month, 1), Date(today.year, today.month, DaysInMonth(today.year, today.month))))
    ensures var ny := if today.month == 12 then today.year + 1 else today.year;
            var nm := if today.month == 12 then 1 else today.month + 1;
            PeriodOf("nextMonth", today, customDays) ==
            Some(Period("Próximo Mês", Date(ny, nm, 1), Date(ny, nm, DaysInMonth(ny, nm))))
  {
    var ny := if today.month == 12 then today.year + 1 else today.year;
    var nm := if today.month == 12 then 1 else today.month + 1;
    MakeDateFirst(today.year, today.month - 1);
    MakeDateLastDay(today.year, today.month - 1);
    assert NormYear(today.year, today.month - 1) == today.year && NormMonth(today.month - 1) == today.month;
    MakeDateFirst(today.year, today.month);
    MakeDateLastDay(today.year, today.month);
    assert NormYear(today.year, today.month) == ny && NormMonth(today.month) == nm;
  }

  /** Only the six keys of the table name a period. */
  lemma UnknownPeriod(key: string, today: Day, customDays: int)
    ensures PeriodOf(key, today, customDays).None? <==>
            key !in {"thisWeek", "nextWeek", "thisMonth", "nextMonth", "next90Days", "custom"}
  {
  }

  /** The filter: an expense whose day lies between the period's first and last day. */
  predicate Due(p: Period, t: Transaction)
  {
    t.kind == Expense && Le(p.start, t.date) && Le(t.date, p.end)
  }

  /** The comparator `new Date(a.date) - new Date(b.date)`: earlier first. */
  predicate Earlier(a: Transaction, b: Transaction)
  {
    DayNumber(a.date) <= DayNumber(b.date)
  }

  function Payments(ts: seq<Transaction>, p: Period): seq<Transaction>
  {
    Sort(Filter(ts, t => Due(p, t)), Earlier)
  }

  /** The payments are exactly the due expenses, each as often as in the list, in ascending date order. */
  lemma PaymentsSpec(ts: seq<Transaction>, p: Period)
    ensures multiset(Payments(ts, p)) == multiset(Filter(ts, t => Due(p, t)))
    ensures forall t :: t in Payments(ts, p) <==> t in ts && Due(p, t)
    ensures forall i, j :: 0 <= i < j < |Payments(ts, p)| ==> DayNumber(Payments(ts, p)[i].date) <= DayNumber(Payments(ts, p)[j].date)
  {
    var due := Filter(ts, t => Due(p, t));
    FilterSpec(ts, t => Due(p, t));
    assert TotalPreorder(Earlier);
    SortSorted(due, Earlier);
    SameMembers(Payments(ts, p), due);
  }

  /** One group of the dictionaries: its total, its count and its payments in order. */
  datatype Bucket = Bucket(total: real, count: nat, payments: seq<Transaction>)

  function BucketOf(members: seq<Transaction>): Bucket
  {
    Bucket(Sum(members, Amount), |members|, members)
  }

  /** The groups as the dictionary holds them. */
  function Buckets(gs: seq<(string, seq<Transaction>)>): (bs: seq<(string, Bucket)>)
    ensures |bs| == |gs|
    ensures forall i :: 0 <= i < |gs| ==> bs[i] == (gs[i].0, BucketOf(gs[i].1))
  {
    seq(|gs|, i requires 0 <= i < |gs| => (gs[i].0, BucketOf(gs[i].1)))
  }

  /** `formatDateLocal(new Date(payment.date))`. */
  function DayKey(t: Transaction): string
  {
    DateUtils.FormatDateLocal(t.date)
  }

  /** The dashboard's data for one period. */
  datatype PeriodData = PeriodData(
    payments: seq<Transaction>,
    total: real,
    byCategory: seq<(string, Bucket)>,
    byDay: seq<(string, Bucket)>)

  function Data(ts: seq<Transaction>, key: string, today: Day, customDays: int): PeriodData
  {
    match PeriodOf(key, today, customDays)
    case None => PeriodData([], 0.0, [], [])
    case Some(p) =>
      var payments := Payments(ts, p);
      PeriodData(payments, Sum(payments, Amount),
                 Buckets(Groups(payments, CategoryKey)), Buckets(Groups(payments, DayKey)))
  }

  /** Sum of the group totals, and of the group counts. */
  function BucketTotal(bs: seq<(string, Bucket)>): real
    decreases |bs|
  {
    if bs == [] then 0.0 else BucketTotal(bs[..|bs| - 1]) + bs[|bs| - 1].1.total
  }

  function BucketCount(bs: seq<(string, Bucket)>): nat
    decreases |bs|
  {
    if bs == [] then 0 else BucketCount(bs[..|bs| - 1]) + bs[|bs| - 1].1.count
  }

  lemma {:induction false} BucketSums(gs: seq<(string, seq<Transaction>)>)
    ensures BucketTotal(Buckets(gs)) == GroupSum(gs, Amount)
    ensures BucketCount(Buckets(gs)) == SizeSum(gs)
    decreases |gs|
  {
    if gs != [] {
      var init := gs[..|gs| - 1];
      BucketSums(init);
      assert Buckets(gs)[..|gs| - 1] == Buckets(init);
    }
  }

  /**
   * Each grouping partitions the payments: every payment sits in the group
   * of its key (a missing category counts as "Sem categoria"), no key has two
   * groups, every group's count and total are those of its payments, and
   * the counts add up to the number of payments and the totals to `total`.
   */
  lemma GroupingSpec(ts: seq<Transaction>, p: Period, key: Transaction -> string)
    ensures var payments := Payments(ts, p);
            var bs := Buckets(Groups(payments, key));
            Distinct(Keys(payments, key)) &&
            (forall i :: 0 <= i < |payments| ==> payments[i] in Members(payments, key, key(payments[i]))) &&
            (forall i :: 0 <= i < |bs| ==> bs[i].1.count == |bs[i].1.payments| &&
                                            bs[i].1.total == Sum(bs[i].1.payments, Amount) &&
                                            forall t :: t in bs[i].1.payments ==> key(t) == bs[i].0) &&
            BucketCount(bs) == |payments| && BucketTotal(bs) == Sum(payments, Amount)
  {
    var payments := Payments(ts, p);
    GroupsPartition(payments, key);
    GroupsTotals(payments, key, Amount);
    BucketSums(Groups(payments, key));
  }

  /** An unknown period shows nothing: no payments, total 0, no groups. */
  lemma UnknownPeriodEmpty(ts: seq<Transaction>, key: string, today: Day, customDays: int)
    requires PeriodOf(key, today, customDays).None?
    ensures Data(ts, key, today, customDays) == PeriodData([], 0.0, [], [])
  {
  }

  /** Two payments share a day group exactly when they fall on the same day. */
  lemma DayKeySame(a: Transaction, b: Transaction)
    requires a.date.year >= 0 && b.date.year >= 0
    ensures DayKey(a) == DayKey(b) <==> a.date == b.date
  {
    DateUtils.FormatRoundTrip(a.date);
    DateUtils.FormatRoundTrip(b.date);
  }

  /** The dictionary update of one `forEach` step. */
  function AddPayment(bs: seq<(string, Bucket)>, k: string, t: Transaction): seq<(string, Bucket)>
  {
    var j := Find(bs, k);
    if j < |bs| then bs[j := (k, Bucket(bs[j].1.total + t.amount, bs[j].1.count + 1, bs[j].1.payments + [t]))]
    else bs + [(k, Bucket(0.0 + t.amount, 0 + 1, [] + [t]))]
  }

  /** One more payment adds its amount to the total and one to the count. */
  lemma BucketSnoc(m: seq<Transaction>, t: Transaction)
    ensures BucketOf(m + [t]) == Bucket(BucketOf(m).total + t.amount, BucketOf(m).count + 1, m + [t])
  {
    assert (m + [t])[..|m|] == m;
  }

  lemma BucketsAddTo(gs: seq<(string, seq<Transaction>)>, k: string, t: Transaction)
    ensures Buckets(AddTo(gs, k, t)) == AddPayment(Buckets(gs), k, t)
  {
    var bs := Buckets(gs);
    var j, j' := Find(gs, k), Find(bs, k);
    assert j == j';
    if j < |gs| {
      BucketsUpdate(gs, j, k, t);
    } else {
      BucketsAppend(gs, k, t);
    }
  }

  lemma BucketsUpdate(gs: seq<(string, seq<Transaction>)>, j: nat, k: string, t: Transaction)
    requires j < |gs|
    ensures var bs := Buckets(gs);
            Buckets(gs[j := (k, gs[j].1 + [t])]) == bs[j := (k, Bucket(bs[j].1.total + t.amount, bs[j].1.count + 1, bs[j].1.payments + [t]))]
  {
    BucketSnoc(gs[j].1, t);
    var lhs := Buckets(gs[j := (k, gs[j].1 + [t])]);
    assert lhs[j] == (k, BucketOf(gs[j].1 + [t]));
  }

  lemma BucketsAppend(gs: seq<(string, seq<Transaction>)>, k: string, t: Transaction)
    ensures Buckets(gs + [(k, [t])]) == Buckets(gs) + [(k, Bucket(0.0 + t.amount, 0 + 1, [] + [t]))]
  {
    BucketSnoc([], t);
    assert [] + [t] == [t];
  }

  /** The dictionary after the payments of `s`, one `forEach` step at a time. */
  function Accumulated(s: seq<Transaction>, key: Transaction -> string): seq<(string, Bucket)>
    decreases |s|
  {
    if s == [] then [] else AddPayment(Accumulated(s[..|s| - 1], key), key(s[|s| - 1]), s[|s| - 1])
  }

  /** Step by step, the dictionary holds each key's group with its total and count. */
  lemma {:induction false} AccumulatedGroups(s: seq<Transaction>, key: Transaction -> string)
    ensures Accumulated(s, key) == Buckets(Groups(s, key))
    decreases |s|
  {
    if s != [] {
      var pre, t := s[..|s| - 1], s[|s| - 1];
      assert pre + [t] == s;
      calc {
        Accumulated(s, key);
        AddPayment(Accumulated(pre, key), key(t), t);
        { AccumulatedGroups(pre, key); }
        AddPayment(Buckets(Groups(pre, key)), key(t), t);
        { GroupStep(pre, t, key); }
        Buckets(Groups(s, key));
      }
    }
  }

  /** A `forEach` filling one dictionary, keyed by `key`. */
  method GroupPayments(payments: seq<Transaction>, key: Transaction -> string) returns (groups: seq<(string, Bucket)>)
    ensures groups == Buckets(Groups(payments, key))
  {
    groups := [];
    for i := 0 to |payments|
      invariant groups == Accumulated(payments[..i], key)
    {
      var payment := payments[i];
      assert payments[..i + 1][..i] == payments[..i];
      groups := AddToBucket(groups, key(payment), payment);
    }
    assert payments[..|payments|] == payments;
    AccumulatedGroups(payments, key);
  }

  /** One more payment updates the dictionary of the payments before it. */
  lemma GroupStep(pre: seq<Transaction>, t: Transaction, key: Transaction -> string)
    ensures Buckets(Groups(pre + [t], key)) == AddPayment(Buckets(Groups(pre, key)), key(t), t)
  {
    var gs := Groups(pre, key);
    GroupsSnoc(pre, t, key);
    BucketsAddTo(gs, key(t), t);
  }

  /** `if (!acc[k]) acc[k] = {total: 0, count: 0, payments: []}` and the three updates. */
  method AddToBucket(groups: seq<(string, Bucket)>, k: string, payment: Transaction) returns (r: seq<(string, Bucket)>)
    ensures r == AddPayment(groups, k, payment)
  {
    var j := Find(groups, k);
    if j < |groups| {
      var b := groups[j].1;
      r := groups[j := (k, Bucket(b.total + payment.amount, b.count + 1, b.payments + [payment]))];
    } else {
      r := groups + [(k, Bucket(0.0 + payment.amount, 0 + 1, [] + [payment]))];
    }
  }

  /** `periodData`: look the period up, filter and sort, total, and group twice. */
  method ComputePeriodData(ts: seq<Transaction>, key: string, today: Day, customDays: int) returns (data: PeriodData)
    ensures data == Data(ts, key, today, customDays)
  {
    var period := PeriodOf(key, today, customDays);
    if period.None? {
      return PeriodData([], 0.0, [], []);
    }
    var payments := Payments(ts, period.value);
    var total := Sum(payments, Amount);
    var byCategory := GroupPayments(payments, CategoryKey);
    var byDay := GroupPayments(payments, DayKey);
    data := PeriodData(payments, total, byCategory, byDay);
  }

  /** How soon a payment is due. */
  datatype Urgency = Overdue | Urgent | Soon | Normal

  /** `Math.ceil(diffTime / msPerDay)` for a whole number of milliseconds. */
  function CeilDays(diff: int): int
  {
    -((-diff) / MsPerDay)
  }

  /** `getPaymentUrgency`, from the payment's instant and the current one (milliseconds). */
  function UrgencyOf(paymentMs: int, nowMs: int): Urgency
  {
    var diffDays := CeilDays(paymentMs - nowMs);
    if diffDays <= 0 then Overdue
    else if diffDays <= 3 then Urgent
    else if diffDays <= 7 then Soon
    else Normal
  }

  /**
   * Overdue exactly when the payment instant is not after now; urgent when
   * it is at most three days ahead; soon when three to seven; normal beyond.
   */
  lemma UrgencySpec(paymentMs: int, nowMs: int)
    ensures UrgencyOf(paymentMs, nowMs) == Overdue <==> paymentMs <= nowMs
    ensures UrgencyOf(paymentMs, nowMs) == Urgent <==> nowMs < paymentMs <= nowMs + 3 * MsPerDay
    ensures UrgencyOf(paymentMs, nowMs) == Soon <==> nowMs + 3 * MsPerDay < paymentMs <= nowMs + 7 * MsPerDay
    ensures UrgencyOf(paymentMs, nowMs) == Normal <==> paymentMs > nowMs + 7 * MsPerDay
  {
    var d := paymentMs - nowMs;
    CeilBound(d, 0);
    CeilBound(d, 3);
    CeilBound(d, 7);
  }

  lemma CeilBound(d: int, k: int)
    requires k == 0 || k == 3 || k == 7
    ensures CeilDays(d) <= k <==> d <= k * MsPerDay
  {
    var q := (-d) / MsPerDay;
    assert -d == MsPerDay * q + (-d) % MsPerDay;
  }
}
