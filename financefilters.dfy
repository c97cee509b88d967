/**
 * The filter bar of the finance charts: a type, a category and two date
 * bounds, applied together; a reset that shows everything again; the
 * category options; and the default bounds, the first and last day of the
 * current month. "Now" is a parameter and the time zone is taken to be UTC.
 * A transaction's date reaches the bar as the timestamp text of the
 * transactions API, "YYYY-MM-DDT00:00:00.000Z", while the bounds are
 * "YYYY-MM-DD": compared as strings, the timestamp of the end day is
 * larger than the end bound, so the end day itself is never kept.
 */
module FinanceFilters {
  import opened Seqs
  import opened Ledger
  import opened Calendar
  import Strs

  /** The filter state: `type`, `category` (`None` while undefined) and the two date texts. */
  datatype Criteria = Criteria(kind: KindFilter, category: Option<string>, dateFrom: string, dateTo: string)

  /** The four tests of `handleFilter`, with the transaction date as its timestamp text; dates compare as strings. */
  predicate Matches(c: Criteria, t: Transaction)
  {
    var matchType := Allows(c.kind, t.kind);
    var matchCategory := c.category.None? || c.category.value == "" || t.category == c.category.value;
    var matchDateFrom := c.dateFrom == "" || Strs.StrLe(c.dateFrom, Timestamp(t.date));
    var matchDateTo := c.dateTo == "" || Strs.StrLe(Timestamp(t.date), c.dateTo);
    matchType && matchCategory && matchDateFrom && matchDateTo
  }

  /** The same tests on the day part of the date (`t.date.slice(0, 10)`), which takes both bounds as included. */
  predicate MatchesDay(c: Criteria, t: Transaction)
  {
    var matchType := Allows(c.kind, t.kind);
    var matchCategory := c.category.None? || c.category.value == "" || t.category == c.category.value;
    var matchDateFrom := c.dateFrom == "" || Strs.StrLe(c.dateFrom, Iso(t.date));
    var matchDateTo := c.dateTo == "" || Strs.StrLe(Iso(t.date), c.dateTo);
    matchType && matchCategory && matchDateFrom && matchDateTo
  }

  function Matching(c: Criteria): Transaction -> bool
  {
    (t: Transaction) => Matches(c, t)
  }

  /** `handleFilter`: the list passed to `onFilter` and the type passed to `onTypeChange`. */
  function HandleFilter(ts: seq<Transaction>, c: Criteria): (seq<Transaction>, KindFilter)
  {
    (Filter(ts, Matching(c)), c.kind)
  }

  /** The filtered list keeps, in order, exactly the transactions that pass all four tests. */
  lemma HandleFilterSpec(ts: seq<Transaction>, c: Criteria)
    ensures Subseq(HandleFilter(ts, c).0, ts)
    ensures forall t :: t in HandleFilter(ts, c).0 <==>
              t in ts && Allows(c.kind, t.kind) &&
              (c.category.None? || c.category.value == "" || t.category == c.category.value) &&
              (c.dateFrom == "" || Strs.StrLe(c.dateFrom, Timestamp(t.date))) &&
              (c.dateTo == "" || Strs.StrLe(Timestamp(t.date), c.dateTo))
    ensures HandleFilter(ts, c).1 == c.kind
  {
    FilterSpec(ts, Matching(c));
  }

  /** Type "all", no category and empty date fields let every transaction through. */
  lemma OpenCriteria(ts: seq<Transaction>, category: Option<string>)
    requires category.None? || category.value == ""
    ensures HandleFilter(ts, Criteria(AllKinds, category, "", "")).0 == ts
  {
    FilterAll(ts, Matching(Criteria(AllKinds, category, "", "")));
  }

  /**
   * With both bounds typed as ISO dates (four-digit years), the string
   * tests keep exactly the dates from the first bound up to the day
   * before the second: the end day is left out.
   */
  lemma DateBoundsSpec(c: Criteria, from: Day, to: Day, t: Transaction)
    requires c.dateFrom == Iso(from) && c.dateTo == Iso(to)
    requires 0 <= from.year <= 9999 && 0 <= to.year <= 9999 && 0 <= t.date.year <= 9999
    ensures Matches(c, t) <==>
              Allows(c.kind, t.kind) && (c.category.None? || c.category.value == "" || t.category == c.category.value) &&
              Le(from, t.date) && Lt(t.date, to)
  {
    TimestampOrder(from, t.date);
    TimestampOrder(t.date, to);
  }

  /** On the day part the same bounds keep exactly the dates from the first bound to the second, both included. */
  lemma DayBoundsSpec(c: Criteria, from: Day, to: Day, t: Transaction)
    requires c.dateFrom == Iso(from) && c.dateTo == Iso(to)
    requires 0 <= from.year <= 9999 && 0 <= to.year <= 9999 && 0 <= t.date.year <= 9999
    ensures MatchesDay(c, t) <==>
              Allows(c.kind, t.kind) && (c.category.None? || c.category.value == "" || t.category == c.category.value) &&
              Le(from, t.date) && Le(t.date, to)
  {
    IsoOrder(from, t.date);
    IsoOrder(t.date, to);
  }

  /** `.replace(/-\d{2}$/, '-01')`. */
  function FirstOfMonthText(s: string): (r: string)
  {
    if |s| >= 3 && s[|s| - 3] == '-' && Strs.IsDigit(s[|s| - 2]) && Strs.IsDigit(s[|s| - 1]) then s[..|s| - 3] + "-01"
    else s
  }

  /** `getFirstDayOfMonth`: today's ISO date with the day replaced by 01. */
  function FirstDayOfMonth(now: Day): string
  {
    FirstOfMonthText(Take(Iso(now), 10))
  }

  /** `getLastDayOfMonth`: `new Date(year, month + 1, 0)` as an ISO date. */
  function LastDayOfMonth(now: Day): string
  {
    Take(Iso(MakeDate(now.year, now.month, 0)), 10)
  }

  /** The default bounds are the first and the last day of the current month. */
  lemma MonthBoundsSpec(now: Day)
    requires 0 <= now.year <= 9999
    ensures FirstDayOfMonth(now) == Iso(Date(now.year, now.month, 1))
    ensures LastDayOfMonth(now) == Iso(Date(now.year, now.month, DaysInMonth(now.year, now.month)))
  {
    FirstDaySpec(now);
    LastDaySpec(now);
  }

  lemma FirstDaySpec(now: Day)
    requires 0 <= now.year <= 9999
    ensures FirstDayOfMonth(now) == Iso(Date(now.year, now.month, 1))
  {
    var first := Date(now.year, now.month, 1);
    var s := Iso(now);
    assert Take(s, 10) == s;
    assert s[..7] == MonthKey(now) == MonthKey(first);
    assert s[..|s| - 3] == MonthKey(now);
    assert Strs.Pad2(1) == "01";
  }

  lemma LastDaySpec(now: Day)
    requires 0 <= now.year <= 9999
    ensures LastDayOfMonth(now) == Iso(Date(now.year, now.month, DaysInMonth(now.year, now.month)))
  {
    var last := Date(now.year, now.month, DaysInMonth(now.year, now.month));
    MakeDateLastDay(now.year, now.month - 1);
    assert NormYear(now.year, now.month - 1) == now.year && NormMonth(now.month - 1) == now.month;
    assert MakeDate(now.year, now.month, 0) == last;
    assert Take(Iso(last), 10) == Iso(last);
  }

  /** The filter state the bar starts with. */
  function Initial(now: Day): Criteria
  {
    Criteria(AllKinds, None, FirstDayOfMonth(now), LastDayOfMonth(now))
  }

  /** The starting bounds keep exactly the transactions of the current month but its last day. */
  lemma InitialSpec(now: Day, t: Transaction)
    requires 0 <= now.year <= 9999 && 0 <= t.date.year <= 9999
    ensures Matches(Initial(now), t) <==>
              t.date.year == now.year && t.date.month == now.month && t.date.day < DaysInMonth(now.year, now.month)
  {
    MonthBoundsSpec(now);
    DateBoundsSpec(Initial(now), Date(now.year, now.month, 1), Date(now.year, now.month, DaysInMonth(now.year, now.month)), t);
  }

  /** A transaction dated on the last day of the current month fails the starting bounds. */
  lemma LastDayDropped(now: Day, t: Transaction)
    requires 0 <= now.year <= 9999
    requires t.date == Date(now.year, now.month, DaysInMonth(now.year, now.month))
    ensures !Matches(Initial(now), t)
  {
    InitialSpec(now, t);
  }

  /** On the day part the starting bounds keep exactly the transactions of the current month. */
  lemma InitialDaySpec(now: Day, t: Transaction)
    requires 0 <= now.year <= 9999 && 0 <= t.date.year <= 9999
    ensures MatchesDay(Initial(now), t) <==> t.date.year == now.year && t.date.month == now.month
  {
    MonthBoundsSpec(now);
    DayBoundsSpec(Initial(now), Date(now.year, now.month, 1), Date(now.year, now.month, DaysInMonth(now.year, now.month)), t);
  }

  /**
   * `handleReset`: the state returns to type "all", no category and the
   * current month, while `onFilter` gets every transaction and
   * `onTypeChange` gets "all".
   */
  function HandleReset(ts: seq<Transaction>, now: Day): (Criteria, seq<Transaction>, KindFilter)
  {
    (Criteria(AllKinds, None, FirstDayOfMonth(now), LastDayOfMonth(now)), ts, AllKinds)
  }

  /** After a reset the chart shows every transaction, and the state is the starting one again. */
  lemma HandleResetSpec(ts: seq<Transaction>, now: Day)
    ensures HandleReset(ts, now).0 == Initial(now)
    ensures HandleReset(ts, now).1 == ts && HandleReset(ts, now).2 == AllKinds
    ensures HandleReset(ts, now).1 == HandleFilter(ts, Criteria(AllKinds, None, "", "")).0
  {
    OpenCriteria(ts, None);
  }

  /** `Array.from(new Set(transactions.map(t => t.category)))`. */
  function Categories(ts: seq<Transaction>): seq<string>
  {
    Keys(ts, Category)
  }

  /** Each category once, every category present, in order of first appearance. */
  lemma CategoriesSpec(ts: seq<Transaction>, n: nat)
    requires n <= |ts|
    ensures Distinct(Categories(ts))
    ensures forall t :: t in ts ==> t.category in Categories(ts)
    ensures forall c :: c in Categories(ts) ==> exists t :: t in ts && t.category == c
    ensures Categories(ts[..n]) <= Categories(ts)
  {
    forall t | t in ts ensures t.category in Categories(ts) {
      var i :| 0 <= i < |ts| && ts[i] == t;
    }
    forall c | c in Categories(ts) ensures exists t :: t in ts && t.category == c {
      var i :| 0 <= i < |ts| && Category(ts[i]) == c;
      assert ts[i] in ts;
    }
    KeysPrefix(ts, Category, n);
  }
}
