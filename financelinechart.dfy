/**
 * The line chart of income, expense and balance per month: the
 * transactions of the chosen type, bucketed by the `YYYY-MM` prefix of
 * their date, one point per month in ascending key order.
 */
module FinanceLineChart {
  import opened Seqs
  import opened Ledger
  import opened Calendar
  import Strs

  /** `filtered`: everything for 'all', else the transactions of that type. */
  function Filtered(ts: seq<Transaction>, f: KindFilter): seq<Transaction>
  {
    if f.AllKinds? then ts else Filter(ts, Passes(f))
  }

  /** Both branches are the type filter: the transactions the filter allows, in order. */
  lemma FilteredSpec(ts: seq<Transaction>, f: KindFilter)
    ensures Filtered(ts, f) == Filter(ts, Passes(f))
    ensures Subseq(Filtered(ts, f), ts)
    ensures forall t :: t in Filtered(ts, f) <==> t in ts && Allows(f, t.kind)
  {
    if f.AllKinds? {
      FilterAll(ts, Passes(f));
    }
    FilterSpec(ts, Passes(f));
  }

  /** `date.slice(0, 7)`. */
  function MonthOf(t: Transaction): string
  {
    MonthKey(t.date)
  }

  /** `dataMap`: income and expense per month key, in order of first appearance. */
  function DataMap(filtered: seq<Transaction>): seq<(string, (real, real))>
  {
    Entries2(filtered, MonthOf, IncomePart, ExpensePart)
  }

  /** The `forEach` filling `dataMap`. */
  method BuildDataMap(filtered: seq<Transaction>) returns (dataMap: seq<(string, (real, real))>)
    ensures dataMap == DataMap(filtered)
  {
    dataMap := [];
    for i := 0 to |filtered|
      invariant dataMap == DataMap(filtered[..i])
    {
      var t := filtered[i];
      var month := MonthOf(t);
      DataMapStep(filtered, i);
      if t.kind == Income {
        dataMap := Bump2(dataMap, month, t.amount, 0.0);
      } else {
        dataMap := Bump2(dataMap, month, 0.0, t.amount);
      }
    }
    assert filtered[..|filtered|] == filtered;
  }

  /** One more transaction adds its amount to its month's bucket for its type. */
  lemma DataMapStep(filtered: seq<Transaction>, i: nat)
    requires i < |filtered|
    ensures DataMap(filtered[..i + 1]) ==
              if filtered[i].kind == Income then Bump2(DataMap(filtered[..i]), MonthOf(filtered[i]), filtered[i].amount, 0.0)
              else Bump2(DataMap(filtered[..i]), MonthOf(filtered[i]), 0.0, filtered[i].amount)
  {
    assert filtered[..i + 1] == filtered[..i] + [filtered[i]];
    Bump2Entries(filtered[..i], filtered[i], MonthOf, IncomePart, ExpensePart);
  }

  /** `([a], [b]) => a.localeCompare(b)` on month keys. */
  function ByKey(a: (string, (real, real)), b: (string, (real, real))): bool
  {
    Strs.StrLe(a.0, b.0)
  }

  lemma ByKeyTotal()
    ensures TotalPreorder(ByKey)
  {
    forall a, b ensures ByKey(a, b) || ByKey(b, a) {
      Strs.StrLeTotal(a.0, b.0);
    }
    forall a, b, c | ByKey(a, b) && ByKey(b, c) ensures ByKey(a, c) {
      Strs.StrLeTrans(a.0, b.0, c.0);
    }
  }

  /** One point of the series. */
  datatype Point = Point(month: string, receitas: real, despesas: real, saldo: real)

  function PointOf(e: (string, (real, real))): Point
  {
    Point(e.0, e.1.0, e.1.1, e.1.0 - e.1.1)
  }

  /** `.map(([month, values]) => ...)`. */
  function Points(sorted: seq<(string, (real, real))>): (d: seq<Point>)
    ensures |d| == |sorted| && forall i :: 0 <= i < |d| ==> d[i] == PointOf(sorted[i])
  {
    seq(|sorted|, i requires 0 <= i < |sorted| => PointOf(sorted[i]))
  }

  /** `data`: the buckets sorted by month key, each with its balance. */
  function DataOf(ts: seq<Transaction>, f: KindFilter): seq<Point>
  {
    Points(Sort(DataMap(Filtered(ts, f)), ByKey))
  }

  /** The chart's data, computed as the component does. */
  method ChartData(ts: seq<Transaction>, f: KindFilter) returns (data: seq<Point>)
    ensures data == DataOf(ts, f)
  {
    var filtered := if f.AllKinds? then ts else Filter(ts, Passes(f));
    var dataMap := BuildDataMap(filtered);
    data := Points(Sort(dataMap, ByKey));
  }

  /**
   * One point per month key of the filtered transactions, the keys strictly
   * ascending; each point holds its month's income and expense totals and
   * their difference; and every allowed transaction's month has a point.
   */
  lemma DataSpec(ts: seq<Transaction>, f: KindFilter)
    ensures |DataOf(ts, f)| == |Keys(Filtered(ts, f), MonthOf)|
    ensures forall i, j :: 0 <= i < j < |DataOf(ts, f)| ==>
              Strs.StrLe(DataOf(ts, f)[i].month, DataOf(ts, f)[j].month) && DataOf(ts, f)[i].month != DataOf(ts, f)[j].month
    ensures forall p :: p in DataOf(ts, f) ==>
              p.month in Keys(Filtered(ts, f), MonthOf) &&
              p.receitas == KeySum(Filtered(ts, f), MonthOf, IncomePart, p.month) &&
              p.despesas == KeySum(Filtered(ts, f), MonthOf, ExpensePart, p.month) &&
              p.saldo == p.receitas - p.despesas
    ensures forall t :: t in ts && Allows(f, t.kind) ==> exists p :: p in DataOf(ts, f) && p.month == MonthOf(t)
  {
    DataOrder(ts, f);
    DataContents(ts, f);
    DataCover(ts, f);
  }

  lemma DataOrder(ts: seq<Transaction>, f: KindFilter)
    ensures forall i, j :: 0 <= i < j < |DataOf(ts, f)| ==>
              Strs.StrLe(DataOf(ts, f)[i].month, DataOf(ts, f)[j].month) && DataOf(ts, f)[i].month != DataOf(ts, f)[j].month
  {
    var es := DataMap(Filtered(ts, f));
    var sorted, d := Sort(es, ByKey), DataOf(ts, f);
    Entries2Spec(Filtered(ts, f), MonthOf, IncomePart, ExpensePart);
    ByKeyTotal();
    SortSorted(es, ByKey);
    SortDistinct(es, ByKey, EntryKey);
    forall i, j | 0 <= i < j < |d| ensures Strs.StrLe(d[i].month, d[j].month) && d[i].month != d[j].month {
      assert ByKey(sorted[i], sorted[j]);
      assert EntryKey(sorted[i]) != EntryKey(sorted[j]);
    }
  }

  lemma DataContents(ts: seq<Transaction>, f: KindFilter)
    ensures forall p :: p in DataOf(ts, f) ==>
              p.month in Keys(Filtered(ts, f), MonthOf) &&
              p.receitas == KeySum(Filtered(ts, f), MonthOf, IncomePart, p.month) &&
              p.despesas == KeySum(Filtered(ts, f), MonthOf, ExpensePart, p.month) &&
              p.saldo == p.receitas - p.despesas
  {
    var filtered := Filtered(ts, f);
    var es := DataMap(filtered);
    Entries2Spec(filtered, MonthOf, IncomePart, ExpensePart);
    PointsContents(filtered, es, Sort(es, ByKey), DataOf(ts, f));
  }

  /** Points made from a reordering of the buckets carry their months' totals. */
  lemma PointsContents(filtered: seq<Transaction>, es: seq<(string, (real, real))>,
                       sorted: seq<(string, (real, real))>, d: seq<Point>)
    requires multiset(sorted) == multiset(es)
    requires |d| == |sorted| && forall i :: 0 <= i < |d| ==> d[i] == PointOf(sorted[i])
    requires forall e :: e in es ==>
               e.0 in Keys(filtered, MonthOf) &&
               e.1 == (KeySum(filtered, MonthOf, IncomePart, e.0), KeySum(filtered, MonthOf, ExpensePart, e.0))
    ensures forall p :: p in d ==>
              p.month in Keys(filtered, MonthOf) &&
              p.receitas == KeySum(filtered, MonthOf, IncomePart, p.month) &&
              p.despesas == KeySum(filtered, MonthOf, ExpensePart, p.month) &&
              p.saldo == p.receitas - p.despesas
  {
    forall p | p in d
      ensures p.month in Keys(filtered, MonthOf) &&
              p.receitas == KeySum(filtered, MonthOf, IncomePart, p.month) &&
              p.despesas == KeySum(filtered, MonthOf, ExpensePart, p.month)
    {
      var i :| 0 <= i < |d| && d[i] == p;
      assert sorted[i] in multiset(es);
    }
  }

  lemma DataCover(ts: seq<Transaction>, f: KindFilter)
    ensures forall t :: t in ts && Allows(f, t.kind) ==> exists p :: p in DataOf(ts, f) && p.month == MonthOf(t)
  {
    var filtered := Filtered(ts, f);
    var es := DataMap(filtered);
    FilteredSpec(ts, f);
    Entries2Spec(filtered, MonthOf, IncomePart, ExpensePart);
    PointsCover(filtered, es, Sort(es, ByKey), DataOf(ts, f));
  }

  /** Points made from a reordering of the buckets have one for every transaction's month. */
  lemma PointsCover(filtered: seq<Transaction>, es: seq<(string, (real, real))>,
                    sorted: seq<(string, (real, real))>, d: seq<Point>)
    requires multiset(sorted) == multiset(es)
    requires |d| == |sorted| && forall i :: 0 <= i < |d| ==> d[i] == PointOf(sorted[i])
    requires forall x :: x in filtered ==> exists e :: e in es && e.0 == MonthOf(x)
    ensures forall t :: t in filtered ==> exists p :: p in d && p.month == MonthOf(t)
  {
    forall t | t in filtered ensures exists p :: p in d && p.month == MonthOf(t) {
      var e :| e in es && e.0 == MonthOf(t);
      assert e in multiset(sorted);
      var i :| 0 <= i < |sorted| && sorted[i] == e;
      assert d[i] in d;
    }
  }

  /** With four-digit years, key order is calendar order: a point's month comes before every later point's. */
  lemma Chronological(ts: seq<Transaction>, f: KindFilter, i: nat, j: nat, a: Transaction, b: Transaction)
    requires forall t :: t in ts ==> 0 <= t.date.year <= 9999
    requires i < j < |DataOf(ts, f)| && a in ts && b in ts
    requires MonthOf(a) == DataOf(ts, f)[i].month && MonthOf(b) == DataOf(ts, f)[j].month
    ensures a.date.year < b.date.year || (a.date.year == b.date.year && a.date.month < b.date.month)
  {
    DataOrder(ts, f);
    MonthKeyOrder(a.date, b.date);
  }

  /** With only income shown, every point's expense is zero and its balance is its income; symmetrically for expense. */
  lemma OneKindSpec(ts: seq<Transaction>, k: Kind)
    ensures forall p :: p in DataOf(ts, Only(k)) ==>
              if k == Income then p.despesas == 0.0 && p.saldo == p.receitas
              else p.receitas == 0.0 && p.saldo == -p.despesas
  {
    var filtered := Filtered(ts, Only(k));
    DataContents(ts, Only(k));
    forall m: string
      ensures k == Income ==> KeySum(filtered, MonthOf, ExpensePart, m) == 0.0
      ensures k == Expense ==> KeySum(filtered, MonthOf, IncomePart, m) == 0.0
    {
      if k == Income {
        KeySumZero(filtered, MonthOf, ExpensePart, m);
      } else {
        KeySumZero(filtered, MonthOf, IncomePart, m);
      }
    }
  }

  /** The lines drawn: Receitas unless only expense is shown, Despesas unless only income is shown, and always Saldo. */
  function Lines(f: KindFilter): seq<string>
  {
    (if f != Only(Expense) then ["Receitas"] else []) +
    (if f != Only(Income) then ["Despesas"] else []) +
    ["Saldo"]
  }

  /** A type's line is drawn exactly when the filter allows that type; the balance line always is. */
  lemma LinesSpec(f: KindFilter)
    ensures "Saldo" in Lines(f)
    ensures "Receitas" in Lines(f) <==> Allows(f, Income)
    ensures "Despesas" in Lines(f) <==> Allows(f, Expense)
  {
  }
}
