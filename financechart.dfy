/**
 * The bar chart of income and expense per category. The buckets are built
 * from every transaction whatever the type filter; the filter only decides
 * which of the two bars is drawn.
 */
module FinanceChart {
  import opened Seqs
  import opened Ledger

  /** `dataMap`: income and expense per category, both starting at 0, in order of first appearance. */
  function DataMap(ts: seq<Transaction>): seq<(string, (real, real))>
  {
    Entries2(ts, Category, IncomePart, ExpensePart)
  }

  /** The `forEach` filling `dataMap`. */
  method BuildDataMap(ts: seq<Transaction>) returns (dataMap: seq<(string, (real, real))>)
    ensures dataMap == DataMap(ts)
  {
    dataMap := [];
    for i := 0 to |ts|
      invariant dataMap == DataMap(ts[..i])
    {
      var t := ts[i];
      DataMapStep(ts, i);
      if t.kind == Income {
        dataMap := Bump2(dataMap, t.category, t.amount, 0.0);
      } else {
        dataMap := Bump2(dataMap, t.category, 0.0, t.amount);
      }
    }
    assert ts[..|ts|] == ts;
  }

  /** One more transaction adds its amount to its category's bucket for its type. */
  lemma DataMapStep(ts: seq<Transaction>, i: nat)
    requires i < |ts|
    ensures DataMap(ts[..i + 1]) ==
              if ts[i].kind == Income then Bump2(DataMap(ts[..i]), ts[i].category, ts[i].amount, 0.0)
              else Bump2(DataMap(ts[..i]), ts[i].category, 0.0, ts[i].amount)
  {
    assert ts[..i + 1] == ts[..i] + [ts[i]];
    Bump2Entries(ts[..i], ts[i], Category, IncomePart, ExpensePart);
  }

  /** One category's pair of bars. */
  datatype Bar = Bar(category: string, receita: real, despesa: real)

  function Receita(b: Bar): real { b.receita }
  function Despesa(b: Bar): real { b.despesa }

  /** `Object.entries(dataMap).map(...)`. */
  function Bars(es: seq<(string, (real, real))>): (d: seq<Bar>)
    ensures |d| == |es| && forall i :: 0 <= i < |d| ==> d[i] == Bar(es[i].0, es[i].1.0, es[i].1.1)
  {
    seq(|es|, i requires 0 <= i < |es| => Bar(es[i].0, es[i].1.0, es[i].1.1))
  }

  /** `data`. */
  function DataOf(ts: seq<Transaction>): seq<Bar>
  {
    Bars(DataMap(ts))
  }

  /** The chart's data, computed as the component does. */
  method ChartData(ts: seq<Transaction>) returns (data: seq<Bar>)
    ensures data == DataOf(ts)
  {
    var dataMap := BuildDataMap(ts);
    data := Bars(dataMap);
  }

  /**
   * Exactly one entry per distinct category, in order of first appearance;
   * each carries the income and the expense total of its category.
   */
  lemma DataSpec(ts: seq<Transaction>)
    ensures |DataOf(ts)| == |Keys(ts, Category)|
    ensures forall i :: 0 <= i < |DataOf(ts)| ==>
              DataOf(ts)[i].category == Keys(ts, Category)[i] &&
              DataOf(ts)[i].receita == KeySum(ts, Category, IncomePart, DataOf(ts)[i].category) &&
              DataOf(ts)[i].despesa == KeySum(ts, Category, ExpensePart, DataOf(ts)[i].category)
    ensures forall i, j :: 0 <= i < j < |DataOf(ts)| ==> DataOf(ts)[i].category != DataOf(ts)[j].category
    ensures forall t :: t in ts ==> exists b :: b in DataOf(ts) && b.category == t.category
  {
    var d, ks := DataOf(ts), Keys(ts, Category);
    forall t | t in ts ensures exists b :: b in d && b.category == t.category {
      var n :| 0 <= n < |ts| && ts[n] == t;
      assert Category(ts[n]) in ks;
      var k :| 0 <= k < |ks| && ks[k] == t.category;
      assert d[k] in d;
    }
  }

  /** The income bars add up to the income total and the expense bars to the expense total. */
  lemma DataTotals(ts: seq<Transaction>)
    ensures Sum(DataOf(ts), Receita) == IncomeTotal(ts)
    ensures Sum(DataOf(ts), Despesa) == ExpenseTotal(ts)
  {
    var d := DataOf(ts);
    Entries2Parts(ts, Category, IncomePart, ExpensePart);
    SumMatchesValues(d, Receita, Entries(ts, Category, IncomePart));
    SumMatchesValues(d, Despesa, Entries(ts, Category, ExpensePart));
    EntriesTotal(ts, Category, IncomePart);
    EntriesTotal(ts, Category, ExpensePart);
  }

  /** The bars drawn: Receita unless only expense is shown, Despesa unless only income is shown. */
  function Shown(f: KindFilter): seq<string>
  {
    (if f != Only(Expense) then ["Receita"] else []) +
    (if f != Only(Income) then ["Despesa"] else [])
  }

  /** A type's bar is drawn exactly when the filter allows that type; the data does not depend on the filter. */
  lemma ShownSpec(f: KindFilter)
    ensures "Receita" in Shown(f) <==> Allows(f, Income)
    ensures "Despesa" in Shown(f) <==> Allows(f, Expense)
    ensures Shown(f) != []
  {
  }
}
