/**
 * Spending insights: this month's expense total per category compared with
 * last month's. A category that grew by more than 20% gets a warning, one
 * that shrank by more than 20% a success, one without spending last month a
 * "new spending" note, and a month with more than five expenses and nothing
 * to say gets a "stable spending" note. The two months' transactions are
 * inputs (the database query is not part of this model).
 */
module SpendingInsights {
  import opened Seqs
  import opened Ledger

  datatype Insight =
    | Increase(category: string, change: real, current: real, previous: real)
    | Decrease(category: string, change: real, current: real, previous: real)
    | NewSpending(category: string, current: real)
    | StableSpending

  /** `calculateSpendingByCategory`: expense totals per category, in order of first appearance. */
  function SpendingByCategory(ts: seq<Transaction>): (r: seq<(string, real)>)
  {
    ExpenseByCategory(ts)
  }

  /** The totals of `calculateSpendingByCategory` add up to the expense total and only expenses enter them. */
  lemma SpendingByCategorySpec(ts: seq<Transaction>)
    ensures SumValues(SpendingByCategory(ts)) == ExpenseTotal(ts)
  {
    ExpenseByCategoryTotal(ts);
  }

  /** `previousSpending[category] || 0`. */
  function PreviousAmount(es: seq<(string, real)>, k: string): (v: real)
    ensures Find(es, k) == |es| ==> v == 0.0
    ensures Find(es, k) < |es| ==> v == es[Find(es, k)].1
  {
    var j := Find(es, k);
    if j < |es| then es[j].1 else 0.0
  }

  /** The percentage change from the previous to the current amount. */
  function Change(current: real, previous: real): real
    requires previous > 0.0
  {
    (current - previous) / previous * 100.0
  }

  /** The comparison of one category. */
  function CategoryInsight(category: string, current: real, previous: real): Option<Insight>
  {
    if previous > 0.0 then
      var change := Change(current, previous);
      if change > 20.0 then Some(Increase(category, change, current, previous))
      else if change < -20.0 then Some(Decrease(category, change, current, previous))
      else None
    else if current > 0.0 then Some(NewSpending(category, current))
    else None
  }

  /**
   * With spending last month, a warning exactly when this month is above
   * 120% of it and a success exactly when below 80%; without, a new
   * spending note exactly when there is spending now.
   */
  lemma CategoryRule(category: string, current: real, previous: real)
    ensures previous > 0.0 ==>
              ((CategoryInsight(category, current, previous).Some? && CategoryInsight(category, current, previous).value.Increase?)
                <==> current > previous * 1.2)
    ensures previous > 0.0 ==>
              ((CategoryInsight(category, current, previous).Some? && CategoryInsight(category, current, previous).value.Decrease?)
                <==> current < previous * 0.8)
    ensures previous <= 0.0 ==>
              (CategoryInsight(category, current, previous) == Some(NewSpending(category, current)) <==> current > 0.0)
    ensures previous <= 0.0 && current <= 0.0 ==> CategoryInsight(category, current, previous).None?
  {
    if previous > 0.0 {
      ChangeBounds(current, previous);
    }
  }

  lemma ChangeBounds(current: real, previous: real)
    requires previous > 0.0
    ensures Change(current, previous) > 20.0 <==> current > previous * 1.2
    ensures Change(current, previous) < -20.0 <==> current < previous * 0.8
  {
    var q := (current - previous) / previous;
    assert q * previous == current - previous;
  }

  function Emitted(o: Option<Insight>): seq<Insight>
  {
    if o.Some? then [o.value] else []
  }

  /** The insights of the loop over this month's categories, in their order. */
  function Compared(es: seq<(string, real)>, previous: seq<(string, real)>): (r: seq<Insight>)
    ensures |r| <= |es|
    decreases |es|
  {
    if es == [] then []
    else Emitted(CategoryInsight(es[0].0, es[0].1, PreviousAmount(previous, es[0].0))) + Compared(es[1..], previous)
  }

  /** Only this month's categories are compared: every insight names one of them. */
  lemma {:induction false} ComparedCategories(es: seq<(string, real)>, previous: seq<(string, real)>)
    ensures forall i :: 0 <= i < |Compared(es, previous)| ==>
              !Compared(es, previous)[i].StableSpending? && exists j :: 0 <= j < |es| && es[j].0 == Compared(es, previous)[i].category
    decreases |es|
  {
    if es != [] {
      ComparedCategories(es[1..], previous);
      var head := Emitted(CategoryInsight(es[0].0, es[0].1, PreviousAmount(previous, es[0].0)));
      assert Compared(es, previous) == head + Compared(es[1..], previous);
      forall i | 0 <= i < |Compared(es, previous)|
        ensures !Compared(es, previous)[i].StableSpending?
        ensures exists j :: 0 <= j < |es| && es[j].0 == Compared(es, previous)[i].category
      {
        if i < |head| {
          assert Compared(es, previous)[i] == head[0];
        } else {
          var k :| 0 <= k < |es[1..]| && es[1..][k].0 == Compared(es[1..], previous)[i - |head|].category;
          assert es[k + 1].0 == Compared(es, previous)[i].category;
        }
      }
    }
  }

  /**
   * `analyzeCategorySpending` over the two months' query results. Each query
   * asks for the user's expenses of its month only, so `current` is this
   * month's expenses, and "more than five" counts those, not all of the
   * month's transactions.
   */
  function Analysis(current: seq<Transaction>, previous: seq<Transaction>): seq<Insight>
  {
    var compared := Compared(SpendingByCategory(current), SpendingByCategory(previous));
    if compared == [] && |current| > 5 then [StableSpending] else compared
  }

  /**
   * The stable note is the only insight, and appears exactly when no
   * category produced one and there are more than five transactions this
   * month.
   */
  lemma AnalysisStable(current: seq<Transaction>, previous: seq<Transaction>)
    ensures var compared := Compared(SpendingByCategory(current), SpendingByCategory(previous));
            (StableSpending in Analysis(current, previous) <==> compared == [] && |current| > 5)
            && (StableSpending in Analysis(current, previous) ==> Analysis(current, previous) == [StableSpending])
  {
    var compared := Compared(SpendingByCategory(current), SpendingByCategory(previous));
    ComparedCategories(SpendingByCategory(current), SpendingByCategory(previous));
    assert StableSpending !in compared;
  }

  /** A category spent on only last month produces no insight. */
  lemma PreviousOnlySilent(current: seq<Transaction>, previous: seq<Transaction>, k: string)
    requires forall t :: t in current ==> t.category != k
    ensures forall i :: 0 <= i < |Analysis(current, previous)| ==>
              Analysis(current, previous)[i].StableSpending? || Analysis(current, previous)[i].category != k
  {
    var es, ps := SpendingByCategory(current), SpendingByCategory(previous);
    ComparedCategories(es, ps);
    CategoryAbsent(current, k);
    var compared := Compared(es, ps);
    assert Analysis(current, previous) == if compared == [] && |current| > 5 then [StableSpending] else compared;
  }

  /** A category no transaction of the month uses has no total of its own. */
  lemma CategoryAbsent(current: seq<Transaction>, k: string)
    requires forall t :: t in current ==> t.category != k
    ensures forall j :: 0 <= j < |SpendingByCategory(current)| ==> SpendingByCategory(current)[j].0 != k
  {
    var es := SpendingByCategory(current);
    FilterSpec(current, IsExpense);
    forall j | 0 <= j < |es| ensures es[j].0 != k {
      assert es[j].0 in Keys(Filter(current, IsExpense), Category);
    }
  }

  /** `analyzeCategorySpending`: the comparison loop, then the stable note. */
  method AnalyzeCategorySpending(current: seq<Transaction>, previous: seq<Transaction>) returns (insights: seq<Insight>)
    ensures insights == Analysis(current, previous)
  {
    var currentSpending := ExpenseMap(current);
    var previousSpending := ExpenseMap(previous);
    insights := CompareLoop(currentSpending, previousSpending);
    if |insights| == 0 && |current| > 5 {
      insights := insights + [StableSpending];
    }
  }

  /** The `for (const category in currentSpending)` loop, pushing each category's insight. */
  method CompareLoop(currentSpending: seq<(string, real)>, previousSpending: seq<(string, real)>) returns (insights: seq<Insight>)
    ensures insights == Compared(currentSpending, previousSpending)
  {
    insights := [];
    for i := 0 to |currentSpending|
      invariant insights + Compared(currentSpending[i..], previousSpending) == Compared(currentSpending, previousSpending)
    {
      assert currentSpending[i..][1..] == currentSpending[i + 1..];
      var category := currentSpending[i].0;
      var currentAmount := currentSpending[i].1;
      var previousAmount := PreviousAmount(previousSpending, category);
      var found := CategoryInsight(category, currentAmount, previousAmount);
      AppendAssoc(insights, Emitted(found), Compared(currentSpending[i + 1..], previousSpending));
      if found.Some? {
        insights := insights + [found.value];
      }
    }
    assert currentSpending[|currentSpending|..] == [];
  }
}
