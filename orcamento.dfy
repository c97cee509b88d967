/**
 * The budget page's category list: the categories of the expense
 * transactions, each once, in ascending code-unit order.
 */
module Orcamento {
  import opened Seqs
  import opened Ledger
  import Strs

  /** `getUniqueCategories`: filter the expenses, take their categories, drop repeats, sort. */
  function UniqueCategories(ts: seq<Transaction>): seq<string>
  {
    Sort(Keys(Filter(ts, IsExpense), Category), Strs.StrLe)
  }

  /**
   * The list holds exactly the categories of the expenses, so a category
   * used only by income never appears; each appears once, and the list is
   * in strictly ascending order.
   */
  lemma UniqueCategoriesSpec(ts: seq<Transaction>)
    ensures var cs := UniqueCategories(ts);
            (forall c :: c in cs <==> exists t :: t in ts && t.kind == Expense && t.category == c) &&
            (forall i, j :: 0 <= i < j < |cs| ==> Strs.StrLe(cs[i], cs[j]) && cs[i] != cs[j])
    ensures |UniqueCategories(ts)| <= |ts|
  {
    var es := Filter(ts, IsExpense);
    FilterSpec(ts, IsExpense);
    Strs.StrLeOrder();
    SortKeysSpec(es, Category, Strs.StrLe);
    assert |es| <= |ts| by {
      CountFilter(ts, IsExpense);
    }
  }

  /** A category used only by income transactions is not listed. */
  lemma IncomeOnlyAbsent(ts: seq<Transaction>, c: string)
    requires forall t :: t in ts && t.category == c ==> t.kind == Income
    ensures c !in UniqueCategories(ts)
  {
    UniqueCategoriesSpec(ts);
  }
}
