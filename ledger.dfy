/**
 * The app's two stored entities, a transaction and a savings goal ("meta"),
 * and the totals every screen recomputes from a list of transactions:
 * income, expense, the signed balance, and the amount accumulated by a goal.
 */
module Ledger {
  import opened Seqs
  import Calendar

  datatype Option<+T> = None | Some(value: T)

  /** A calendar date that exists. */
  type Day = d: Calendar.Date | Calendar.Valid(d) witness Calendar.Date(2000, 1, 1)

  /** The declared transaction types, `"income" | "expense"`. */
  datatype Kind = Income | Expense

  /**
   * One stored transaction. `category`, `description` and `recurrence` are
   * "" when absent; `metaId` links the transaction to a goal; `installments`
   * is the number of parts of an instalment purchase.
   */
  datatype Transaction = Transaction(
    id: int,
    kind: Kind,
    category: string,
    amount: real,
    description: string,
    date: Day,
    metaId: Option<string>,
    installments: Option<int>,
    recurrence: string)

  /** A savings goal: a name and a target value. */
  datatype Meta = Meta(id: string, nome: string, valor: real)

  /** The charts' type select, `'all' | 'income' | 'expense'`. */
  datatype KindFilter = AllKinds | Only(kind: Kind)

  /** `filterType === 'all' || t.type === filterType`. */
  predicate Allows(f: KindFilter, k: Kind) { f.AllKinds? || f.kind == k }

  function Passes(f: KindFilter): Transaction -> bool
  {
    (t: Transaction) => Allows(f, t.kind)
  }

  predicate IsIncome(t: Transaction) { t.kind == Income }
  predicate IsExpense(t: Transaction) { t.kind == Expense }
  function Amount(t: Transaction): real { t.amount }

  function IncomePart(t: Transaction): real { if t.kind == Income then t.amount else 0.0 }
  function ExpensePart(t: Transaction): real { if t.kind == Expense then t.amount else 0.0 }

  /** `t.type === "income" ? t.amount : -t.amount`. */
  function Signed(t: Transaction): real { if t.kind == Income then t.amount else -t.amount }

  /** Total of the income transactions. */
  function IncomeTotal(ts: seq<Transaction>): real { Sum(ts, IncomePart) }

  /** Total of the expense transactions. */
  function ExpenseTotal(ts: seq<Transaction>): real { Sum(ts, ExpensePart) }

  /** Signed sum: income counts up, expense counts down. */
  function Net(ts: seq<Transaction>): real { Sum(ts, Signed) }

  /** The signed sum is income minus expense. */
  lemma {:induction false} NetIsIncomeMinusExpense(ts: seq<Transaction>)
    ensures Net(ts) == IncomeTotal(ts) - ExpenseTotal(ts)
    decreases |ts|
  {
    if ts != [] {
      NetIsIncomeMinusExpense(ts[..|ts| - 1]);
    }
  }

  /** Filtering income transactions and summing them is the income total. */
  lemma {:induction false} FilterIncomeTotal(ts: seq<Transaction>)
    ensures Sum(Filter(ts, IsIncome), Amount) == IncomeTotal(ts)
    decreases |ts|
  {
    if ts != [] {
      FilterIncomeTotal(ts[..|ts| - 1]);
      if ts[|ts| - 1].kind == Income {
        var r := Filter(ts, IsIncome);
        assert r[..|r| - 1] == Filter(ts[..|ts| - 1], IsIncome);
      }
    }
  }

  /** Filtering expense transactions and summing them is the expense total. */
  lemma {:induction false} FilterExpenseTotal(ts: seq<Transaction>)
    ensures Sum(Filter(ts, IsExpense), Amount) == ExpenseTotal(ts)
    decreases |ts|
  {
    if ts != [] {
      FilterExpenseTotal(ts[..|ts| - 1]);
      if ts[|ts| - 1].kind == Expense {
        var r := Filter(ts, IsExpense);
        assert r[..|r| - 1] == Filter(ts[..|ts| - 1], IsExpense);
      }
    }
  }

  /** The transactions linked to goal `id`, in order. */
  function Linked(ts: seq<Transaction>, id: string): seq<Transaction>
  {
    Filter(ts, LinksTo(id))
  }

  /** `t => t.metaId === id`. */
  function LinksTo(id: string): Transaction -> bool
  {
    (t: Transaction) => t.metaId == Some(id)
  }

  /** `metas.find(m => m.id === metaId)`: the first goal with that id. */
  function FindMeta(metas: seq<Meta>, metaId: Option<string>): (r: Option<Meta>)
    ensures r.Some? ==> r.value in metas && metaId == Some(r.value.id)
    ensures r.None? ==> metaId.None? || forall i :: 0 <= i < |metas| ==> metas[i].id != metaId.value
    ensures r.Some? ==> exists i :: 0 <= i < |metas| && metas[i] == r.value &&
                         forall j :: 0 <= j < i ==> metas[j].id != metaId.value
    decreases |metas|
  {
    if metaId.None? || metas == [] then None
    else if metas[0].id == metaId.value then Some(metas[0])
    else
      var r := FindMeta(metas[1..], metaId);
      if r.Some? then
        var i :| 0 <= i < |metas[1..]| && metas[1..][i] == r.value &&
                 forall j :: 0 <= j < i ==> metas[1..][j].id != metaId.value;
        assert metas[i + 1] == r.value;
        assert forall j :: 0 <= j < i + 1 ==> metas[j].id != metaId.value by {
          forall j | 0 <= j < i + 1 ensures metas[j].id != metaId.value {
            if j > 0 { assert metas[j] == metas[1..][j - 1]; }
          }
        }
        r
      else r
  }

  /** The amount of each installment: the parts multiply back to the total, and are positive when it is. */
  function PerInstallment(amount: real, n: nat): (per: real)
    requires n > 0
    ensures per * n as real == amount
    ensures amount > 0.0 ==> per > 0.0
  {
    amount / n as real
  }

  /** A toast notification: its text and whether it is a success (otherwise an error). */
  datatype Toast = Toast(message: string, success: bool)

  /** "Receita" or "Despesa", the kind as the exports label it. */
  function KindLabel(k: Kind): (s: string)
    ensures forall i :: 0 <= i < |s| ==> s[i] != ',' && s[i] != ';' && s[i] != '"'
  {
    match k
    case Income => "Receita"
    case Expense => "Despesa"
  }

  /** `meta?.nome || ""` for the goal the transaction points at. */
  function MetaName(metas: seq<Meta>, metaId: Option<string>): (name: string)
    ensures metaId.None? ==> name == ""
    ensures FindMeta(metas, metaId).Some? ==> name == FindMeta(metas, metaId).value.nome
  {
    match FindMeta(metas, metaId)
    case None => ""
    case Some(m) => m.nome
  }

  function Category(t: Transaction): string { t.category }

  /** `t.category || 'Sem categoria'`. */
  function CategoryKey(t: Transaction): string
  {
    if t.category == "" then "Sem categoria" else t.category
  }

  /** Expense totals per category, in order of first appearance. */
  function ExpenseByCategory(ts: seq<Transaction>): seq<(string, real)>
  {
    Entries(Filter(ts, IsExpense), Category, Amount)
  }

  /** The `despesasPorCategoria` / `categorias` loop: adds each expense to its category's total. */
  method ExpenseMap(ts: seq<Transaction>) returns (es: seq<(string, real)>)
    ensures es == ExpenseByCategory(ts)
  {
    es := [];
    ghost var expenses: seq<Transaction> := [];
    var i := 0;
    while i < |ts|
      invariant 0 <= i <= |ts|
      invariant expenses == Filter(ts[..i], IsExpense)
      invariant es == Entries(expenses, Category, Amount)
    {
      var t := ts[i];
      FilterPrefixStep(ts, i, IsExpense);
      if t.kind == Expense {
        BumpEntries(expenses, t, Category, Amount);
        es := Bump(es, t.category, t.amount);
        expenses := expenses + [t];
      }
      i := i + 1;
    }
    assert ts[..|ts|] == ts;
  }

  /** The category totals add up to the expense total. */
  lemma ExpenseByCategoryTotal(ts: seq<Transaction>)
    ensures SumValues(ExpenseByCategory(ts)) == ExpenseTotal(ts)
  {
    EntriesTotal(Filter(ts, IsExpense), Category, Amount);
    FilterExpenseTotal(ts);
  }

  /** There is a category total exactly when there is an expense. */
  lemma ExpenseByCategoryEmpty(ts: seq<Transaction>)
    ensures ExpenseByCategory(ts) == [] <==> forall t :: t in ts ==> !IsExpense(t)
  {
    var fs := Filter(ts, IsExpense);
    FilterSpec(ts, IsExpense);
    if fs != [] {
      assert Category(fs[0]) in Keys(fs, Category);
    }
  }

  /** `sort(([, a], [, b]) => b - a)`: larger totals first. */
  function ByValueDesc(a: (string, real), b: (string, real)): bool { a.1 >= b.1 }

  /** The `n` largest totals, largest first (`sort` by value descending, then `slice(0, n)`). */
  function TopByValue(es: seq<(string, real)>, n: nat): seq<(string, real)>
  {
    Take(Sort(es, ByValueDesc), n)
  }

  /** At most `n` entries, largest first, drawn from the list, and no left-out entry is larger than the last one kept. */
  lemma TopByValueSpec(es: seq<(string, real)>, n: nat)
    requires n >= 1
    ensures |TopByValue(es, n)| == if |es| < n then |es| else n
    ensures SortedBy(TopByValue(es, n), ByValueDesc)
    ensures forall e :: e in TopByValue(es, n) ==> e in es
    ensures forall e :: e in es ==> e in TopByValue(es, n) || e.1 <= TopByValue(es, n)[|TopByValue(es, n)| - 1].1
  {
    assert TotalPreorder(ByValueDesc);
    TopSpec(es, n, ByValueDesc);
  }

  /** `es[i]` has the largest value, and every earlier entry a smaller one: the first largest entry. */
  predicate FirstLargest(es: seq<(string, real)>, i: int)
    requires 0 <= i < |es|
  {
    (forall j :: 0 <= j < |es| ==> es[j].1 <= es[i].1) && (forall j :: 0 <= j < i ==> es[j].1 < es[i].1)
  }

  /** The sort is stable, so the head of the ranking is the first entry, in list order, with the largest value. */
  lemma TopByValueFirst(es: seq<(string, real)>, n: nat)
    requires n >= 1
    ensures es != [] ==> exists i :: 0 <= i < |es| && TopByValue(es, n)[0] == es[i] && FirstLargest(es, i)
  {
    if es != [] {
      assert TotalPreorder(ByValueDesc);
      SortHead(es, ByValueDesc);
      var i :| 0 <= i < |es| && Sort(es, ByValueDesc)[0] == es[i] && FirstLeast(es, i, ByValueDesc);
      assert TopByValue(es, n)[0] == Sort(es, ByValueDesc)[0];
      assert FirstLargest(es, i);
    }
  }

  /** Income and expense parts add up to the amount. */
  lemma {:induction false} AmountsAddUp(ts: seq<Transaction>)
    ensures IncomeTotal(ts) + ExpenseTotal(ts) == Sum(ts, Amount)
    decreases |ts|
  {
    if ts != [] {
      AmountsAddUp(ts[..|ts| - 1]);
    }
  }

  /** Amount a goal has accumulated: the signed sum of its linked transactions. */
  function Accumulated(ts: seq<Transaction>, m: Meta): real
  {
    Net(Linked(ts, m.id))
  }

  /** A goal's accumulated amount is its linked income minus its linked expense. */
  lemma AccumulatedIsNet(ts: seq<Transaction>, m: Meta)
    ensures Accumulated(ts, m) == IncomeTotal(Linked(ts, m.id)) - ExpenseTotal(Linked(ts, m.id))
  {
    NetIsIncomeMinusExpense(Linked(ts, m.id));
  }

  /** `valor - acumulado` floored at 0 ("Faltam"). */
  function Remaining(valor: real, acc: real): (r: real)
    ensures r >= 0.0
    ensures r == 0.0 <==> acc >= valor
    ensures r > 0.0 ==> acc + r == valor
  {
    if valor - acc > 0.0 then valor - acc else 0.0
  }

  /** The goals with at least their target accumulated (signed sums). */
  function ReachedCount(ms: seq<Meta>, ts: seq<Transaction>): (n: nat)
    ensures n <= |ms|
  {
    Count(ms, m => Accumulated(ts, m) >= m.valor)
  }

  /** The kind named by the string a client sends. */
  function KindName(k: Kind): string
  {
    match k
    case Income => "income"
    case Expense => "expense"
  }

  /** `Math.round`: the nearest integer, halves rounded up. */
  function Round(x: real): (n: int)
    ensures x - 0.5 < n as real <= x + 0.5
  {
    (x + 0.5).Floor
  }

  /** `Math.ceil`. */
  function Ceil(x: real): (n: int)
    ensures x <= n as real < x + 1.0
  {
    if x.Floor as real == x then x.Floor else x.Floor + 1
  }
}
