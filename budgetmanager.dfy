/**
 * The budget panel: the budgets of one month, what was spent in each
 * budget's category, the over-budget flag, the add/update and delete
 * handlers and the month input. Network replies are parameters; a reload
 * of the list is recorded as the `(month, year)` it asks for.
 */
module BudgetManager {
  import opened Seqs
  import opened Ledger
  import Strs
  import NumFmt

  /** A budget as the server returns it. */
  datatype Budget = Budget(id: string, category: string, amount: real, month: int, year: int)

  /** What `Number(...)` gives for a piece of the month input: a number, NaN, or `undefined` when the piece is missing. */
  datatype JsValue = Num(value: int) | NaN | Undefined

  /** `transactions.filter(t => t.category === c && t.type === 'expense').reduce((sum, t) => sum + t.amount, 0)`. */
  function SpentOf(ts: seq<Transaction>, c: string): real
  {
    Sum(Filter(ts, ExpenseIn(c)), Amount)
  }

  /** The test of that filter: an expense of category `c`. */
  function ExpenseIn(c: string): Transaction -> bool
  {
    (t: Transaction) => t.category == c && IsExpense(t)
  }

  /**
   * What a budget shows as spent is the total its category has among the
   * expense totals per category.
   */
  lemma {:induction false} SpentIsCategoryTotal(ts: seq<Transaction>, c: string)
    ensures SpentOf(ts, c) == KeySum(Filter(ts, IsExpense), Category, Amount, c)
    decreases |ts|
  {
    if ts != [] {
      var init, t := ts[..|ts| - 1], ts[|ts| - 1];
      SpentIsCategoryTotal(init, c);
      var es := Filter(ts, IsExpense);
      var spent := Filter(ts, ExpenseIn(c));
      var rest := KeySum(Filter(init, IsExpense), Category, Amount, c);
      if ExpenseIn(c)(t) {
        assert spent[..|spent| - 1] == Filter(init, ExpenseIn(c));
        assert SpentOf(ts, c) == SpentOf(init, c) + t.amount;
      } else {
        assert SpentOf(ts, c) == SpentOf(init, c);
      }
      if IsExpense(t) {
        KeySumSnoc(Filter(init, IsExpense), t, Category, Amount, c);
        assert KeySum(es, Category, Amount, c) == rest + (if t.category == c then t.amount else 0.0);
      } else {
        assert KeySum(es, Category, Amount, c) == rest;
      }
    }
  }

  /**
   * A category with an expense total spent exactly that total; a category
   * without any expense spent nothing.
   */
  lemma SpentMatchesEntries(ts: seq<Transaction>, c: string)
    ensures forall e :: e in ExpenseByCategory(ts) ==> e.1 == SpentOf(ts, e.0)
    ensures c !in Labels(ExpenseByCategory(ts)) ==> SpentOf(ts, c) == 0.0
  {
    var es := Filter(ts, IsExpense);
    forall e | e in ExpenseByCategory(ts) ensures e.1 == SpentOf(ts, e.0) {
      SpentIsCategoryTotal(ts, e.0);
    }
    if c !in Labels(ExpenseByCategory(ts)) {
      EntriesLabels(es, Category, Amount);
      forall i | 0 <= i < |es| ensures Category(es[i]) != c {
        assert es[i] in es;
      }
      KeySumAbsent(es, Category, Amount, c);
      SpentIsCategoryTotal(ts, c);
    }
  }

  /** The categories that have a budget. */
  function BudgetCategories(budgets: seq<Budget>): set<string>
  {
    set b | b in budgets :: b.category
  }

  /** `spentByCategory`: one entry per budgeted category, holding what was spent in it. */
  method SpentByCategory(budgets: seq<Budget>, ts: seq<Transaction>) returns (acc: map<string, real>)
    ensures acc.Keys == BudgetCategories(budgets)
    ensures forall c :: c in acc ==> acc[c] == SpentOf(ts, c)
  {
    acc := map[];
    for i := 0 to |budgets|
      invariant acc.Keys == BudgetCategories(budgets[..i])
      invariant forall c :: c in acc ==> acc[c] == SpentOf(ts, c)
    {
      var budget := budgets[i];
      var spent := SpentOf(ts, budget.category);
      acc := acc[budget.category := spent];
      assert budgets[..i + 1] == budgets[..i] + [budget];
    }
    assert budgets[..|budgets|] == budgets;
  }

  /** `spentByCategory[budget.category] || 0`. */
  function Shown(spent: map<string, real>, c: string): real
  {
    if c in spent then spent[c] else 0.0
  }

  /** `(spent / budget.amount) * 100 > 100`. */
  predicate OverBudget(spent: real, amount: real)
  {
    NumFmt.Above(NumFmt.Percent(spent, amount), 100.0)
  }

  /**
   * For a positive budget, over budget means spending more than the budget;
   * for a zero budget, spending anything positive (the quotient is
   * infinite); for a negative one the comparison turns around.
   */
  lemma OverBudgetSpec(spent: real, amount: real)
    ensures amount > 0.0 ==> (OverBudget(spent, amount) <==> spent > amount)
    ensures amount == 0.0 ==> (OverBudget(spent, amount) <==> spent > 0.0)
    ensures amount < 0.0 ==> (OverBudget(spent, amount) <==> spent < amount)
  {
    if amount != 0.0 {
      PercentAbove(spent, amount);
    }
  }

  lemma PercentAbove(spent: real, amount: real)
    requires amount != 0.0
    ensures spent / amount * 100.0 > 100.0 <==> spent / amount > 1.0
    ensures amount > 0.0 ==> (spent / amount > 1.0 <==> spent > amount)
    ensures amount < 0.0 ==> (spent / amount > 1.0 <==> spent < amount)
  {
    var q := spent / amount;
    assert q * amount == spent;
    if amount > 0.0 {
      assert q > 1.0 ==> q * amount > amount;
      assert q <= 1.0 ==> q * amount <= amount;
    } else {
      assert q > 1.0 ==> q * amount < amount;
      assert q <= 1.0 ==> q * amount >= amount;
    }
  }

  /** One line of the list: the category, the spent amount and whether it is over budget. */
  datatype Row = Row(category: string, spent: real, amount: real, over: bool)

  function RowOf(b: Budget, spent: map<string, real>): Row
  {
    var s := Shown(spent, b.category);
    Row(b.category, s, b.amount, OverBudget(s, b.amount))
  }

  /**
   * With the map `spentByCategory` builds, each budget's line shows what its
   * category spent, and a positive budget is flagged exactly when that is
   * more than the budget.
   */
  lemma RowSpec(b: Budget, budgets: seq<Budget>, ts: seq<Transaction>, spent: map<string, real>)
    requires b in budgets
    requires spent.Keys == BudgetCategories(budgets)
    requires forall c :: c in spent ==> spent[c] == SpentOf(ts, c)
    ensures RowOf(b, spent).spent == SpentOf(ts, b.category)
    ensures b.amount > 0.0 ==> (RowOf(b, spent).over <==> SpentOf(ts, b.category) > b.amount)
  {
    assert b.category in BudgetCategories(budgets);
    OverBudgetSpec(SpentOf(ts, b.category), b.amount);
  }

  /** A category nobody budgeted shows 0 spent and, for a positive budget, is never over. */
  lemma MissingSpec(b: Budget, spent: map<string, real>)
    requires b.category !in spent
    ensures RowOf(b, spent).spent == 0.0
    ensures b.amount > 0.0 ==> !RowOf(b, spent).over
  {
    OverBudgetSpec(0.0, b.amount);
  }

  // ---- the month input ----

  /** `String(v)`. */
  function Text(v: JsValue): string
  {
    match v
    case Num(n) => Strs.IntStr(n)
    case NaN => "NaN"
    case Undefined => "undefined"
  }

  /** `` `${currentYear}-${String(currentMonth).padStart(2, '0')}` ``. */
  function MonthInputValue(year: JsValue, month: JsValue): string
  {
    Text(year) + "-" + Strs.PadZeros(Text(month), 2)
  }

  /** `Number(s)` for the pieces a month input produces: the empty text is 0, a digit run its value, anything else NaN. */
  function NumberOf(s: string): JsValue
  {
    if s == "" then Num(0)
    else if Strs.AllDigits(s) then Num(Strs.ParseDigits(s))
    else NaN
  }

  /** `e.target.value.split('-').map(Number)`, read as `[year, month]`. */
  function DateChange(value: string): (r: (JsValue, JsValue))
  {
    var parts := Strs.Split(value, '-');
    (NumberOf(parts[0]), if |parts| >= 2 then NumberOf(parts[1]) else Undefined)
  }

  /** The input shows the month with two digits, and reading what it shows gives back the year and the month. */
  lemma MonthInputRoundTrip(year: nat, month: nat)
    requires 1 <= month <= 12
    ensures var v := MonthInputValue(Num(year), Num(month));
            |v| == |Strs.NatStr(year)| + 3 && DateChange(v) == (Num(year), Num(month))
  {
    var y, m := Strs.NatStr(year), Strs.PadZeros(Strs.NatStr(month), 2);
    assert MonthInputValue(Num(year), Num(month)) == y + "-" + m;
    SplitPair(y, m);
    Strs.ParseNatStr(year);
    Strs.ParseNatStr(month);
    assert NumberOf(y) == Num(year);
    assert NumberOf(m) == Num(month);
  }

  /** Splitting two digit runs joined by "-" gives them back. */
  lemma SplitPair(y: string, m: string)
    requires Strs.AllDigits(y) && Strs.AllDigits(m)
    ensures Strs.Split(y + "-" + m, '-') == [y, m]
  {
    assert y + "-" + m == y + ['-'] + m;
    Strs.SplitFirst(y, '-', m);
    Strs.SplitNone(m, '-');
  }

  /** A cleared input gives year 0 and no month. */
  lemma ClearedInput()
    ensures DateChange("") == (Num(0), Undefined)
  {
    Strs.SplitNone("", '-');
  }

  // ---- the component ----

  /** The body of the POST to `/api/budgets`. */
  datatype BudgetPost = BudgetPost(category: string, amount: real, month: JsValue, year: JsValue)

  /** What the POST came to: saved, refused with the server's `error` (empty when it gave none), or a failed request with its message. */
  datatype Outcome = Saved | Refused(error: string) | Broken(message: string)

  const Missing: string := "Preencha categoria e valor."
  const SaveFailure: string := "Falha ao salvar orçamento"
  const LoadFailure: string := "Não foi possível carregar os orçamentos."
  const Removed: string := "Orçamento removido."
  const RemoveFailure: string := "Não foi possível remover o orçamento."

  /** The success toast of a save. */
  function SavedMessage(category: string): string
  {
    "Orçamento para " + category + " salvo."
  }

  /** The error toast of a failed save: `errorData.error || 'Falha ao salvar orçamento'`, or the request's own message. */
  function FailureMessage(o: Outcome): (s: string)
    requires !o.Saved?
    ensures o.Refused? && o.error != "" ==> s == o.error
    ensures o.Refused? && o.error == "" ==> s == SaveFailure
  {
    match o
    case Refused(e) => if e == "" then SaveFailure else e
    case Broken(m) => m
  }

  /**
   * The component's state: the list, the month shown, the form fields (the
   * amount held as the number its input contains, `None` when empty), the
   * toasts shown, the saves and deletions sent and the list reloads asked
   * for, each as `(month, year)`.
   */
  class Panel {
    var budgets: seq<Budget>
    var currentMonth: JsValue
    var currentYear: JsValue
    var isLoading: bool
    var category: string
    var amount: Option<real>
    var toasts: seq<Toast>
    var posted: seq<BudgetPost>
    var deleted: seq<string>
    var requested: seq<(JsValue, JsValue)>

    /** Mounting: today's month, an empty list, loading, and the first reload asked for. */
    constructor (today: Day)
      ensures currentMonth == Num(today.month) && currentYear == Num(today.year)
      ensures budgets == [] && isLoading && category == "" && amount.None?
      ensures toasts == [] && posted == [] && deleted == []
      ensures requested == [(Num(today.month), Num(today.year))]
    {
      budgets := [];
      currentMonth := Num(today.month);
      currentYear := Num(today.year);
      isLoading := true;
      category := "";
      amount := None;
      toasts := [];
      posted := [];
      deleted := [];
      requested := [(Num(today.month), Num(today.year))];
    }

    /** `fetchBudgets(currentMonth, currentYear)`: the reload is asked for and the list shows as loading. */
    method Reload()
      modifies this
      ensures requested == old(requested) + [(currentMonth, currentYear)] && isLoading
      ensures budgets == old(budgets) && currentMonth == old(currentMonth) && currentYear == old(currentYear)
      ensures category == old(category) && amount == old(amount)
      ensures toasts == old(toasts) && posted == old(posted) && deleted == old(deleted)
    {
      requested := requested + [(currentMonth, currentYear)];
      isLoading := true;
    }

    /** The reply to a reload: the list it carries, or an error toast and the list kept; loading ends either way. */
    method Loaded(reply: Option<seq<Budget>>)
      modifies this
      ensures reply.Some? ==> budgets == reply.value && toasts == old(toasts)
      ensures reply.None? ==> budgets == old(budgets) && toasts == old(toasts) + [Toast(LoadFailure, false)]
      ensures !isLoading
      ensures currentMonth == old(currentMonth) && currentYear == old(currentYear)
      ensures category == old(category) && amount == old(amount)
      ensures posted == old(posted) && deleted == old(deleted) && requested == old(requested)
    {
      if reply.Some? {
        budgets := reply.value;
      } else {
        toasts := toasts + [Toast(LoadFailure, false)];
      }
      isLoading := false;
    }

    /**
     * `handleAddOrUpdateBudget`. With the category or the amount empty only an
     * error is shown and nothing is sent. Otherwise the budget is posted for
     * the month shown; once saved the fields are cleared and the list is
     * reloaded, and on a failure the error is shown and the fields are kept.
     */
    method HandleAddOrUpdateBudget(outcome: Outcome)
      modifies this
      ensures old(category) == "" || old(amount).None? ==>
                toasts == old(toasts) + [Toast(Missing, false)] && posted == old(posted) &&
                requested == old(requested) && category == old(category) && amount == old(amount) &&
                isLoading == old(isLoading)
      ensures old(category) != "" && old(amount).Some? ==>
                posted == old(posted) + [BudgetPost(old(category), old(amount).value, currentMonth, currentYear)]
      ensures old(category) != "" && old(amount).Some? && outcome.Saved? ==>
                toasts == old(toasts) + [Toast(SavedMessage(old(category)), true)] &&
                category == "" && amount.None? &&
                requested == old(requested) + [(currentMonth, currentYear)] && isLoading
      ensures old(category) != "" && old(amount).Some? && !outcome.Saved? ==>
                toasts == old(toasts) + [Toast(FailureMessage(outcome), false)] &&
                category == old(category) && amount == old(amount) &&
                requested == old(requested) && isLoading == old(isLoading)
      ensures budgets == old(budgets) && deleted == old(deleted)
      ensures currentMonth == old(currentMonth) && currentYear == old(currentYear)
    {
      if category == "" || amount.None? {
        toasts := toasts + [Toast(Missing, false)];
        return;
      }
      posted := posted + [BudgetPost(category, amount.value, currentMonth, currentYear)];
      if outcome.Saved? {
        toasts := toasts + [Toast(SavedMessage(category), true)];
        category := "";
        amount := None;
        Reload();
      } else {
        toasts := toasts + [Toast(FailureMessage(outcome), false)];
      }
    }

    /** The edit button: the budget's category and amount go back into the form. */
    method Edit(b: Budget)
      modifies this
      ensures category == b.category && amount == Some(b.amount)
      ensures budgets == old(budgets) && currentMonth == old(currentMonth) && currentYear == old(currentYear)
      ensures isLoading == old(isLoading) && toasts == old(toasts) && posted == old(posted)
      ensures deleted == old(deleted) && requested == old(requested)
    {
      category := b.category;
      amount := Some(b.amount);
    }

    /**
     * `handleDeleteBudget`: nothing unless the user confirms; then the
     * deletion is sent, and either confirmed and the list reloaded, or an
     * error is shown.
     */
    method HandleDeleteBudget(id: string, confirmed: bool, ok: bool)
      modifies this
      ensures !confirmed ==> deleted == old(deleted) && toasts == old(toasts) && requested == old(requested) &&
                             isLoading == old(isLoading)
      ensures confirmed ==> deleted == old(deleted) + [id]
      ensures confirmed && ok ==> toasts == old(toasts) + [Toast(Removed, true)] &&
                                  requested == old(requested) + [(currentMonth, currentYear)] && isLoading
      ensures confirmed && !ok ==> toasts == old(toasts) + [Toast(RemoveFailure, false)] &&
                                   requested == old(requested) && isLoading == old(isLoading)
      ensures budgets == old(budgets) && currentMonth == old(currentMonth) && currentYear == old(currentYear)
      ensures category == old(category) && amount == old(amount) && posted == old(posted)
    {
      if !confirmed {
        return;
      }
      deleted := deleted + [id];
      if ok {
        toasts := toasts + [Toast(Removed, true)];
        Reload();
      } else {
        toasts := toasts + [Toast(RemoveFailure, false)];
      }
    }

    /**
     * `handleDateChange`: the year and month read from the input; the list
     * is reloaded when either changed (the effect on `[currentMonth,
     * currentYear]`).
     */
    method HandleDateChange(value: string)
      modifies this
      ensures (currentYear, currentMonth) == DateChange(value)
      ensures (currentYear, currentMonth) != (old(currentYear), old(currentMonth)) ==>
                requested == old(requested) + [(currentMonth, currentYear)] && isLoading
      ensures (currentYear, currentMonth) == (old(currentYear), old(currentMonth)) ==>
                requested == old(requested) && isLoading == old(isLoading)
      ensures budgets == old(budgets) && category == old(category) && amount == old(amount)
      ensures toasts == old(toasts) && posted == old(posted) && deleted == old(deleted)
    {
      var parts := Strs.Split(value, '-');
      var year := NumberOf(parts[0]);
      var month := if |parts| >= 2 then NumberOf(parts[1]) else Undefined;
      var changed := year != currentYear || month != currentMonth;
      currentYear := year;
      currentMonth := month;
      if changed {
        Reload();
      }
    }
  }
}
