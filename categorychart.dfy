/**
 * The category chart: the transactions of the chosen type grouped by
 * category with their total, their count and the type of the first one in
 * the group, largest totals first and at most ten of them; and the income
 * and expense totals of all transactions, whatever the filter.
 */
module CategoryChart {
  import opened Seqs
  import opened Ledger

  const Unnamed: string := "Sem Categoria"

  /** `t.category || 'Sem Categoria'`. */
  function GroupName(t: Transaction): (name: string)
    ensures name != ""
    ensures t.category != "" ==> name == t.category
  {
    if t.category == "" then Unnamed else t.category
  }

  /** The accumulator of one category: `{ total, count, type }`. */
  datatype Acc = Acc(total: real, count: nat, kind: Kind)

  /** One step of the `reduce`: create the category's record on first sight, then add the amount and count it. */
  function AddTo(acc: seq<(string, Acc)>, t: Transaction): seq<(string, Acc)>
  {
    var name := GroupName(t);
    var j := Find(acc, name);
    if j < |acc| then acc[j := (name, Acc(acc[j].1.total + t.amount, acc[j].1.count + 1, acc[j].1.kind))]
    else acc + [(name, Acc(0.0 + t.amount, 0 + 1, t.kind))]
  }

  /** `filtered.reduce(..., {})`, the record in insertion order of its keys. */
  function Grouped(s: seq<Transaction>): seq<(string, Acc)>
    decreases |s|
  {
    if s == [] then [] else AddTo(Grouped(s[..|s| - 1]), s[|s| - 1])
  }

  /** What the record holds for `name`, read off the transactions themselves. */
  ghost predicate Describes(s: seq<Transaction>, name: string, a: Acc)
  {
    var ms := Members(s, GroupName, name);
    ms != [] && a.total == KeySum(s, GroupName, Amount, name) && a.count == |ms| && a.kind == ms[0].kind
  }

  /** One more transaction adds one member to its own group and none to the others. */
  lemma MembersSnoc(s: seq<Transaction>, x: Transaction, name: string)
    ensures Members(s + [x], GroupName, name) ==
              Members(s, GroupName, name) + (if GroupName(x) == name then [x] else [])
  {
    assert (s + [x])[..|s + [x]| - 1] == s;
  }

  /**
   * The record has one entry per category name, in order of first
   * appearance, and each entry holds that category's total, the number of
   * its transactions and the type of the first of them.
   */
  lemma {:induction false} GroupedSpec(s: seq<Transaction>)
    ensures |Grouped(s)| == |Keys(s, GroupName)|
    ensures forall i :: 0 <= i < |Grouped(s)| ==>
              Grouped(s)[i].0 == Keys(s, GroupName)[i] && Describes(s, Grouped(s)[i].0, Grouped(s)[i].1)
    decreases |s|
  {
    if s != [] {
      var init, x := s[..|s| - 1], s[|s| - 1];
      assert s == init + [x];
      GroupedSpec(init);
      GroupedStep(init, x);
    }
  }

  /** The record before a transaction describes the list before it. */
  ghost predicate GroupedDescribes(s: seq<Transaction>)
  {
    |Grouped(s)| == |Keys(s, GroupName)| &&
    forall i :: 0 <= i < |Grouped(s)| ==>
      Grouped(s)[i].0 == Keys(s, GroupName)[i] && Describes(s, Grouped(s)[i].0, Grouped(s)[i].1)
  }

  lemma GroupedStep(init: seq<Transaction>, x: Transaction)
    requires GroupedDescribes(init)
    ensures GroupedDescribes(init + [x])
  {
    var s := init + [x];
    assert s[..|s| - 1] == init;
    assert Grouped(s) == AddTo(Grouped(init), x);
    if Find(Grouped(init), GroupName(x)) < |Grouped(init)| {
      GroupedStepKnown(init, x);
    } else {
      GroupedStepNew(init, x);
    }
  }

  /** A transaction of a category already in the record adds to that category's entry. */
  lemma GroupedStepKnown(init: seq<Transaction>, x: Transaction)
    requires GroupedDescribes(init)
    requires Find(Grouped(init), GroupName(x)) < |Grouped(init)|
    requires Grouped(init + [x]) == AddTo(Grouped(init), x)
    ensures GroupedDescribes(init + [x])
  {
    var s := init + [x];
    var acc, ks := Grouped(init), Keys(init, GroupName);
    var name := GroupName(x);
    var j := Find(acc, name);
    KeysSnoc(init, x, GroupName);
    assert ks[j] == name;
    assert Keys(s, GroupName) == ks;
    var g := Grouped(s);
    forall i | 0 <= i < |g| ensures g[i].0 == ks[i] && Describes(s, g[i].0, g[i].1) {
      if i != j {
        assert acc[i].0 == ks[i] != ks[j];
        DescribesOther(init, x, acc[i].0, acc[i].1);
      } else {
        DescribesSame(init, x, acc[i].1);
      }
    }
  }

  /** A transaction of a new category adds an entry at the end. */
  lemma GroupedStepNew(init: seq<Transaction>, x: Transaction)
    requires GroupedDescribes(init)
    requires Find(Grouped(init), GroupName(x)) == |Grouped(init)|
    requires Grouped(init + [x]) == AddTo(Grouped(init), x)
    ensures GroupedDescribes(init + [x])
  {
    var s := init + [x];
    var acc, ks := Grouped(init), Keys(init, GroupName);
    var name := GroupName(x);
    KeysSnoc(init, x, GroupName);
    forall k | 0 <= k < |ks| ensures ks[k] != name {
      assert ks[k] == acc[k].0;
    }
    assert Keys(s, GroupName) == ks + [name];
    var g := Grouped(s);
    assert g == acc + [(name, Acc(0.0 + x.amount, 0 + 1, x.kind))];
    forall i | 0 <= i < |g| ensures g[i].0 == (ks + [name])[i] && Describes(s, g[i].0, g[i].1) {
      if i < |acc| {
        assert g[i] == acc[i];
        DescribesOther(init, x, acc[i].0, acc[i].1);
      } else {
        DescribesNew(init, x);
      }
    }
  }

  lemma DescribesOther(init: seq<Transaction>, x: Transaction, name: string, a: Acc)
    requires GroupName(x) != name && Describes(init, name, a)
    ensures Describes(init + [x], name, a)
  {
    MembersSnoc(init, x, name);
    KeySumSnoc(init, x, GroupName, Amount, name);
  }

  lemma DescribesSame(init: seq<Transaction>, x: Transaction, a: Acc)
    requires Describes(init, GroupName(x), a)
    ensures Describes(init + [x], GroupName(x), Acc(a.total + x.amount, a.count + 1, a.kind))
  {
    MembersSnoc(init, x, GroupName(x));
    KeySumSnoc(init, x, GroupName, Amount, GroupName(x));
  }

  lemma DescribesNew(init: seq<Transaction>, x: Transaction)
    requires GroupName(x) !in Keys(init, GroupName)
    ensures Describes(init + [x], GroupName(x), Acc(0.0 + x.amount, 0 + 1, x.kind))
  {
    MembersSnoc(init, x, GroupName(x));
    KeySumSnoc(init, x, GroupName, Amount, GroupName(x));
    MembersNone(init, GroupName, GroupName(x));
    KeySumAbsent(init, GroupName, Amount, GroupName(x));
  }

  /** One bar or slice: `{ name, value, count, type }`. */
  datatype CategoryData = CategoryData(name: string, value: real, count: nat, kind: Kind)

  function Row(e: (string, Acc)): CategoryData
  {
    CategoryData(e.0, e.1.total, e.1.count, e.1.kind)
  }

  /** `sort((a, b) => b.value - a.value)`: larger totals first. */
  function ByValue(a: CategoryData, b: CategoryData): bool { a.value >= b.value }

  /** `Object.entries(grouped).map(...)`. */
  function Rows(filtered: seq<Transaction>): (rows: seq<CategoryData>)
    ensures |rows| == |Grouped(filtered)|
    ensures forall i :: 0 <= i < |rows| ==> rows[i] == Row(Grouped(filtered)[i])
  {
    var grouped := Grouped(filtered);
    seq(|grouped|, i requires 0 <= i < |grouped| => Row(grouped[i]))
  }

  /** `categoryData`: filter by type, group, sort by total descending, keep ten. */
  function CategoryDataOf(ts: seq<Transaction>, f: KindFilter): seq<CategoryData>
  {
    Take(Sort(Rows(Filter(ts, Passes(f))), ByValue), 10)
  }

  /** Every row describes one category of the given transactions, and every transaction's category has a row. */
  lemma RowsSpec(filtered: seq<Transaction>)
    ensures |Rows(filtered)| == |Keys(filtered, GroupName)|
    ensures forall r :: r in Rows(filtered) ==>
              r.name in Keys(filtered, GroupName) && Describes(filtered, r.name, Acc(r.value, r.count, r.kind))
    ensures forall t :: t in filtered ==> exists r :: r in Rows(filtered) && r.name == GroupName(t)
  {
    var rows := Rows(filtered);
    var grouped := Grouped(filtered);
    GroupedSpec(filtered);
    forall r | r in rows
      ensures r.name in Keys(filtered, GroupName) && Describes(filtered, r.name, Acc(r.value, r.count, r.kind))
    {
      var i :| 0 <= i < |rows| && rows[i] == r;
      assert grouped[i].1 == Acc(r.value, r.count, r.kind);
    }
    forall t | t in filtered ensures exists r :: r in rows && r.name == GroupName(t) {
      var n :| 0 <= n < |filtered| && filtered[n] == t;
      var ks := Keys(filtered, GroupName);
      assert GroupName(filtered[n]) in ks;
      var i :| 0 <= i < |ks| && ks[i] == GroupName(t);
      assert rows[i] in rows;
    }
  }

  /** A row's type is the type of a transaction the filter let through. */
  lemma RowsAllowed(ts: seq<Transaction>, f: KindFilter)
    ensures forall r :: r in Rows(Filter(ts, Passes(f))) ==> Allows(f, r.kind)
  {
    var filtered := Filter(ts, Passes(f));
    RowsSpec(filtered);
    forall r | r in Rows(filtered) ensures Allows(f, r.kind) {
      var ms := Members(filtered, GroupName, r.name);
      assert ms[0] in ms;
      MembersIn(filtered, GroupName, r.name);
      var i :| 0 <= i < |filtered| && filtered[i] == ms[0];
      assert Passes(f)(filtered[i]);
    }
  }

  lemma ByValueTotal()
    ensures TotalPreorder(ByValue)
  {
  }

  /**
   * At most ten rows, largest totals first; each is a category of the
   * filtered transactions with its total, count and first type, of the type
   * the filter asks for.
   */
  lemma CategoryDataSpec(ts: seq<Transaction>, f: KindFilter)
    ensures var filtered := Filter(ts, Passes(f));
            var out := CategoryDataOf(ts, f);
            |out| == (if |Keys(filtered, GroupName)| < 10 then |Keys(filtered, GroupName)| else 10) &&
            SortedBy(out, ByValue) &&
            (forall r :: r in out ==>
               r.name in Keys(filtered, GroupName) &&
               Describes(filtered, r.name, Acc(r.value, r.count, r.kind)) &&
               Allows(f, r.kind))
  {
    var filtered := Filter(ts, Passes(f));
    RowsSpec(filtered);
    RowsAllowed(ts, f);
    ByValueTotal();
    TopSpec(Rows(filtered), 10, ByValue);
  }

  /** A category of the filtered transactions that is left out totals no more than any row shown, and all ten places are taken. */
  lemma LeftOutSpec(ts: seq<Transaction>, f: KindFilter, t: Transaction)
    requires t in Filter(ts, Passes(f))
    ensures var out := CategoryDataOf(ts, f);
            (exists r :: r in out && r.name == GroupName(t)) ||
            (|out| == 10 && forall r :: r in out ==> KeySum(Filter(ts, Passes(f)), GroupName, Amount, GroupName(t)) <= r.value)
  {
    var filtered := Filter(ts, Passes(f));
    var rows := Rows(filtered);
    RowsSpec(filtered);
    var r0 :| r0 in rows && r0.name == GroupName(t);
    assert r0.value == KeySum(filtered, GroupName, Amount, GroupName(t));
    LeftOutRows(rows, r0);
  }

  lemma LeftOutRows(rows: seq<CategoryData>, r0: CategoryData)
    requires r0 in rows
    ensures var out := Take(Sort(rows, ByValue), 10);
            r0 in out || (|out| == 10 && forall r :: r in out ==> r0.value <= r.value)
  {
    var out := Take(Sort(rows, ByValue), 10);
    ByValueTotal();
    TopSpec(rows, 10, ByValue);
    TopFull(rows, 10, ByValue);
    if r0 !in out {
      forall r | r in out ensures r0.value <= r.value {
        var k :| 0 <= k < |out| && out[k] == r;
        assert ByValue(out[k], out[|out| - 1]);
      }
    }
  }

  /** `totals`: income and expense over all the transactions, and their sum. */
  function Totals(ts: seq<Transaction>): (real, real, real)
  {
    var income := Sum(Filter(ts, IsIncome), Amount);
    var expense := Sum(Filter(ts, IsExpense), Amount);
    (income, expense, income + expense)
  }

  /**
   * The totals are the income and the expense of every transaction, not
   * only of the filtered ones, and their sum is the sum of all amounts.
   */
  lemma TotalsSpec(ts: seq<Transaction>)
    ensures Totals(ts).0 == IncomeTotal(ts)
    ensures Totals(ts).1 == ExpenseTotal(ts)
    ensures Totals(ts).2 == Sum(ts, Amount)
  {
    FilterIncomeTotal(ts);
    FilterExpenseTotal(ts);
    AmountsAddUp(ts);
  }
}
