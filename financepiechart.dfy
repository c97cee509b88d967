/**
 * The pie chart: one bucket per category holding the income and the
 * expense that the type filter lets through, then one slice per positive
 * bucket whose type the filter shows, named after the category and the
 * type and coloured by the type.
 */
module FinancePieChart {
  import Strs
  import opened Seqs
  import opened Ledger

  const IncomeColor: string := "#22c55e"
  const ExpenseColor: string := "#ef4444"

  /** The amount of a transaction of type `k`, and 0 for the other type. */
  function Part(k: Kind): Transaction -> real
  {
    (t: Transaction) => if t.kind == k then t.amount else 0.0
  }

  /** What a transaction adds to its category's bucket for type `k`: only when the filter allows its type. */
  function PartIn(f: KindFilter, k: Kind): Transaction -> real
  {
    (t: Transaction) => if Allows(f, t.kind) && t.kind == k then t.amount else 0.0
  }

  /** `dataMap`: a bucket for every category, in order of first appearance. */
  function DataMap(ts: seq<Transaction>, f: KindFilter): seq<(string, (real, real))>
  {
    Entries2(ts, Category, PartIn(f, Income), PartIn(f, Expense))
  }

  /** The first `forEach`: create the category's bucket, then add the amount when the filter allows its type. */
  method BuildDataMap(ts: seq<Transaction>, f: KindFilter) returns (dataMap: seq<(string, (real, real))>)
    ensures dataMap == DataMap(ts, f)
  {
    dataMap := [];
    for i := 0 to |ts|
      invariant dataMap == DataMap(ts[..i], f)
    {
      var t := ts[i];
      DataMapStep(ts, f, i);
      if f.AllKinds? || t.kind == f.kind {
        if t.kind == Income {
          dataMap := Bump2(dataMap, t.category, t.amount, 0.0);
        } else {
          dataMap := Bump2(dataMap, t.category, 0.0, t.amount);
        }
      } else {
        dataMap := Bump2(dataMap, t.category, 0.0, 0.0);
      }
    }
    assert ts[..|ts|] == ts;
  }

  /** One more transaction creates its category's bucket and adds its amount when allowed. */
  lemma DataMapStep(ts: seq<Transaction>, f: KindFilter, i: nat)
    requires i < |ts|
    ensures DataMap(ts[..i + 1], f) ==
              if Allows(f, ts[i].kind) then
                if ts[i].kind == Income then Bump2(DataMap(ts[..i], f), ts[i].category, ts[i].amount, 0.0)
                else Bump2(DataMap(ts[..i], f), ts[i].category, 0.0, ts[i].amount)
              else Bump2(DataMap(ts[..i], f), ts[i].category, 0.0, 0.0)
  {
    assert ts[..i + 1] == ts[..i] + [ts[i]];
    Bump2Entries(ts[..i], ts[i], Category, PartIn(f, Income), PartIn(f, Expense));
  }

  /** A bucket's total for type `k`. */
  function Bucket(e: (string, (real, real)), k: Kind): real
  {
    if k == Income then e.1.0 else e.1.1
  }

  /**
   * Every category has a bucket; a bucket holds its category's total for a
   * type the filter allows, and 0 for a type it does not.
   */
  lemma DataMapSpec(ts: seq<Transaction>, f: KindFilter)
    ensures |DataMap(ts, f)| == |Keys(ts, Category)|
    ensures forall i :: 0 <= i < |DataMap(ts, f)| ==> DataMap(ts, f)[i].0 == Keys(ts, Category)[i]
    ensures forall e, k :: e in DataMap(ts, f) ==>
              e.0 in Keys(ts, Category) &&
              Bucket(e, k) == (if Allows(f, k) then KeySum(ts, Category, Part(k), e.0) else 0.0)
  {
    Entries2Spec(ts, Category, PartIn(f, Income), PartIn(f, Expense));
    forall c: string, k: Kind
      ensures KeySum(ts, Category, PartIn(f, k), c) == (if Allows(f, k) then KeySum(ts, Category, Part(k), c) else 0.0)
    {
      BucketTotal(ts, f, k, c);
    }
  }

  lemma BucketTotal(ts: seq<Transaction>, f: KindFilter, k: Kind, c: string)
    ensures KeySum(ts, Category, PartIn(f, k), c) == (if Allows(f, k) then KeySum(ts, Category, Part(k), c) else 0.0)
  {
    if Allows(f, k) {
      KeySumAgree(ts, Category, PartIn(f, k), Part(k), c);
    } else {
      KeySumZero(ts, Category, PartIn(f, k), c);
    }
  }

  /** One slice of the pie. */
  datatype Slice = Slice(name: string, value: real, kind: Kind)

  function Suffix(k: Kind): string
  {
    if k == Income then " (Receita)" else " (Despesa)"
  }

  /** The slice of a bucket for type `k`. */
  function SliceFor(e: (string, (real, real)), k: Kind): Slice
  {
    Slice(e.0 + Suffix(k), Bucket(e, k), k)
  }

  /** The slices pushed for one bucket: income first, then expense, each only when positive and shown. */
  function EntrySlices(e: (string, (real, real)), f: KindFilter): seq<Slice>
  {
    (if Bucket(e, Income) > 0.0 && Allows(f, Income) then [SliceFor(e, Income)] else []) +
    (if Bucket(e, Expense) > 0.0 && Allows(f, Expense) then [SliceFor(e, Expense)] else [])
  }

  /** The slices of the buckets, bucket by bucket. */
  function SlicesOf(es: seq<(string, (real, real))>, f: KindFilter): seq<Slice>
    decreases |es|
  {
    if es == [] then [] else SlicesOf(es[..|es| - 1], f) + EntrySlices(es[|es| - 1], f)
  }

  /** The second `forEach`, pushing the slices. */
  method BuildSlices(es: seq<(string, (real, real))>, f: KindFilter) returns (data: seq<Slice>)
    ensures data == SlicesOf(es, f)
  {
    data := [];
    for i := 0 to |es|
      invariant data == SlicesOf(es[..i], f)
    {
      var category, values := es[i].0, es[i].1;
      assert es[..i + 1][..i] == es[..i];
      if values.0 > 0.0 && (f.AllKinds? || f.kind == Income) {
        data := data + [Slice(category + " (Receita)", values.0, Income)];
      }
      if values.1 > 0.0 && (f.AllKinds? || f.kind == Expense) {
        data := data + [Slice(category + " (Despesa)", values.1, Expense)];
      }
    }
    assert es[..|es|] == es;
  }

  /** A bucket's slices are its positive totals of the shown types, and it has one for each. */
  lemma EntrySlicesSpec(e: (string, (real, real)), f: KindFilter)
    ensures |EntrySlices(e, f)| <= 2
    ensures forall s :: s in EntrySlices(e, f) ==> s == SliceFor(e, s.kind) && s.value > 0.0 && Allows(f, s.kind)
    ensures forall k :: Allows(f, k) && Bucket(e, k) > 0.0 ==> SliceFor(e, k) in EntrySlices(e, f)
  {
  }

  /** Every slice is a positive bucket of a shown type, under its category's name and type suffix. */
  lemma {:induction false} SlicesFrom(es: seq<(string, (real, real))>, f: KindFilter)
    ensures |SlicesOf(es, f)| <= 2 * |es|
    ensures forall s :: s in SlicesOf(es, f) ==>
              s.value > 0.0 && Allows(f, s.kind) && exists e :: e in es && s == SliceFor(e, s.kind)
    decreases |es|
  {
    if es != [] {
      var init, last := es[..|es| - 1], es[|es| - 1];
      SlicesFrom(init, f);
      EntrySlicesSpec(last, f);
      forall s | s in SlicesOf(es, f) ensures exists e :: e in es && s == SliceFor(e, s.kind) {
        if s in SlicesOf(init, f) {
          var e :| e in init && s == SliceFor(e, s.kind);
          assert e in es;
        } else {
          assert s in EntrySlices(last, f);
          assert last in es;
        }
      }
    }
  }

  /** Every positive bucket of a shown type has its slice. */
  lemma {:induction false} SlicesCover(es: seq<(string, (real, real))>, f: KindFilter)
    ensures forall e, k :: e in es && Allows(f, k) && Bucket(e, k) > 0.0 ==> SliceFor(e, k) in SlicesOf(es, f)
    decreases |es|
  {
    if es != [] {
      var init, last := es[..|es| - 1], es[|es| - 1];
      SlicesCover(init, f);
      EntrySlicesSpec(last, f);
      forall e, k | e in es && Allows(f, k) && Bucket(e, k) > 0.0 ensures SliceFor(e, k) in SlicesOf(es, f) {
        if e != last {
          assert e in init;
        }
      }
    }
  }

  /** `data`: the slices of the buckets. */
  function PieData(ts: seq<Transaction>, f: KindFilter): seq<Slice>
  {
    SlicesOf(DataMap(ts, f), f)
  }

  /** The chart's data, computed as the component does. */
  method ChartData(ts: seq<Transaction>, f: KindFilter) returns (data: seq<Slice>)
    ensures data == PieData(ts, f)
  {
    var dataMap := BuildDataMap(ts, f);
    data := BuildSlices(dataMap, f);
  }

  /**
   * Every slice is of a type the filter shows, positive, and named after a
   * category and its type, with that category's total for the type; and
   * each category's positive total of a shown type has its slice.
   */
  lemma PieSpec(ts: seq<Transaction>, f: KindFilter)
    ensures forall s :: s in PieData(ts, f) ==>
              s.value > 0.0 && Allows(f, s.kind) &&
              exists c :: c in Keys(ts, Category) && s.name == c + Suffix(s.kind) &&
                          s.value == KeySum(ts, Category, Part(s.kind), c)
    ensures forall c, k :: c in Keys(ts, Category) && Allows(f, k) && KeySum(ts, Category, Part(k), c) > 0.0 ==>
              Slice(c + Suffix(k), KeySum(ts, Category, Part(k), c), k) in PieData(ts, f)
  {
    PieFrom(ts, f);
    PieCover(ts, f);
  }

  lemma PieFrom(ts: seq<Transaction>, f: KindFilter)
    ensures forall s :: s in PieData(ts, f) ==>
              s.value > 0.0 && Allows(f, s.kind) &&
              exists c :: c in Keys(ts, Category) && s.name == c + Suffix(s.kind) &&
                          s.value == KeySum(ts, Category, Part(s.kind), c)
  {
    var es := DataMap(ts, f);
    DataMapSpec(ts, f);
    SlicesFrom(es, f);
    forall s | s in PieData(ts, f)
      ensures exists c :: c in Keys(ts, Category) && s.name == c + Suffix(s.kind) && s.value == KeySum(ts, Category, Part(s.kind), c)
    {
      var e :| e in es && s == SliceFor(e, s.kind);
      assert e.0 in Keys(ts, Category);
    }
  }

  lemma PieCover(ts: seq<Transaction>, f: KindFilter)
    ensures forall c, k :: c in Keys(ts, Category) && Allows(f, k) && KeySum(ts, Category, Part(k), c) > 0.0 ==>
              Slice(c + Suffix(k), KeySum(ts, Category, Part(k), c), k) in PieData(ts, f)
  {
    var es, ks := DataMap(ts, f), Keys(ts, Category);
    DataMapSpec(ts, f);
    SlicesCover(es, f);
    forall c, k | c in ks && Allows(f, k) && KeySum(ts, Category, Part(k), c) > 0.0
      ensures Slice(c + Suffix(k), KeySum(ts, Category, Part(k), c), k) in PieData(ts, f)
    {
      var j :| 0 <= j < |ks| && ks[j] == c;
      assert es[j] in es;
      assert SliceFor(es[j], k) == Slice(c + Suffix(k), KeySum(ts, Category, Part(k), c), k);
    }
  }

  /** The cell colour: `entry.type === 'income' ? INCOME_COLOR : EXPENSE_COLOR`. */
  function Colour(s: Slice): string
  {
    if s.kind == Income then IncomeColor else ExpenseColor
  }

  /** A slice is green exactly when its name ends in "(Receita)", and red exactly when it ends in "(Despesa)". */
  lemma ColourSpec(ts: seq<Transaction>, f: KindFilter, s: Slice)
    requires s in PieData(ts, f)
    ensures Colour(s) == IncomeColor <==> Strs.EndsWith(s.name, " (Receita)")
    ensures Colour(s) == ExpenseColor <==> Strs.EndsWith(s.name, " (Despesa)")
  {
    PieFrom(ts, f);
    var c :| c in Keys(ts, Category) && s.name == c + Suffix(s.kind) && s.value == KeySum(ts, Category, Part(s.kind), c);
    NamedColour(s, c);
  }

  lemma NamedColour(s: Slice, c: string)
    requires s.name == c + Suffix(s.kind)
    ensures Colour(s) == IncomeColor <==> Strs.EndsWith(s.name, " (Receita)")
    ensures Colour(s) == ExpenseColor <==> Strs.EndsWith(s.name, " (Despesa)")
  {
    assert s.name[|s.name| - 10..] == Suffix(s.kind);
    assert " (Receita)"[2] != " (Despesa)"[2];
  }
}
