/**
 * The balance forecast chart: the months that have transactions, sorted,
 * each with its own signed balance and the running balance up to and
 * including it.
 */
module SaldoPrevisao {
  import opened Seqs
  import opened Ledger
  import opened Calendar
  import Strs
  import FinanceLineChart

  /** `t.date.slice(0, 7)`. */
  function MonthOf(t: Transaction): string
  {
    FinanceLineChart.MonthOf(t)
  }

  /** `meses`: the distinct month prefixes, sorted. */
  function Meses(ts: seq<Transaction>): seq<string>
  {
    Sort(Keys(ts, MonthOf), Strs.StrLe)
  }

  /** A month's signed balance, as a function of the month. */
  function Balance(ts: seq<Transaction>): string -> real
  {
    KeyTotal(ts, MonthOf, Signed)
  }

  /** The running balance after the first `i + 1` months. */
  function Acumulado(ts: seq<Transaction>, i: nat): real
    requires i < |Meses(ts)|
  {
    Sum(Meses(ts)[..i + 1], Balance(ts))
  }

  /** One point: the month, the running balance and the month's own balance. */
  datatype Point = Point(mes: string, acumulado: real, saldoMes: real)

  /** The `j`-th point for the months `ms`. */
  function PointAt(ts: seq<Transaction>, ms: seq<string>, j: nat): Point
    requires j < |ms|
  {
    Point(ms[j], Sum(ms[..j + 1], Balance(ts)), KeySum(ts, MonthOf, Signed, ms[j]))
  }

  /** `data`: the sorted months, then the `map` over them. */
  method SaldoPrevisaoData(ts: seq<Transaction>) returns (data: seq<Point>)
    ensures |data| == |Meses(ts)|
    ensures forall i :: 0 <= i < |data| ==>
              data[i] == Point(Meses(ts)[i], Acumulado(ts, i), KeySum(ts, MonthOf, Signed, Meses(ts)[i]))
  {
    var meses := Sort(Keys(ts, MonthOf), Strs.StrLe);
    data := Accumulate(ts, meses);
  }

  /** The `map` whose callback adds each month's balance to `saldoAcumulado`. */
  method Accumulate(ts: seq<Transaction>, meses: seq<string>) returns (data: seq<Point>)
    ensures |data| == |meses|
    ensures forall j :: 0 <= j < |data| ==> data[j] == PointAt(ts, meses, j)
  {
    var saldoAcumulado := 0.0;
    data := [];
    for i := 0 to |meses|
      invariant |data| == i
      invariant saldoAcumulado == Sum(meses[..i], Balance(ts))
      invariant forall j :: 0 <= j < i ==> data[j] == PointAt(ts, meses, j)
    {
      var mes := meses[i];
      var saldoMes := Sum(Members(ts, MonthOf, mes), Signed);
      MembersSum(ts, MonthOf, Signed, mes);
      SumPrefixStep(meses, i, Balance(ts));
      saldoAcumulado := saldoAcumulado + saldoMes;
      assert Point(mes, saldoAcumulado, saldoMes) == PointAt(ts, meses, i);
      data := data + [Point(mes, saldoAcumulado, saldoMes)];
    }
  }

  /** The months are exactly the months of the transactions, each once, in strictly ascending order. */
  lemma MesesSpec(ts: seq<Transaction>)
    ensures |Meses(ts)| == |Keys(ts, MonthOf)| <= |ts|
    ensures forall m :: m in Meses(ts) <==> exists t :: t in ts && MonthOf(t) == m
    ensures forall i, j :: 0 <= i < j < |Meses(ts)| ==> Strs.StrLe(Meses(ts)[i], Meses(ts)[j]) && Meses(ts)[i] != Meses(ts)[j]
  {
    Strs.StrLeOrder();
    SortKeysSpec(ts, MonthOf, Strs.StrLe);
  }

  /** The first running balance is the first month's balance; each next one adds that month's balance. */
  lemma AcumuladoStep(ts: seq<Transaction>, i: nat)
    requires i < |Meses(ts)|
    ensures Acumulado(ts, i) ==
              (if i == 0 then 0.0 else Acumulado(ts, i - 1)) + KeySum(ts, MonthOf, Signed, Meses(ts)[i])
  {
    var ms := Meses(ts);
    SumPrefixStep(ms, i, Balance(ts));
    if i > 0 {
      assert ms[..i - 1 + 1] == ms[..i];
    }
  }

  /** The last running balance is the signed sum of all the transactions. */
  lemma FinalBalance(ts: seq<Transaction>)
    requires ts != []
    ensures |Meses(ts)| > 0 && Acumulado(ts, |Meses(ts)| - 1) == Net(ts)
  {
    var ks, ms := Keys(ts, MonthOf), Meses(ts);
    assert MonthOf(ts[0]) in ks;
    assert ms[..|ms|] == ms;
    SumPerm(ms, ks, Balance(ts));
    SumKeysIsSum(ks, ts, MonthOf, Signed);
    GroupTotalsSum(ts, MonthOf, Signed);
  }

  /** With four-digit years, a later point's month is a later calendar month. */
  lemma Chronological(ts: seq<Transaction>, i: nat, j: nat, a: Transaction, b: Transaction)
    requires forall t :: t in ts ==> 0 <= t.date.year <= 9999
    requires i < j < |Meses(ts)| && a in ts && b in ts
    requires MonthOf(a) == Meses(ts)[i] && MonthOf(b) == Meses(ts)[j]
    ensures a.date.year < b.date.year || (a.date.year == b.date.year && a.date.month < b.date.month)
  {
    MesesSpec(ts);
    MonthKeyOrder(a.date, b.date);
  }
}
