/**
 * The plain goal chart: for each goal, the signed sum of its linked
 * transactions and the progress percentage rounded and capped at 100 but
 * not floored, so it can be negative (or an infinity or NaN for a zero
 * target). Its labels append "%" to every value.
 */
module MetasProgress {
  import opened Ledger
  import NumFmt
  import Strs

  /** `Math.min(100, Math.round((valorAcumulado / meta.valor) * 100))`. */
  function Progress(acc: real, valor: real): NumFmt.JsNumber
  {
    NumFmt.MinWith(100.0, NumFmt.JsRound(NumFmt.Percent(acc, valor)))
  }

  /**
   * For a non-zero target the progress is a whole number at most 100,
   * within half a point of the real percentage up to 99.5% and 100 from
   * there; below -0.5% it is negative. A zero target gives 100 for a
   * positive amount, -Infinity for a negative one, and NaN for 0 / 0.
   */
  lemma ProgressSpec(acc: real, valor: real)
    ensures Progress(acc, valor).NaN? <==> acc == 0.0 && valor == 0.0
    ensures valor == 0.0 && acc > 0.0 ==> Progress(acc, valor) == NumFmt.Finite(100.0)
    ensures valor == 0.0 && acc < 0.0 ==> Progress(acc, valor) == NumFmt.NegInfinity
    ensures valor != 0.0 ==>
              var q := acc / valor * 100.0;
              var p := Progress(acc, valor);
              p.Finite? && NumFmt.IsWhole(p.value) && p.value <= 100.0 &&
              (q <= 99.5 ==> q - 0.5 < p.value <= q + 0.5) &&
              (q >= 99.5 ==> p.value == 100.0) &&
              (q < -0.5 ==> p.value < 0.0)
  {
  }

  /** The tooltip and label text: `${value}%`. */
  function Label(p: NumFmt.JsNumber): string
  {
    NumFmt.WholeText(p) + "%"
  }

  /** Every label ends in "%", and for a non-zero target it reads back as the progress. */
  lemma LabelSpec(acc: real, valor: real)
    ensures var l := Label(Progress(acc, valor)); l != [] && l[|l| - 1] == '%'
    ensures valor != 0.0 ==>
              var p := Progress(acc, valor);
              Strs.ParseInt(Label(p)) == Strs.Int(p.value.Floor) && p.value.Floor as real == p.value
  {
    var p := Progress(acc, valor);
    if valor != 0.0 {
      ProgressSpec(acc, valor);
      Strs.ParseIntIntStr(p.value.Floor, "%");
    }
  }

  /** One bar of the chart. */
  datatype GoalBar = GoalBar(nome: string, progresso: NumFmt.JsNumber, valorAcumulado: real, valor: real)

  function BarOf(ts: seq<Transaction>, m: Meta): GoalBar
  {
    var acc := Accumulated(ts, m);
    GoalBar(m.nome, Progress(acc, m.valor), acc, m.valor)
  }

  /** `data`: one bar per goal. */
  function DataOf(metas: seq<Meta>, ts: seq<Transaction>): seq<GoalBar>
  {
    seq(|metas|, i requires 0 <= i < |metas| => BarOf(ts, metas[i]))
  }

  /** One bar per goal, in goal order, with its name and target and its linked income minus linked expense. */
  lemma DataSpec(metas: seq<Meta>, ts: seq<Transaction>)
    ensures |DataOf(metas, ts)| == |metas|
    ensures forall i :: 0 <= i < |metas| ==>
              DataOf(metas, ts)[i].nome == metas[i].nome &&
              DataOf(metas, ts)[i].valor == metas[i].valor &&
              DataOf(metas, ts)[i].valorAcumulado ==
                IncomeTotal(Linked(ts, metas[i].id)) - ExpenseTotal(Linked(ts, metas[i].id)) &&
              DataOf(metas, ts)[i].progresso == Progress(DataOf(metas, ts)[i].valorAcumulado, metas[i].valor)
  {
    forall i | 0 <= i < |metas|
      ensures DataOf(metas, ts)[i].valorAcumulado ==
                IncomeTotal(Linked(ts, metas[i].id)) - ExpenseTotal(Linked(ts, metas[i].id))
    {
      AccumulatedIsNet(ts, metas[i]);
    }
  }
}
