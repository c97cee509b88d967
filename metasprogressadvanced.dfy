/**
 * The advanced goal chart: for each goal, the signed sum of its linked
 * transactions, the progress percentage rounded and clamped to 0..100, a
 * name cut to 15 characters and a status icon by progress band. Numbers
 * follow JavaScript: a zero target gives an infinity or NaN before the
 * clamps.
 */
module MetasProgressAdvanced {
  import opened Ledger
  import NumFmt
  import ExportManager

  /** `Math.min(100, Math.max(0, Math.round((valorAcumulado / meta.valor) * 100)))`. */
  function Progress(acc: real, valor: real): NumFmt.JsNumber
  {
    NumFmt.MinWith(100.0, NumFmt.MaxWith(0.0, NumFmt.JsRound(NumFmt.Percent(acc, valor))))
  }

  /**
   * The progress is a whole percentage in 0..100 within half a point of the
   * real one; above 100 it is 100 and below 0 it is 0. With a zero target
   * it is 100 for a positive amount, 0 for a negative one, and NaN only for
   * 0 / 0.
   */
  lemma ProgressSpec(acc: real, valor: real)
    ensures Progress(acc, valor).NaN? <==> acc == 0.0 && valor == 0.0
    ensures !Progress(acc, valor).NaN? ==>
              Progress(acc, valor).Finite? && 0.0 <= Progress(acc, valor).value <= 100.0 &&
              NumFmt.IsWhole(Progress(acc, valor).value)
    ensures valor == 0.0 && acc > 0.0 ==> Progress(acc, valor) == NumFmt.Finite(100.0)
    ensures valor == 0.0 && acc < 0.0 ==> Progress(acc, valor) == NumFmt.Finite(0.0)
    ensures valor != 0.0 ==>
              var q := acc / valor * 100.0;
              (0.0 <= q <= 100.0 ==> q - 0.5 < Progress(acc, valor).value <= q + 0.5) &&
              (q < 0.0 ==> Progress(acc, valor).value == 0.0) &&
              (q > 100.0 ==> Progress(acc, valor).value == 100.0)
  {
    if valor != 0.0 {
      var q := acc / valor * 100.0;
      var r := NumFmt.JsRound(NumFmt.Finite(q));
      assert NumFmt.IsWhole(r.value);
    }
  }

  /**
   * For a non-zero target the status bands are set by the rounded
   * percentage: done from 99.5%, close from 79.5%, halfway from 49.5%,
   * pending below.
   */
  lemma StatusBands(acc: real, valor: real)
    requires valor != 0.0
    ensures var q := acc / valor * 100.0;
            var s := ExportManager.StatusOf(Progress(acc, valor));
            (s == ExportManager.Reached <==> q >= 99.5) &&
            (s == ExportManager.Close <==> 79.5 <= q < 99.5) &&
            (s == ExportManager.Halfway <==> 49.5 <= q < 79.5) &&
            (s == ExportManager.Pending <==> q < 49.5)
  {
    var q := acc / valor * 100.0;
    RoundAtLeast(q, 100);
    RoundAtLeast(q, 80);
    RoundAtLeast(q, 50);
  }

  /** `Math.round(q) >= n` exactly when `q >= n - 0.5`. */
  lemma RoundAtLeast(q: real, n: int)
    ensures (q + 0.5).Floor >= n <==> q >= n as real - 0.5
  {
  }

  /** With a zero target the status is done for a positive amount and pending otherwise. */
  lemma StatusZeroTarget(acc: real)
    ensures ExportManager.StatusOf(Progress(acc, 0.0)) == if acc > 0.0 then ExportManager.Reached else ExportManager.Pending
  {
  }

  /** `meta.nome.length > 15 ? meta.nome.substring(0, 15) + '...' : meta.nome`. */
  function ShortName(nome: string): string
  {
    if |nome| > 15 then nome[..15] + "..." else nome
  }

  /** A name of up to 15 characters is kept; a longer one keeps its first 15 and gains "...", 18 in all. */
  lemma ShortNameSpec(nome: string)
    ensures |ShortName(nome)| <= 18
    ensures |nome| <= 15 ==> ShortName(nome) == nome
    ensures |nome| > 15 ==>
              |ShortName(nome)| == 18 && ShortName(nome)[..15] == nome[..15] && ShortName(nome)[15..] == "..."
  {
  }

  /** One bar of the chart. */
  datatype GoalBar = GoalBar(nome: string, progresso: NumFmt.JsNumber, valorAcumulado: real, valor: real, status: string)

  function BarOf(ts: seq<Transaction>, m: Meta): GoalBar
  {
    var acc := Accumulated(ts, m);
    var p := Progress(acc, m.valor);
    GoalBar(ShortName(m.nome), p, acc, m.valor, ExportManager.StatusIcon(ExportManager.StatusOf(p)))
  }

  /** `data`: one bar per goal. */
  function DataOf(metas: seq<Meta>, ts: seq<Transaction>): seq<GoalBar>
  {
    seq(|metas|, i requires 0 <= i < |metas| => BarOf(ts, metas[i]))
  }

  /**
   * One bar per goal, in goal order, carrying the goal's target and its
   * linked income minus linked expense; its status icon is the one of its
   * progress band.
   */
  lemma DataSpec(metas: seq<Meta>, ts: seq<Transaction>)
    ensures |DataOf(metas, ts)| == |metas|
    ensures forall i :: 0 <= i < |metas| ==>
              DataOf(metas, ts)[i].valor == metas[i].valor &&
              DataOf(metas, ts)[i].valorAcumulado ==
                IncomeTotal(Linked(ts, metas[i].id)) - ExpenseTotal(Linked(ts, metas[i].id)) &&
              DataOf(metas, ts)[i].nome == ShortName(metas[i].nome) &&
              DataOf(metas, ts)[i].progresso == Progress(DataOf(metas, ts)[i].valorAcumulado, metas[i].valor) &&
              DataOf(metas, ts)[i].status == ExportManager.StatusIcon(ExportManager.StatusOf(DataOf(metas, ts)[i].progresso))
  {
    forall i | 0 <= i < |metas|
      ensures DataOf(metas, ts)[i].valorAcumulado ==
                IncomeTotal(Linked(ts, metas[i].id)) - ExpenseTotal(Linked(ts, metas[i].id))
    {
      AccumulatedIsNet(ts, metas[i]);
    }
  }
}
