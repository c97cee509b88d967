/**
 * `src/lib/exportUtils.ts`: the "advanced" CSV (one line per transaction
 * with month, quarter and weekday columns), the report object of
 * `generatePDFReport` (totals, goals reached, signed category totals by
 * size, the month and the category with the largest spending) with the
 * figures its text shows, and the worksheet rows of `exportToExcel`.
 * The downloads are not part of this model.
 */
module ExportUtils {
  import Strs
  import Csv
  import NumFmt
  import opened Seqs
  import opened Calendar
  import opened Ledger

  // ---- exportAdvancedCSV ----

  /** `Math.ceil((date.getMonth() + 1) / 3)`. */
  function Quarter(d: Day): (q: int)
    ensures 1 <= q <= 4
    ensures q == (d.month + 2) / 3
  {
    Ceil(d.month as real / 3.0)
  }

  const Weekdays: seq<string> :=
    ["domingo", "segunda-feira", "terça-feira", "quarta-feira", "quinta-feira", "sexta-feira", "sábado"]

  /** `toLocaleDateString("pt-BR", { weekday: "long" })`. */
  function WeekdayName(d: Day): (s: string)
    ensures s == Weekdays[Weekday(d)]
  {
    Weekdays[Weekday(d)]
  }

  /** `t.metaId || "Sem meta"`. */
  function MetaLabel(metaId: Option<string>): (s: string)
    ensures metaId.None? ==> s == "Sem meta"
    ensures metaId.Some? && metaId.value != "" ==> s == metaId.value
  {
    match metaId
    case Some(id) => if id != "" then id else "Sem meta"
    case None => "Sem meta"
  }

  function QuarterLabel(d: Day): string
  {
    Strs.NatStr(Quarter(d)) + "º Trimestre " + Strs.IntStr(d.year)
  }

  const AdvancedHeader: string := "Data,Tipo,Categoria,Valor,Descrição,Meta Vinculada,Mês/Ano,Trimestre,Dia da Semana"

  /** The values of the nine columns of a transaction. */
  function AdvancedValues(t: Transaction): seq<string>
  {
    [Timestamp(t.date), KindLabel(t.kind), t.category, NumFmt.Fixed2(t.amount), t.description,
     MetaLabel(t.metaId), MonthKey(t.date), QuarterLabel(t.date), WeekdayName(t.date)]
  }

  /** The nine fields as written: category, description and goal between quotes as they are, the rest bare. */
  function AdvancedFields(t: Transaction): seq<string>
  {
    [Timestamp(t.date), KindLabel(t.kind), Csv.QuotedVerbatim(t.category), NumFmt.Fixed2(t.amount),
     Csv.QuotedVerbatim(t.description), Csv.QuotedVerbatim(MetaLabel(t.metaId)),
     MonthKey(t.date), QuarterLabel(t.date), WeekdayName(t.date)]
  }

  /** One line: the fields joined with commas. */
  function AdvancedRow(t: Transaction): string
  {
    Strs.Join(AdvancedFields(t), ",")
  }

  /** The header, then one line per transaction, joined with line breaks. */
  function AdvancedCsv(ts: seq<Transaction>): string
  {
    Strs.Join([AdvancedHeader] + seq(|ts|, i requires 0 <= i < |ts| => AdvancedRow(ts[i])), "\n")
  }

  /** The quarter label and the weekday hold no comma or quote. */
  lemma WeekdaysPlain()
    ensures forall k :: 0 <= k < |Weekdays| ==> Csv.Plain(Weekdays[k], ',')
  {
  }

  lemma QuarterLabelPlain(d: Day)
    ensures Csv.Plain(QuarterLabel(d), ',')
  {
    var q := Strs.NatStr(Quarter(d));
    var y := Strs.IntStr(d.year);
    var mid := "º Trimestre ";
    assert Csv.Plain(mid, ',');
    assert forall i :: 0 <= i < |q| ==> NumFmt.NumberChar(q[i]);
    Csv.NumberPlain(q, ',');
    Csv.NumberPlain(y, ',');
    assert QuarterLabel(d) == q + mid + y;
  }

  /** The month, quarter and weekday columns hold no comma or quote. */
  lemma LabelsPlain(d: Day)
    ensures Csv.Plain(QuarterLabel(d), ',') && Csv.Plain(WeekdayName(d), ',')
    ensures Csv.Plain(MonthKey(d), ',')
  {
    QuarterLabelPlain(d);
    WeekdaysPlain();
    Csv.IsoTextPlain(MonthKey(d), ',');
  }

  /** Nine cells with the third, fifth and sixth quoted. */
  function NineCells(a: string, b: string, c: string, d: string, e: string, f: string, g: string, h: string, i: string): seq<Csv.Cell>
  {
    [Csv.Bare(a), Csv.Bare(b), Csv.Quoted(c), Csv.Bare(d), Csv.Quoted(e), Csv.Quoted(f), Csv.Bare(g), Csv.Bare(h), Csv.Bare(i)]
  }

  lemma NineCellsTexts(a: string, b: string, c: string, d: string, e: string, f: string, g: string, h: string, i: string)
    ensures Csv.Texts(NineCells(a, b, c, d, e, f, g, h, i)) == [a, b, c, d, e, f, g, h, i]
  {
    var cells := NineCells(a, b, c, d, e, f, g, h, i);
    assert forall k :: 0 <= k < 9 ==> Csv.Texts(cells)[k] == [a, b, c, d, e, f, g, h, i][k];
  }

  lemma NineCellsRender(a: string, b: string, c: string, d: string, e: string, f: string, g: string, h: string, i: string)
    requires Csv.NoQuote(c) && Csv.NoQuote(e) && Csv.NoQuote(f)
    ensures Csv.Renders(NineCells(a, b, c, d, e, f, g, h, i)) ==
            [a, b, Csv.QuotedVerbatim(c), d, Csv.QuotedVerbatim(e), Csv.QuotedVerbatim(f), g, h, i]
  {
    Csv.QuotedNone(c);
    Csv.QuotedNone(e);
    Csv.QuotedNone(f);
    var cells := NineCells(a, b, c, d, e, f, g, h, i);
    var r := [a, b, Csv.QuotedVerbatim(c), d, Csv.QuotedVerbatim(e), Csv.QuotedVerbatim(f), g, h, i];
    assert forall k :: 0 <= k < 9 ==> Csv.Renders(cells)[k] == r[k];
  }

  /** The cells whose escaped rendering the line would be. */
  function AdvancedCells(t: Transaction): seq<Csv.Cell>
  {
    NineCells(Timestamp(t.date), KindLabel(t.kind), t.category, NumFmt.Fixed2(t.amount), t.description,
              MetaLabel(t.metaId), MonthKey(t.date), QuarterLabel(t.date), WeekdayName(t.date))
  }

  /** Every computed field is safe to write bare. */
  lemma AdvancedCellsFit(t: Transaction)
    ensures forall i :: 0 <= i < |AdvancedCells(t)| ==> Csv.Fits(AdvancedCells(t)[i], ',')
  {
    Csv.TimestampPlain(t.date, ',');
    Csv.NumberPlain(NumFmt.Fixed2(t.amount), ',');
    LabelsPlain(t.date);
    assert Csv.Plain(KindLabel(t.kind), ',');
    NineCellsFit(Timestamp(t.date), KindLabel(t.kind), t.category, NumFmt.Fixed2(t.amount), t.description,
                 MetaLabel(t.metaId), MonthKey(t.date), QuarterLabel(t.date), WeekdayName(t.date));
  }

  lemma NineCellsFit(a: string, b: string, c: string, d: string, e: string, f: string, g: string, h: string, i: string)
    requires Csv.Plain(a, ',') && Csv.Plain(b, ',') && Csv.Plain(d, ',')
    requires Csv.Plain(g, ',') && Csv.Plain(h, ',') && Csv.Plain(i, ',')
    ensures forall k :: 0 <= k < |NineCells(a, b, c, d, e, f, g, h, i)| ==> Csv.Fits(NineCells(a, b, c, d, e, f, g, h, i)[k], ',')
  {
  }

  /** Without quotes in the quoted fields, escaping them writes them as they are. */
  lemma AdvancedCellsRender(t: Transaction)
    requires Csv.NoQuote(t.category) && Csv.NoQuote(t.description) && Csv.NoQuote(MetaLabel(t.metaId))
    ensures Csv.Renders(AdvancedCells(t)) == AdvancedFields(t)
  {
    NineCellsRender(Timestamp(t.date), KindLabel(t.kind), t.category, NumFmt.Fixed2(t.amount), t.description,
                    MetaLabel(t.metaId), MonthKey(t.date), QuarterLabel(t.date), WeekdayName(t.date));
  }

  /** Where category, description and goal hold no quote, a line reads back as the nine column values. */
  lemma AdvancedRowFields(t: Transaction)
    requires Csv.NoQuote(t.category) && Csv.NoQuote(t.description) && Csv.NoQuote(MetaLabel(t.metaId))
    ensures Csv.ParseRow(AdvancedRow(t), ',') == AdvancedValues(t)
  {
    var cells := AdvancedCells(t);
    AdvancedCellsFit(t);
    AdvancedCellsRender(t);
    assert [','] == ",";
    Csv.JoinRoundTrip(cells, ',');
    NineCellsTexts(Timestamp(t.date), KindLabel(t.kind), t.category, NumFmt.Fixed2(t.amount), t.description,
                   MetaLabel(t.metaId), MonthKey(t.date), QuarterLabel(t.date), WeekdayName(t.date));
  }

  /** Consecutive days fall on consecutive weekdays. */
  lemma WeekdayNameNext(d: Day)
    ensures WeekdayName(NextDay(d)) == Weekdays[(Weekday(d) + 1) % 7]
  {
    WeekdayNext(d);
  }

  // ---- generatePDFReport ----

  datatype Resumo = Resumo(totalTransacoes: nat, totalReceitas: real, totalDespesas: real, saldoFinal: real,
                           metasCriadas: nat, metasAtingidas: nat)

  datatype Tendencias = Tendencias(mesComMaiorGasto: string, categoriaComMaiorGasto: string)

  datatype PdfReport = PdfReport(titulo: string, periodo: string, resumo: Resumo,
                                 categorias: seq<(string, real)>, tendencias: Tendencias)

  /** `date.slice(0, 7)`. */
  function Month(t: Transaction): string { MonthKey(t.date) }

  /** `Math.abs(b) - Math.abs(a)` as a comparator: larger magnitudes first. */
  function ByMagnitudeDesc(a: (string, real), b: (string, real)): bool
  {
    (if a.1 < 0.0 then -a.1 else a.1) >= (if b.1 < 0.0 then -b.1 else b.1)
  }

  /** Signed totals per category (income adds, expense subtracts), in order of first appearance. */
  function SignedByCategory(ts: seq<Transaction>): seq<(string, real)>
  {
    Entries(ts, Category, Signed)
  }

  /** Expense totals per month (`YYYY-MM`). */
  function ExpenseByMonth(ts: seq<Transaction>): seq<(string, real)>
  {
    Entries(Filter(ts, IsExpense), Month, Amount)
  }

  /** The first entry after a stable sort by value, descending: the first largest one. */
  function Largest(es: seq<(string, real)>): (r: Option<(string, real)>)
    ensures r.None? <==> es == []
    ensures r.Some? ==> r.value in es && forall e :: e in es ==> e.1 <= r.value.1
    ensures r.Some? ==> exists i :: 0 <= i < |es| && es[i] == r.value && FirstLargest(es, i)
  {
    TopByValueSpec(es, 1);
    TopByValueFirst(es, 1);
    var top := TopByValue(es, 1);
    if top == [] then None else Some(top[0])
  }

  /** `key: R$ value`, or "N/A" when there is nothing. */
  function LargestText(r: Option<(string, real)>): string
  {
    match r
    case None => "N/A"
    case Some((k, v)) => k + ": R$ " + NumFmt.Fixed2(v)
  }

  /** `transactions[0]?.date || "N/A"`. */
  function DateOrNA(ts: seq<Transaction>, first: bool): string
  {
    if ts == [] then "N/A" else Timestamp(if first then ts[0].date else ts[|ts| - 1].date)
  }

  /** The `resumo` object: counts, totals and the goals reached. */
  function ResumoOf(ts: seq<Transaction>, metas: seq<Meta>): (r: Resumo)
    ensures r.totalTransacoes == |ts| && r.metasCriadas == |metas|
    ensures r.totalReceitas == IncomeTotal(ts) && r.totalDespesas == ExpenseTotal(ts)
    ensures r.saldoFinal == Net(ts) == r.totalReceitas - r.totalDespesas
    ensures r.metasAtingidas == ReachedCount(metas, ts) <= r.metasCriadas
  {
    FilterIncomeTotal(ts);
    FilterExpenseTotal(ts);
    NetIsIncomeMinusExpense(ts);
    CountFilter(metas, m => Accumulated(ts, m) >= m.valor);
    Resumo(|ts|, Sum(Filter(ts, IsIncome), Amount), Sum(Filter(ts, IsExpense), Amount), Sum(ts, Signed),
           |metas|, |Filter(metas, m => Accumulated(ts, m) >= m.valor)|)
  }

  /** The `report` object of `generatePDFReport(transactions, metas)`. */
  function PdfReportOf(ts: seq<Transaction>, metas: seq<Meta>): PdfReport
  {
    PdfReport(
      "Relatório Financeiro Executivo",
      DateOrNA(ts, true) + " até " + DateOrNA(ts, false),
      ResumoOf(ts, metas),
      Sort(SignedByCategory(ts), ByMagnitudeDesc),
      TendenciasOf(ts))
  }

  /** The `tendencias` object: the month and the category with the largest spending. */
  function TendenciasOf(ts: seq<Transaction>): Tendencias
  {
    Tendencias(LargestText(Largest(ExpenseByMonth(ts))), LargestText(Largest(ExpenseByCategory(ts))))
  }

  /** The categories: every signed category total once, largest magnitude first, adding up to the final balance. */
  lemma CategoriasSpec(ts: seq<Transaction>, metas: seq<Meta>)
    ensures SortedBy(PdfReportOf(ts, metas).categorias, ByMagnitudeDesc)
    ensures multiset(PdfReportOf(ts, metas).categorias) == multiset(SignedByCategory(ts))
    ensures SumValues(PdfReportOf(ts, metas).categorias) == PdfReportOf(ts, metas).resumo.saldoFinal
  {
    assert TotalPreorder(ByMagnitudeDesc);
    SortSorted(SignedByCategory(ts), ByMagnitudeDesc);
    EntriesTotal(ts, Category, Signed);
    SumValuesPerm(PdfReportOf(ts, metas).categorias, SignedByCategory(ts));
  }

  /** "N/A" stands exactly for the missing entry. */
  lemma LargestTextNA(r: Option<(string, real)>)
    ensures LargestText(r) == "N/A" <==> r.None?
  {
    if r.Some? {
      assert |LargestText(r)| >= 5;
    }
  }

  /** There is a month total exactly when there is an expense. */
  lemma ExpenseByMonthEmpty(ts: seq<Transaction>)
    ensures ExpenseByMonth(ts) == [] <==> forall t :: t in ts ==> !IsExpense(t)
  {
    var fs := Filter(ts, IsExpense);
    FilterSpec(ts, IsExpense);
    if fs != [] {
      assert Month(fs[0]) in Keys(fs, Month);
    }
  }

  /** Each trend is "N/A" exactly when there is no expense. */
  lemma TendenciasNA(ts: seq<Transaction>)
    ensures TendenciasOf(ts).mesComMaiorGasto == "N/A" <==> forall x :: x in ts ==> !IsExpense(x)
    ensures TendenciasOf(ts).categoriaComMaiorGasto == "N/A" <==> forall x :: x in ts ==> !IsExpense(x)
  {
    LargestTextNA(Largest(ExpenseByMonth(ts)));
    LargestTextNA(Largest(ExpenseByCategory(ts)));
    ExpenseByMonthEmpty(ts);
    ExpenseByCategoryEmpty(ts);
  }

  /** `saldoFinal / Math.max(totalReceitas, 1) * 100`. */
  function SavingsRate(r: Resumo): (p: real)
    ensures r.totalReceitas >= 1.0 ==> p == r.saldoFinal / r.totalReceitas * 100.0
    ensures r.totalReceitas < 1.0 ==> p == r.saldoFinal * 100.0
  {
    r.saldoFinal / (if r.totalReceitas > 1.0 then r.totalReceitas else 1.0) * 100.0
  }

  /** The distinct months that have a transaction of either kind (`new Set(... date.slice(0, 7))`). */
  function ActiveMonths(ts: seq<Transaction>): seq<string>
  {
    Keys(ts, Month)
  }

  /** `totalDespesas / Math.max(months, 1)`. */
  function MonthlyAverage(ts: seq<Transaction>, totalDespesas: real): real
  {
    var months := |ActiveMonths(ts)|;
    totalDespesas / (if months > 1 then months as real else 1.0)
  }

  /** With transactions, the average is the total over the number of distinct months (never more than the transactions); without, it is the total itself. */
  lemma MonthlyAverageSpec(ts: seq<Transaction>, totalDespesas: real)
    ensures ts != [] ==> 1 <= |ActiveMonths(ts)| && MonthlyAverage(ts, totalDespesas) == totalDespesas / |ActiveMonths(ts)| as real
    ensures ts == [] ==> MonthlyAverage(ts, totalDespesas) == totalDespesas
    ensures |ActiveMonths(ts)| <= |ts|
  {
    if ts != [] {
      assert Month(ts[0]) in ActiveMonths(ts);
    }
  }

  /** A part over a positive whole lies between 0 and 1. */
  lemma Fraction(part: real, whole: real)
    requires 0.0 <= part <= whole && whole > 0.0
    ensures 0.0 <= part / whole <= 1.0
  {
    var q := NumFmt.Quotient(part, whole);
  }

  /** `Math.round(metasAtingidas / Math.max(metasCriadas, 1) * 100)`. */
  function GoalEffectiveness(r: Resumo): (p: int)
    requires r.metasAtingidas <= r.metasCriadas
    ensures 0 <= p <= 100
    ensures r.metasCriadas > 0 && r.metasAtingidas == r.metasCriadas ==> p == 100
    ensures r.metasAtingidas == 0 ==> p == 0
  {
    var criadas := if r.metasCriadas > 1 then r.metasCriadas else 1;
    var q := r.metasAtingidas as real / criadas as real;
    Fraction(r.metasAtingidas as real, criadas as real);
    assert r.metasCriadas > 0 && r.metasAtingidas == r.metasCriadas ==> q * 100.0 == 100.0;
    Round(q * 100.0)
  }

  // ---- exportToExcel ----

  /** A worksheet cell: text, or a number written with JavaScript's number-to-text conversion. */
  datatype SheetCell = Text(text: string) | Number(value: real)

  /** `Math.round(x)` as text, including the infinities and NaN. */
  function RoundText(x: NumFmt.JsNumber): string
  {
    match x
    case Finite(v) => Strs.IntStr(Round(v))
    case PosInfinity => "Infinity"
    case NegInfinity => "-Infinity"
    case NaN => "NaN"
  }

  function TransactionSheetRow(t: Transaction): (row: seq<SheetCell>)
    ensures |row| == 6
  {
    [Text(Timestamp(t.date)), Text(KindLabel(t.kind)), Text(t.category), Number(t.amount), Text(t.description),
     Text(MetaLabel(t.metaId))]
  }

  /** A category's signed total and its magnitude as a share of the sum of all amounts, income and expense alike. */
  function CategorySheetRow(e: (string, real), allAmounts: real): (row: seq<SheetCell>)
    ensures |row| == 3
  {
    [Text(e.0), Text(NumFmt.Fixed2(e.1)),
     Text(NumFmt.PercentText(if e.1 < 0.0 then -e.1 else e.1, allAmounts) + "%")]
  }

  function MetaSheetRow(m: Meta, ts: seq<Transaction>): (row: seq<SheetCell>)
    ensures |row| == 4
  {
    var acc := Accumulated(ts, m);
    [Text(m.nome), Text(NumFmt.Fixed2(m.valor)), Text(NumFmt.Fixed2(acc)),
     Text(RoundText(NumFmt.Percent(acc, m.valor)) + "%")]
  }

  const SheetTop: seq<seq<SheetCell>> :=
    [[Text("RELATÓRIO FINANCEIRO - DADOS COMPLETOS")], [Text("")], [Text("=== TRANSAÇÕES ===")],
     [Text("Data"), Text("Tipo"), Text("Categoria"), Text("Valor"), Text("Descrição"), Text("Meta")]]
  const CategoriesTop: seq<seq<SheetCell>> :=
    [[Text("")], [Text("=== RESUMO POR CATEGORIA ===")], [Text("Categoria"), Text("Valor Total"), Text("Percentual")]]
  const GoalsTop: seq<seq<SheetCell>> :=
    [[Text("")], [Text("=== METAS ===")], [Text("Meta"), Text("Valor Objetivo"), Text("Valor Atual"), Text("Progresso")]]

  function TransactionRows(ts: seq<Transaction>): (rows: seq<seq<SheetCell>>)
    ensures |rows| == |ts| && forall i :: 0 <= i < |ts| ==> rows[i] == TransactionSheetRow(ts[i])
  {
    seq(|ts|, i requires 0 <= i < |ts| => TransactionSheetRow(ts[i]))
  }

  /** Each category's row, the share taken of the sum of all amounts. */
  function CategoryRows(ts: seq<Transaction>): (rows: seq<seq<SheetCell>>)
    ensures |rows| == |SignedByCategory(ts)|
    ensures forall i :: 0 <= i < |rows| ==> rows[i] == CategorySheetRow(SignedByCategory(ts)[i], Sum(ts, Amount))
  {
    var cats := SignedByCategory(ts);
    seq(|cats|, i requires 0 <= i < |cats| => CategorySheetRow(cats[i], Sum(ts, Amount)))
  }

  function GoalRows(metas: seq<Meta>, ts: seq<Transaction>): (rows: seq<seq<SheetCell>>)
    ensures |rows| == |metas| && forall i :: 0 <= i < |metas| ==> rows[i] == MetaSheetRow(metas[i], ts)
  {
    seq(|metas|, i requires 0 <= i < |metas| => MetaSheetRow(metas[i], ts))
  }

  /** The `worksheetData` rows. */
  function Worksheet(ts: seq<Transaction>, metas: seq<Meta>): seq<seq<SheetCell>>
  {
    Sheet(TransactionRows(ts), CategoryRows(ts), GoalRows(metas, ts))
  }

  /** The headings with the three blocks of rows between them. */
  function Sheet(tr: seq<seq<SheetCell>>, cr: seq<seq<SheetCell>>, gr: seq<seq<SheetCell>>): seq<seq<SheetCell>>
  {
    SheetTop + (tr + (CategoriesTop + (cr + (GoalsTop + gr))))
  }

  /** The sheet holds four heading rows, the transaction rows, three heading rows, the category rows, three more and the goal rows, in that order. */
  lemma SheetLayout(tr: seq<seq<SheetCell>>, cr: seq<seq<SheetCell>>, gr: seq<seq<SheetCell>>)
    ensures |Sheet(tr, cr, gr)| == 10 + |tr| + |cr| + |gr|
    ensures Sheet(tr, cr, gr)[..4] == SheetTop
    ensures Sheet(tr, cr, gr)[4..4 + |tr|] == tr
    ensures Sheet(tr, cr, gr)[7 + |tr|..7 + |tr| + |cr|] == cr
    ensures Sheet(tr, cr, gr)[10 + |tr| + |cr|..] == gr
  {
    var w := Sheet(tr, cr, gr);
    assert |SheetTop| == 4 && |CategoriesTop| == 3 && |GoalsTop| == 3;
    assert w[4..] == tr + (CategoriesTop + (cr + (GoalsTop + gr)));
    assert w[4 + |tr|..] == CategoriesTop + (cr + (GoalsTop + gr));
    assert w[7 + |tr|..] == cr + (GoalsTop + gr);
    assert w[7 + |tr| + |cr|..] == GoalsTop + gr;
  }

  /** Every cell written between quotes as it is, cells joined with commas and rows with line breaks. */
  function WorksheetCsv(w: seq<seq<SheetCell>>, numberText: real -> string): string
  {
    Strs.Join(seq(|w|, i requires 0 <= i < |w| =>
      Strs.Join(seq(|w[i]|, j requires 0 <= j < |w[i]| =>
        Csv.QuotedVerbatim(match w[i][j] case Text(s) => s case Number(x) => numberText(x))), ",")), "\n")
  }
}
