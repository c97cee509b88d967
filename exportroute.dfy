/**
 * `src/app/api/export/route.ts`: the server export of a user's data. The
 * query chooses a period (relative to today, custom, or everything) and a
 * format: a CSV file with totals, one row per transaction and one per goal;
 * a plain-text executive report; or a JSON backup. The session lookup is
 * the boolean `authenticated`, the database reads are the user's stored
 * transactions and goals, and the clock is `now` / `generatedAt`.
 */
module ExportRoute {
  import Strs
  import opened Seqs
  import opened Calendar
  import opened Ledger
  import NumFmt
  import Csv

  // ---- computeDateRange ----

  /** The bounds of the export window, each optional. */
  datatype DateRange = DateRange(startDate: Option<Day>, endDate: Option<Day>)

  /** How many months back a relative period reaches; `None` for "all", "custom" and unknown values. */
  function RelativeMonths(period: string): (k: Option<nat>)
    ensures k.Some? ==> k.value in {1, 3, 6, 12}
  {
    if period == "1m" then Some(1)
    else if period == "3m" then Some(3)
    else if period == "6m" then Some(6)
    else if period == "1y" then Some(12)
    else None
  }

  /**
   * `computeDateRange(period, start, end)`. A relative period ends today and
   * starts the same day `k` months earlier; "custom" uses the two given
   * dates only when both are present; anything else is unbounded.
   */
  function ComputeDateRange(period: string, start: Option<Day>, end: Option<Day>, now: Day): (r: DateRange)
    ensures RelativeMonths(period).Some? ==>
              r.endDate == Some(now) && r.startDate == Some(MonthsBefore(now, RelativeMonths(period).value))
    ensures RelativeMonths(period).Some? ==> Lt(r.startDate.value, now)
    ensures period == "custom" && start.Some? && end.Some? ==> r == DateRange(start, end)
    ensures period == "custom" && (start.None? || end.None?) ==> r == DateRange(None, None)
    ensures RelativeMonths(period).None? && period != "custom" ==> r == DateRange(None, None)
  {
    if period == "1m" then
      MonthsBeforeEarlier(now, 1);
      DateRange(Some(MakeDate(now.year, now.month - 1 - 1, now.day)), Some(now))
    else if period == "3m" then
      MonthsBeforeEarlier(now, 3);
      DateRange(Some(MakeDate(now.year, now.month - 1 - 3, now.day)), Some(now))
    else if period == "6m" then
      MonthsBeforeEarlier(now, 6);
      DateRange(Some(MakeDate(now.year, now.month - 1 - 6, now.day)), Some(now))
    else if period == "1y" then
      YearBefore(now);
      MonthsBeforeEarlier(now, 12);
      DateRange(Some(MakeDate(now.year - 1, now.month - 1, now.day)), Some(now))
    else if period == "custom" && start.Some? && end.Some? then
      DateRange(start, end)
    else
      DateRange(None, None)
  }

  // ---- the database query ----

  /** The `date` condition of the `where` clause. */
  datatype DateFilter = Unfiltered | Between(gte: Option<Day>, lte: Option<Day>)

  /** A date condition is added only when the range has a bound. */
  function WhereDate(r: DateRange): (w: DateFilter)
    ensures w.Unfiltered? <==> r.startDate.None? && r.endDate.None?
    ensures w.Between? ==> w.gte == r.startDate && w.lte == r.endDate
  {
    if r.startDate.Some? || r.endDate.Some? then Between(r.startDate, r.endDate) else Unfiltered
  }

  predicate Selects(w: DateFilter, t: Transaction)
  {
    match w
    case Unfiltered => true
    case Between(gte, lte) =>
      (gte.None? || Le(gte.value, t.date)) && (lte.None? || Le(t.date, lte.value))
  }

  /** `orderBy: { date: "asc" }`. */
  function DateLe(a: Transaction, b: Transaction): bool { Le(a.date, b.date) }

  lemma DateLeTotalPreorder()
    ensures TotalPreorder(DateLe)
  {
    forall a: Transaction, b: Transaction ensures DateLe(a, b) || DateLe(b, a) {
      LeTotal(a.date, b.date);
    }
    forall a: Transaction, b: Transaction, c: Transaction | DateLe(a, b) && DateLe(b, c) ensures DateLe(a, c) {
      LeTrans(a.date, b.date, c.date);
    }
  }

  /** `prisma.transaction.findMany({ where, orderBy: { date: "asc" } })` over the user's stored transactions. */
  function Fetch(stored: seq<Transaction>, w: DateFilter): seq<Transaction>
  {
    Sort(Filter(stored, (t: Transaction) => Selects(w, t)), DateLe)
  }

  /** The query returns exactly the stored transactions the filter selects, each as often as stored, oldest first. */
  lemma FetchSpec(stored: seq<Transaction>, w: DateFilter)
    ensures SortedBy(Fetch(stored, w), DateLe)
    ensures multiset(Fetch(stored, w)) == multiset(Filter(stored, (t: Transaction) => Selects(w, t)))
    ensures forall t :: t in Fetch(stored, w) <==> t in stored && Selects(w, t)
  {
    var p := (t: Transaction) => Selects(w, t);
    DateLeTotalPreorder();
    SortSorted(Filter(stored, p), DateLe);
    FilterSpec(stored, p);
    forall t ensures t in Fetch(stored, w) <==> t in Filter(stored, p) {
      assert t in Fetch(stored, w) <==> t in multiset(Fetch(stored, w));
      assert t in Filter(stored, p) <==> t in multiset(Filter(stored, p));
    }
  }

  /** With a relative period, every exported transaction lies between the start date and today. */
  lemma RelativeWindow(period: string, start: Option<Day>, end: Option<Day>, now: Day, stored: seq<Transaction>, t: Transaction)
    requires RelativeMonths(period).Some?
    requires t in Fetch(stored, WhereDate(ComputeDateRange(period, start, end, now)))
    ensures Le(MonthsBefore(now, RelativeMonths(period).value), t.date) && Le(t.date, now)
    ensures t in stored
  {
    FetchSpec(stored, WhereDate(ComputeDateRange(period, start, end, now)));
  }

  // ---- shared totals ----

  /** The filter-and-reduce totals of income and expense, and the balance. */
  function Totals(ts: seq<Transaction>): (r: (real, real, real))
    ensures r.0 == IncomeTotal(ts) && r.1 == ExpenseTotal(ts)
    ensures r.2 == Net(ts)
  {
    FilterIncomeTotal(ts);
    FilterExpenseTotal(ts);
    NetIsIncomeMinusExpense(ts);
    var receitas := Sum(Filter(ts, IsIncome), Amount);
    var despesas := Sum(Filter(ts, IsExpense), Amount);
    (receitas, despesas, receitas - despesas)
  }

  // ---- buildCSV ----

  /** `csvEscape(value)`: "" for a missing value, else the text quoted with inner quotes doubled. */
  function CsvEscape(value: Option<string>): (r: string)
    ensures value.None? ==> r == ""
    ensures value.Some? ==> |r| == |value.value| + Strs.CountChar(value.value, '"') + 2
    ensures value.Some? ==> r[0] == '"' && Csv.ReadQuoted(r[1..]) == (value.value, "")
  {
    match value
    case None => ""
    case Some(s) =>
      var r := Csv.Render(Csv.Quoted(s));
      assert r[1..] == Csv.DoubleQuotes(s) + "\"";
      Csv.UndoubleInside(s);
      r
  }

  /** `t.installments ?? ""`. */
  function InstallmentsText(n: Option<int>): string
  {
    match n
    case None => ""
    case Some(k) => NumFmt.IntText(k)
  }

  /** The eight cells of a transaction row: Data, Tipo, Categoria, Descrição, Valor, Meta, Parcelas, Recorrencia. */
  function RowCells(t: Transaction, metas: seq<Meta>): seq<Csv.Cell>
  {
    [Csv.Bare(Timestamp(t.date)), Csv.Bare(KindLabel(t.kind)), Csv.Quoted(t.category),
     Csv.Quoted(t.description), Csv.Bare(NumFmt.Fixed2(t.amount)), Csv.Quoted(MetaName(metas, t.metaId)),
     Csv.Bare(InstallmentsText(t.installments)), Csv.Quoted(t.recurrence)]
  }

  /** The bare fields of a transaction row hold no comma or quote. */
  lemma BarePartsPlain(t: Transaction)
    ensures Csv.Plain(Timestamp(t.date), ',') && Csv.Plain(KindLabel(t.kind), ',')
    ensures Csv.Plain(NumFmt.Fixed2(t.amount), ',') && Csv.Plain(InstallmentsText(t.installments), ',')
  {
    Csv.TimestampPlain(t.date, ',');
    Csv.NumberPlain(NumFmt.Fixed2(t.amount), ',');
    Csv.NumberPlain(InstallmentsText(t.installments), ',');
  }

  /** Eight cells, the first, second, fifth and seventh bare and free of commas and quotes, read back as their texts. */
  lemma EightCellsBack(a: string, b: string, c: string, d: string, e: string, f: string, g: string, h: string)
    requires Csv.Plain(a, ',') && Csv.Plain(b, ',') && Csv.Plain(e, ',') && Csv.Plain(g, ',')
    ensures Csv.ParseRow(Csv.RowText([Csv.Bare(a), Csv.Bare(b), Csv.Quoted(c), Csv.Quoted(d), Csv.Bare(e), Csv.Quoted(f), Csv.Bare(g), Csv.Quoted(h)], ','), ',')
            == [a, b, c, d, e, f, g, h]
  {
    var cells := [Csv.Bare(a), Csv.Bare(b), Csv.Quoted(c), Csv.Quoted(d), Csv.Bare(e), Csv.Quoted(f), Csv.Bare(g), Csv.Quoted(h)];
    assert forall i :: 0 <= i < |cells| ==> Csv.Fits(cells[i], ',');
    Csv.RowRoundTrip(cells, ',');
  }

  /** One transaction row: the cells, rendered and joined with commas. */
  function TransactionRow(t: Transaction, metas: seq<Meta>): string
  {
    Csv.RowText(RowCells(t, metas), ',')
  }

  /** Reading a transaction row back gives its eight field values, whatever quotes or commas the free-text fields hold. */
  lemma TransactionRowFields(t: Transaction, metas: seq<Meta>)
    ensures Csv.ParseRow(TransactionRow(t, metas), ',') ==
            [Timestamp(t.date), KindLabel(t.kind), t.category, t.description,
             NumFmt.Fixed2(t.amount), MetaName(metas, t.metaId), InstallmentsText(t.installments), t.recurrence]
  {
    BarePartsPlain(t);
    EightCellsBack(Timestamp(t.date), KindLabel(t.kind), t.category, t.description,
                   NumFmt.Fixed2(t.amount), MetaName(metas, t.metaId), InstallmentsText(t.installments), t.recurrence);
  }

  function MetaCells(m: Meta, ts: seq<Transaction>): seq<Csv.Cell>
  {
    var acc := Accumulated(ts, m);
    [Csv.Quoted(m.nome), Csv.Bare(NumFmt.Fixed2(m.valor)), Csv.Bare(NumFmt.Fixed2(acc)),
     Csv.Bare(NumFmt.PercentText(acc, m.valor) + "%")]
  }

  /** One goal row: name, target, accumulated amount and progress percentage. */
  function MetaRow(m: Meta, ts: seq<Transaction>): string
  {
    Csv.RowText(MetaCells(m, ts), ',')
  }

  /** A goal row reads back as the name, the target, the accumulated amount and the progress. */
  lemma MetaRowTexts(m: Meta, ts: seq<Transaction>)
    ensures Csv.ParseRow(MetaRow(m, ts), ',') ==
            [m.nome, NumFmt.Fixed2(m.valor), NumFmt.Fixed2(Accumulated(ts, m)),
             NumFmt.PercentText(Accumulated(ts, m), m.valor) + "%"]
  {
    var acc := Accumulated(ts, m);
    var b, c, d := NumFmt.Fixed2(m.valor), NumFmt.Fixed2(acc), NumFmt.PercentText(acc, m.valor) + "%";
    Csv.NumberPlain(b, ',');
    Csv.NumberPlain(c, ',');
    Csv.PercentPlain(acc, m.valor, ',');
    assert MetaCells(m, ts) == [Csv.Quoted(m.nome), Csv.Bare(b), Csv.Bare(c), Csv.Bare(d)];
    FourCellsBack(m.nome, b, c, d);
  }

  /** Four cells, the first quoted and the others bare and free of commas and quotes, read back as their texts. */
  lemma FourCellsBack(a: string, b: string, c: string, d: string)
    requires Csv.Plain(b, ',') && Csv.Plain(c, ',') && Csv.Plain(d, ',')
    ensures Csv.ParseRow(Csv.RowText([Csv.Quoted(a), Csv.Bare(b), Csv.Bare(c), Csv.Bare(d)], ','), ',') == [a, b, c, d]
  {
    var cells := [Csv.Quoted(a), Csv.Bare(b), Csv.Bare(c), Csv.Bare(d)];
    assert forall i :: 0 <= i < |cells| ==> Csv.Fits(cells[i], ',');
    Csv.RowRoundTrip(cells, ',');
  }

  function CsvHeader(ts: seq<Transaction>): string
  {
    var (receitas, despesas, saldo) := Totals(ts);
    CsvTitle
    + CsvIncome + NumFmt.Fixed2(receitas) + "\n"
    + CsvExpense + NumFmt.Fixed2(despesas) + "\n"
    + CsvBalance + NumFmt.Fixed2(saldo) + "\n\n"
    + TransactionsHeader
  }

  const CsvTitle: string := "# RELATORIO FINANCEIRO\n"
  const CsvIncome: string := "# Total Receitas: "
  const CsvExpense: string := "# Total Despesas: "
  const CsvBalance: string := "# Saldo: "
  const TransactionsHeader: string := "TRANSAÇOES\nData,Tipo,Categoria,Descrição,Valor,Meta,Parcelas,Recorrencia\n"

  const MetasHeader: string := "\nMETAS\nNome,Valor Meta,Valor Acumulado,Progresso %\n"

  /** The whole CSV file. */
  function CsvReport(ts: seq<Transaction>, metas: seq<Meta>): string
  {
    CsvHeader(ts) + Strs.Lines(ts, (t: Transaction) => TransactionRow(t, metas))
    + MetasHeader + Strs.Lines(metas, (m: Meta) => MetaRow(m, ts))
  }

  /** `buildCSV(transactions, metas)`: appends a row per transaction, then a row per goal. */
  method BuildCsv(ts: seq<Transaction>, metas: seq<Meta>) returns (csv: string)
    ensures csv == CsvReport(ts, metas)
  {
    csv := Strs.AppendLines(CsvHeader(ts), ts, (t: Transaction) => TransactionRow(t, metas));
    csv := Strs.AppendLines(csv + MetasHeader, metas, (m: Meta) => MetaRow(m, ts));
  }

  // ---- buildJSON ----

  /** The backup object: metadata, the raw lists and the summary. */
  datatype Backup = Backup(
    exportDate: string, version: string, source: string,
    transactions: seq<Transaction>, metas: seq<Meta>,
    totalReceitas: real, totalDespesas: real, saldo: real)

  /** `buildJSON(transactions, metas)` before serialisation. */
  function BuildJson(ts: seq<Transaction>, metas: seq<Meta>, exportDate: string): (b: Backup)
    ensures b.transactions == ts && b.metas == metas
    ensures b.totalReceitas == IncomeTotal(ts) && b.totalDespesas == ExpenseTotal(ts)
    ensures b.saldo == Net(ts)
  {
    var (receitas, despesas, saldo) := Totals(ts);
    Backup(exportDate, BackupVersion, BackupSource, ts, metas, receitas, despesas, saldo)
  }

  const BackupVersion: string := "1.0"
  const BackupSource: string := "Meu Hub Financeiro"

  // ---- buildTXT ----



  /** The five largest category totals, largest first. */
  function TopDespesas(es: seq<(string, real)>): seq<(string, real)>
  {
    TopByValue(es, 5)
  }

  /** `m.valor ? (acc / m.valor) * 100 : 0`. */
  function Progress(acc: real, valor: real): (p: real)
    ensures valor == 0.0 ==> p == 0.0
    ensures valor != 0.0 ==> p * valor == acc * 100.0
  {
    if valor != 0.0 then acc / valor * 100.0 else 0.0
  }

  const AdviceNegative: string := "• O saldo está negativo. Considere reduzir gastos nas categorias do Top 5 e revisar metas de curto prazo."
  const AdviceTight: string := "• O saldo é positivo, mas apertado. Avalie otimizações em despesas recorrentes e oportunidades de receita."
  const AdviceHealthy: string := "• Boa saúde financeira geral. Considere aumentar aportes em metas prioritárias."

  /** The closing advice chosen by the balance and the expense total. */
  function Advice(saldo: real, despesas: real): (a: string)
    ensures a == AdviceNegative <==> saldo < 0.0
    ensures a == AdviceTight <==> 0.0 <= saldo < despesas * 0.2
    ensures a == AdviceHealthy <==> saldo >= 0.0 && saldo >= despesas * 0.2
  {
    if saldo < 0.0 then AdviceNegative
    else if saldo < despesas * 0.2 then AdviceTight
    else AdviceHealthy
  }

  /** The "Período" line, present when the range has a bound. */
  function PeriodLines(range: DateRange): (ls: seq<string>)
    ensures |ls| == (if range.startDate.Some? || range.endDate.Some? then 1 else 0)
  {
    if range.startDate.Some? || range.endDate.Some? then
      [PeriodLabel + (if range.startDate.Some? then PtBrDate(range.startDate.value) else OpenStart)
       + " a " + (if range.endDate.Some? then PtBrDate(range.endDate.value) else OpenEnd)]
    else []
  }

  /** `${idx + 1}. ${cat}: R$ ${val.toFixed(2)}`. */
  function TopLine(idx: nat, e: (string, real)): string
  {
    Strs.NatStr(idx + 1) + ". " + e.0 + ": R$ " + NumFmt.Fixed2(e.1)
  }

  /** One numbered line per top category. */
  function TopLines(top: seq<(string, real)>): (ls: seq<string>)
    ensures |ls| == (if top == [] then 1 else |top|)
  {
    if top == [] then [NoExpensesLine]
    else seq(|top|, i requires 0 <= i < |top| => TopLine(i, top[i]))
  }

  function MetaSummaryLine(m: Meta, ts: seq<Transaction>): string
  {
    var acc := Accumulated(ts, m);
    "- " + m.nome + ": " + NumFmt.Fixed1(Progress(acc, m.valor)) + "% (R$ " + NumFmt.Fixed2(acc)
    + " de R$ " + NumFmt.Fixed2(m.valor) + ")"
  }

  function MetaSummaryLines(metas: seq<Meta>, ts: seq<Transaction>): (ls: seq<string>)
    ensures |ls| == (if metas == [] then 1 else |metas|)
  {
    if metas == [] then [NoGoalsLine]
    else seq(|metas|, i requires 0 <= i < |metas| => MetaSummaryLine(metas[i], ts))
  }

  /** The report's lines, before joining with line breaks. */
  function TxtLines(ts: seq<Transaction>, metas: seq<Meta>, range: DateRange, generatedAt: string): seq<string>
  {
    var (receitas, despesas, saldo) := Totals(ts);
    [TxtTitle, GeneratedLabel + generatedAt]
    + PeriodLines(range)
    + SummaryLines(receitas, despesas, saldo)
    + TopLines(TopDespesas(ExpenseByCategory(ts)))
    + ["", GoalsLabel]
    + MetaSummaryLines(metas, ts)
    + ["", TipsLabel, Advice(saldo, despesas)]
  }

  /** The totals block, ending with the top-categories heading. */
  function SummaryLines(receitas: real, despesas: real, saldo: real): seq<string>
  {
    ["", SummaryLabel,
     IncomeLine + NumFmt.Fixed2(receitas),
     ExpenseLine + NumFmt.Fixed2(despesas),
     BalanceLine + NumFmt.Fixed2(saldo),
     "",
     TopLabel]
  }

  const TxtTitle: string := "RELATÓRIO EXECUTIVO FINANCEIRO"
  const GeneratedLabel: string := "Gerado em: "
  const PeriodLabel: string := "Período: "
  const OpenStart: string := "início"
  const OpenEnd: string := "agora"
  const SummaryLabel: string := "SUMÁRIO"
  const IncomeLine: string := "- Receitas: R$ "
  const ExpenseLine: string := "- Despesas: R$ "
  const BalanceLine: string := "- Saldo: R$ "
  const TopLabel: string := "TOP 5 CATEGORIAS DE DESPESA"
  const NoExpensesLine: string := "(sem despesas no período)"
  const GoalsLabel: string := "METAS"
  const NoGoalsLine: string := "(nenhuma meta cadastrada)"
  const TipsLabel: string := "OBSERVAÇÕES E DICAS"

  /** `buildTXT(transactions, metas, range)`. */
  method BuildTxt(ts: seq<Transaction>, metas: seq<Meta>, range: DateRange, generatedAt: string) returns (txt: string)
    ensures txt == Strs.Join(TxtLines(ts, metas, range, generatedAt), "\n")
  {
    var es := ExpenseMap(ts);
    var top := TopDespesas(es);
    var (receitas, despesas, saldo) := Totals(ts);
    var lines := [TxtTitle, GeneratedLabel + generatedAt] + PeriodLines(range);
    lines := lines + SummaryLines(receitas, despesas, saldo);
    lines := lines + TopLines(top) + ["", GoalsLabel] + MetaSummaryLines(metas, ts);
    lines := lines + ["", TipsLabel, Advice(saldo, despesas)];
    txt := Strs.Join(lines, "\n");
  }

  /** The report's last line is the advice for the period's balance. */
  lemma TxtAdvice(ts: seq<Transaction>, metas: seq<Meta>, range: DateRange, generatedAt: string)
    ensures var ls := TxtLines(ts, metas, range, generatedAt);
            ls[|ls| - 1] == Advice(Net(ts), ExpenseTotal(ts))
  {
  }

  /** The top-categories section says there are no expenses exactly when the period has none. */
  lemma TxtNoExpenses(ts: seq<Transaction>)
    ensures TopLines(TopDespesas(ExpenseByCategory(ts))) == [NoExpensesLine]
            <==> forall t :: t in ts ==> !IsExpense(t)
  {
    ExpenseByCategoryEmpty(ts);
    var es := ExpenseByCategory(ts);
    TopByValueSpec(es, 5);
    if es != [] {
      var top := TopDespesas(es);
      assert |top| >= 1;
      assert TopLines(top)[0][0] != '(' by {
        assert TopLines(top)[0] == TopLine(0, top[0]);
        assert Strs.IsDigit(Strs.NatStr(1)[0]);
      }
    }
  }

  // ---- GET ----

  datatype ExportType = JsonExport | TxtExport | CsvExport

  /** `(value || fallback)`: a missing or empty parameter takes the fallback. */
  function OrDefault(value: Option<string>, fallback: string): (s: string)
    ensures value.Some? && value.value != "" ==> s == value.value
    ensures value.None? || value.value == "" ==> s == fallback
  {
    if value.Some? && value.value != "" then value.value else fallback
  }

  /** The lower-cased `type` parameter; anything but "json" and "txt" exports CSV. */
  function ExportTypeOf(typeParam: Option<string>): (e: ExportType)
    ensures e.JsonExport? <==> Strs.Lower(OrDefault(typeParam, "csv")) == "json"
    ensures e.TxtExport? <==> Strs.Lower(OrDefault(typeParam, "csv")) == "txt"
  {
    var t := Strs.Lower(OrDefault(typeParam, "csv"));
    if t == "json" then JsonExport else if t == "txt" then TxtExport else CsvExport
  }

  /** The file names used when the query gives none. */
  const JsonFilename: string := "backup-financeiro"
  const TxtFilename: string := "relatorio-executivo"
  const CsvFilename: string := "relatorio-financeiro"

  /** The file name extension of each kind of file. */
  const JsonExt: string := ".json"
  const TxtExt: string := ".txt"
  const CsvExt: string := ".csv"

  /** The `Content-Type` of each kind of file. */
  const JsonType: string := "application/json; charset=utf-8"
  const TextType: string := "text/plain; charset=utf-8"
  const CsvType: string := "text/csv; charset=utf-8"

  /** The query string: each parameter may be absent. */
  datatype Query = Query(
    typeParam: Option<string>, period: Option<string>,
    start: Option<Day>, end: Option<Day>, filename: Option<string>)

  datatype Body = JsonBody(backup: Backup) | TextBody(text: string)

  /** 401 without a session, else an attachment. */
  datatype Response =
    | Unauthorized
    | Attachment(contentType: string, filename: string, body: Body)

  /** The window the query asks for. */
  function QueryRange(q: Query, now: Day): DateRange
  {
    ComputeDateRange(Strs.Lower(OrDefault(q.period, "all")), q.start, q.end, now)
  }

  /** `GET /api/export`: 401 without a session; else the stored transactions in the query's window, oldest first, exported as the query asks. */
  function Get(authenticated: bool, q: Query, stored: seq<Transaction>, metas: seq<Meta>,
               now: Day, generatedAt: string, exportDate: string): (r: Response)
    ensures !authenticated <==> r.Unauthorized?
    ensures authenticated ==>
              var range := QueryRange(q, now);
              var ts := Fetch(stored, WhereDate(range));
              r == Export(ExportTypeOf(q.typeParam), q.filename, BuildJson(ts, metas, exportDate),
                          Strs.Join(TxtLines(ts, metas, range, generatedAt), "\n"), CsvReport(ts, metas))
  {
    if !authenticated then Unauthorized
    else
      var range := QueryRange(q, now);
      var ts := Fetch(stored, WhereDate(range));
      Export(ExportTypeOf(q.typeParam), q.filename, BuildJson(ts, metas, exportDate),
             Strs.Join(TxtLines(ts, metas, range, generatedAt), "\n"), CsvReport(ts, metas))
  }

  /** The attachment of the requested kind: the JSON backup, the text report or the CSV file, each with its type and default name. */
  function Export(e: ExportType, filename: Option<string>, backup: Backup, report: string, csv: string): (r: Response)
    ensures r.Attachment?
    ensures e == JsonExport ==> r == Attachment(JsonType, OrDefault(filename, JsonFilename) + JsonExt, JsonBody(backup))
    ensures e == TxtExport ==> r == Attachment(TextType, OrDefault(filename, TxtFilename) + TxtExt, TextBody(report))
    ensures e == CsvExport ==> r == Attachment(CsvType, OrDefault(filename, CsvFilename) + CsvExt, TextBody(csv))
  {
    match e
    case JsonExport => Attachment(JsonType, OrDefault(filename, JsonFilename) + JsonExt, JsonBody(backup))
    case TxtExport => Attachment(TextType, OrDefault(filename, TxtFilename) + TxtExt, TextBody(report))
    case CsvExport => Attachment(CsvType, OrDefault(filename, CsvFilename) + CsvExt, TextBody(csv))
  }

  lemma DefaultParameters(now: Day)
    ensures ExportTypeOf(None) == CsvExport
    ensures QueryRange(Query(None, None, None, None, None), now) == DateRange(None, None)
  {
    assert Strs.Lower("csv") == "csv";
    assert Strs.Lower("all") == "all";
  }

  /** Without a date condition the query returns every stored transaction, oldest first. */
  lemma FetchUnfiltered(stored: seq<Transaction>)
    ensures Fetch(stored, Unfiltered) == Sort(stored, DateLe)
  {
    FilterAll(stored, (t: Transaction) => Selects(Unfiltered, t));
  }

  /** A bare request exports every stored transaction, oldest first, as the default CSV file. */
  lemma GetDefaults(stored: seq<Transaction>, metas: seq<Meta>, now: Day, generatedAt: string, exportDate: string)
    ensures Get(true, Query(None, None, None, None, None), stored, metas, now, generatedAt, exportDate)
            == Attachment(CsvType, CsvFilename + CsvExt, TextBody(CsvReport(Sort(stored, DateLe), metas)))
  {
    DefaultParameters(now);
    assert WhereDate(DateRange(None, None)) == Unfiltered;
    FetchUnfiltered(stored);
  }
}
