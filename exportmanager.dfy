/**
 * `ExportManager` in `src/lib/exportManager.ts`: the client-side exports.
 * `generatePeriodReport` selects the transactions of a period and sums
 * them; `exportToCSV` writes a sectioned CSV (summary comments,
 * transactions, goals, categories); `exportExecutiveReport` writes a
 * decorated plain-text report with goal status bands, a category ranking
 * with text bars, a recommendation, a flagged category and the last
 * month's spending. The clock and the time of day are parameters; the
 * browser download is not part of this model.
 */
module ExportManager {
  import Strs
  import Csv
  import NumFmt
  import opened Seqs
  import opened Calendar
  import opened Ledger
  import ExportRoute

  // ---- generatePeriodReport ----

  datatype Summary = Summary(totalReceitas: real, totalDespesas: real, saldo: real, periodo: string)

  datatype ExportData = ExportData(transactions: seq<Transaction>, metas: seq<Meta>, summary: Summary)

  predicate InPeriod(t: Transaction, start: Day, end: Day)
  {
    Le(start, t.date) && Le(t.date, end)
  }

  /** `generatePeriodReport(transactions, metas, startDate, endDate)`. */
  function GeneratePeriodReport(ts: seq<Transaction>, metas: seq<Meta>, start: Day, end: Day): (d: ExportData)
    ensures Subseq(d.transactions, ts)
    ensures forall t :: t in d.transactions <==> t in ts && Le(start, t.date) && Le(t.date, end)
    ensures d.metas == metas && d.summary == SummaryOf(d.transactions, PtBrDate(start) + " a " + PtBrDate(end))
  {
    var filtered := Filter(ts, (t: Transaction) => InPeriod(t, start, end));
    FilterSpec(ts, (t: Transaction) => InPeriod(t, start, end));
    ExportData(filtered, metas, SummaryOf(filtered, PtBrDate(start) + " a " + PtBrDate(end)))
  }

  /** The totals of a list of transactions: income, expenses, and the balance between them. */
  function SummaryOf(ts: seq<Transaction>, periodo: string): (s: Summary)
    ensures s.totalReceitas == IncomeTotal(ts) && s.totalDespesas == ExpenseTotal(ts)
    ensures s.saldo == Net(ts) && s.saldo == s.totalReceitas - s.totalDespesas
    ensures s.periodo == periodo
  {
    FilterIncomeTotal(ts);
    FilterExpenseTotal(ts);
    NetIsIncomeMinusExpense(ts);
    var totalReceitas := Sum(Filter(ts, IsIncome), Amount);
    var totalDespesas := Sum(Filter(ts, IsExpense), Amount);
    Summary(totalReceitas, totalDespesas, totalReceitas - totalDespesas, periodo)
  }

  /** A report over a period that spans every transaction keeps them all. */
  lemma PeriodCoversAll(ts: seq<Transaction>, metas: seq<Meta>, start: Day, end: Day)
    requires forall i :: 0 <= i < |ts| ==> Le(start, ts[i].date) && Le(ts[i].date, end)
    ensures GeneratePeriodReport(ts, metas, start, end).transactions == ts
  {
    FilterAll(ts, (t: Transaction) => InPeriod(t, start, end));
  }

  // ---- exportToCSV ----

  /** `t.installments || ""`: nothing for a missing count and for 0. */
  function InstallmentsOr(n: Option<int>): (s: string)
    ensures n.None? || n == Some(0) ==> s == ""
    ensures forall i :: 0 <= i < |s| ==> NumFmt.NumberChar(s[i])
  {
    match n
    case None => ""
    case Some(k) => if k == 0 then "" else NumFmt.IntText(k)
  }

  /** A transaction line exactly as the source writes it: description and goal name quoted verbatim. */
  function TransactionLineAsWritten(t: Transaction, metas: seq<Meta>): string
  {
    Strs.Join([Timestamp(t.date), KindLabel(t.kind), t.category, Csv.QuotedVerbatim(t.description),
               NumFmt.Fixed2(t.amount), Csv.QuotedVerbatim(MetaName(metas, t.metaId)),
               InstallmentsOr(t.installments), t.recurrence], ",")
  }

  /** The eight cells of a transaction line, with the quoted ones escaped. */
  function TransactionCells(t: Transaction, metas: seq<Meta>): seq<Csv.Cell>
  {
    [Csv.Bare(Timestamp(t.date)), Csv.Bare(KindLabel(t.kind)), Csv.Bare(t.category), Csv.Quoted(t.description),
     Csv.Bare(NumFmt.Fixed2(t.amount)), Csv.Quoted(MetaName(metas, t.metaId)),
     Csv.Bare(InstallmentsOr(t.installments)), Csv.Bare(t.recurrence)]
  }

  /** The transaction line with quotes inside the quoted fields doubled, as RFC 4180, section 2, rule 7 asks. */
  function TransactionLine(t: Transaction, metas: seq<Meta>): string
  {
    Csv.RowText(TransactionCells(t, metas), ',')
  }

  /** The computed cells of a transaction line (date, kind, amount, installments) hold no comma or quote. */
  lemma ComputedCellsPlain(t: Transaction)
    ensures Csv.Plain(Timestamp(t.date), ',') && Csv.Plain(KindLabel(t.kind), ',')
    ensures Csv.Plain(NumFmt.Fixed2(t.amount), ',') && Csv.Plain(InstallmentsOr(t.installments), ',')
  {
    Csv.TimestampPlain(t.date, ',');
    Csv.NumberPlain(NumFmt.Fixed2(t.amount), ',');
    Csv.NumberPlain(InstallmentsOr(t.installments), ',');
  }

  /** Eight fields written with the third-from-start and sixth quoted: the escaped form reads back as the eight texts. */
  lemma EightFields(a: string, b: string, c: string, d: string, e: string, f: string, g: string, h: string)
    requires Csv.Plain(a, ',') && Csv.Plain(b, ',') && Csv.Plain(c, ',') && Csv.Plain(e, ',') && Csv.Plain(g, ',') && Csv.Plain(h, ',')
    ensures Csv.ParseRow(Csv.RowText([Csv.Bare(a), Csv.Bare(b), Csv.Bare(c), Csv.Quoted(d), Csv.Bare(e), Csv.Quoted(f), Csv.Bare(g), Csv.Bare(h)], ','), ',')
            == [a, b, c, d, e, f, g, h]
  {
    var cells := [Csv.Bare(a), Csv.Bare(b), Csv.Bare(c), Csv.Quoted(d), Csv.Bare(e), Csv.Quoted(f), Csv.Bare(g), Csv.Bare(h)];
    assert forall i :: 0 <= i < |cells| ==> Csv.Fits(cells[i], ',');
    Csv.RowRoundTrip(cells, ',');
  }

  /** Whatever the description and the goal name hold, the escaped line reads back as its eight values. */
  lemma TransactionLineFields(t: Transaction, metas: seq<Meta>)
    requires Csv.Plain(t.category, ',') && Csv.Plain(t.recurrence, ',')
    ensures Csv.ParseRow(TransactionLine(t, metas), ',') ==
            [Timestamp(t.date), KindLabel(t.kind), t.category, t.description, NumFmt.Fixed2(t.amount),
             MetaName(metas, t.metaId), InstallmentsOr(t.installments), t.recurrence]
  {
    ComputedCellsPlain(t);
    EightFields(Timestamp(t.date), KindLabel(t.kind), t.category, t.description, NumFmt.Fixed2(t.amount),
                MetaName(metas, t.metaId), InstallmentsOr(t.installments), t.recurrence);
  }

  /** Without quotes in the two quoted fields, escaping changes nothing. */
  lemma EightFieldsVerbatim(a: string, b: string, c: string, d: string, e: string, f: string, g: string, h: string)
    requires Csv.NoQuote(d) && Csv.NoQuote(f)
    ensures Csv.RowText([Csv.Bare(a), Csv.Bare(b), Csv.Bare(c), Csv.Quoted(d), Csv.Bare(e), Csv.Quoted(f), Csv.Bare(g), Csv.Bare(h)], ',')
            == Strs.Join([a, b, c, Csv.QuotedVerbatim(d), e, Csv.QuotedVerbatim(f), g, h], ",")
  {
    var cells := [Csv.Bare(a), Csv.Bare(b), Csv.Bare(c), Csv.Quoted(d), Csv.Bare(e), Csv.Quoted(f), Csv.Bare(g), Csv.Bare(h)];
    Csv.DoubleQuotesNone(d);
    Csv.DoubleQuotesNone(f);
    Csv.RowTextJoin(cells, ',');
    assert Csv.Renders(cells) == [a, b, c, Csv.QuotedVerbatim(d), e, Csv.QuotedVerbatim(f), g, h];
  }

  /** Where the description and the goal name hold no quote, the escaped line is the line as written. */
  lemma TransactionLineAgrees(t: Transaction, metas: seq<Meta>)
    requires Csv.NoQuote(t.description) && Csv.NoQuote(MetaName(metas, t.metaId))
    ensures TransactionLine(t, metas) == TransactionLineAsWritten(t, metas)
  {
    EightFieldsVerbatim(Timestamp(t.date), KindLabel(t.kind), t.category, t.description, NumFmt.Fixed2(t.amount),
                        MetaName(metas, t.metaId), InstallmentsOr(t.installments), t.recurrence);
  }

  /** A leading plain field of a comma-joined line reads back as itself, followed by the rest's fields. */
  lemma ParseJoinCons(p: string, rest: seq<string>)
    requires Csv.Plain(p, ',') && rest != []
    ensures Csv.ParseRow(Strs.Join([p] + rest, ","), ',') == [p] + Csv.ParseRow(Strs.Join(rest, ","), ',')
  {
    assert ([p] + rest)[1..] == rest;
    assert Strs.Join([p] + rest, ",") == Csv.Render(Csv.Bare(p)) + [','] + Strs.Join(rest, ",");
    Csv.ParseRowCons(Csv.Bare(p), Strs.Join(rest, ","), ',');
  }

  /** Four fields with the second quoted, joined as written, read back as themselves. */
  lemma FourFieldsBack(e: string, f: string, g: string, h: string)
    requires Csv.Plain(e, ',') && Csv.NoQuote(f) && Csv.Plain(g, ',') && Csv.Plain(h, ',')
    ensures Csv.ParseRow(Strs.Join([e, Csv.QuotedVerbatim(f), g, h], ","), ',') == [e, f, g, h]
  {
    var cells := [Csv.Bare(e), Csv.Quoted(f), Csv.Bare(g), Csv.Bare(h)];
    Csv.DoubleQuotesNone(f);
    Csv.RowTextJoin(cells, ',');
    assert Csv.Renders(cells) == [e, Csv.QuotedVerbatim(f), g, h];
    assert forall i :: 0 <= i < |cells| ==> Csv.Fits(cells[i], ',');
    Csv.RowRoundTrip(cells, ',');
  }

  /** `"x",y"` followed by more fields: the quoted field stops after `x`, and `y"` is a bare field. */
  lemma EarlyClose(rest: seq<string>)
    requires rest != []
    ensures Csv.ParseRow(Strs.Join([Csv.QuotedVerbatim("x\",y")] + rest, ","), ',')
            == ["x", "y\""] + Csv.ParseRow(Strs.Join(rest, ","), ',')
  {
    assert ([Csv.QuotedVerbatim("x\",y")] + rest)[1..] == rest;
    assert "x" + "\"," + "y" == "x\",y";
    assert "y" + "\"" == "y\"";
    SplitAtQuote("x", "y", Strs.Join(rest, ","));
  }

  /**
   * A quoted field holding `v",w` (neither part with a quote or comma,
   * `w` not empty), then more text: the field stops after `v` and `w"` is
   * a bare field.
   */
  lemma SplitAtQuote(v: string, w: string, r: string)
    requires Csv.Plain(v, ',') && Csv.Plain(w, ',') && w != []
    ensures Csv.ParseRow(Csv.QuotedVerbatim(v + "\"," + w) + "," + r, ',')
            == [v, w + "\""] + Csv.ParseRow(r, ',')
  {
    var s := w + "\"" + "," + r;
    StrayQuoteField(w, r);
    Csv.DoubleQuotesNone(v);
    var q, c := "\"", ",";
    assert "\"," == q + c;
    assert Csv.Render(Csv.Quoted(v)) == q + v + q;
    assert Csv.QuotedVerbatim(v + "\"," + w) == q + (v + (q + c) + w) + q;
    Assoc(q, v, q, c, w, q, c, r);
    assert Csv.QuotedVerbatim(v + "\"," + w) + "," + r == Csv.Render(Csv.Quoted(v)) + [','] + s;
    Csv.ParseRowCons(Csv.Quoted(v), s, ',');
  }

  lemma Assoc<T>(a: seq<T>, b: seq<T>, c: seq<T>, d: seq<T>, e: seq<T>, f: seq<T>, g: seq<T>, h: seq<T>)
    ensures a + (b + (c + d) + e) + f + g + h == (a + b + c) + d + (e + f + g + h)
  {
  }

  /** `w",` followed by more text: `w"` is read as a bare field. */
  lemma StrayQuoteField(w: string, r: string)
    requires Csv.Plain(w, ',') && w != []
    ensures Csv.ParseRow(w + "\"" + "," + r, ',') == [w + "\""] + Csv.ParseRow(r, ',')
  {
    var s := w + "\"" + "," + r;
    Csv.ReadBareText(w + "\"", "," + r, ',');
    assert s == (w + "\"") + ("," + r);
    assert s[0] == w[0];
    assert ("," + r)[1..] == r;
  }

  /** The as-written fields around a description `x",y`: the quoted field ends after `x` and `y"` becomes a field of its own. */
  lemma SplitFields(a: string, b: string, c: string, e: string, f: string, g: string, h: string)
    requires Csv.Plain(a, ',') && Csv.Plain(b, ',') && Csv.Plain(c, ',') && Csv.Plain(e, ',') && Csv.NoQuote(f) && Csv.Plain(g, ',') && Csv.Plain(h, ',')
    ensures Csv.ParseRow(Strs.Join([a, b, c, Csv.QuotedVerbatim("x\",y"), e, Csv.QuotedVerbatim(f), g, h], ","), ',')
            == [a, b, c, "x", "y\"", e, f, g, h]
  {
    var x := Csv.QuotedVerbatim("x\",y");
    var tail := [e, Csv.QuotedVerbatim(f), g, h];
    var l3 := [x] + tail;
    var l2 := [c] + l3;
    var l1 := [b] + l2;
    FourFieldsBack(e, f, g, h);
    EarlyClose(tail);
    ParseJoinCons(c, l3);
    ParseJoinCons(b, l2);
    ParseJoinCons(a, l1);
    EightInFront(a, b, c, x, e, Csv.QuotedVerbatim(f), g, h);
    NineInFront(a, b, c, "x", "y\"", e, f, g, h);
  }

  lemma EightInFront<T>(a: T, b: T, c: T, d: T, e: T, f: T, g: T, h: T)
    ensures [a] + ([b] + ([c] + ([d] + [e, f, g, h]))) == [a, b, c, d, e, f, g, h]
  {
  }

  lemma NineInFront<T>(a: T, b: T, c: T, d1: T, d2: T, e: T, f: T, g: T, h: T)
    ensures [a] + ([b] + ([c] + ([d1, d2] + [e, f, g, h]))) == [a, b, c, d1, d2, e, f, g, h]
  {
  }

  /**
   * A description `x",y` ends the quoted field early: the line as written
   * reads back as nine values, the fourth being `x` and the fifth `y"`.
   */
  lemma VerbatimQuoteSplitsField(t: Transaction, metas: seq<Meta>)
    requires t.description == "x\",y"
    requires Csv.Plain(t.category, ',') && Csv.Plain(t.recurrence, ',') && Csv.NoQuote(MetaName(metas, t.metaId))
    ensures Csv.ParseRow(TransactionLineAsWritten(t, metas), ',') ==
            [Timestamp(t.date), KindLabel(t.kind), t.category, "x", "y\"", NumFmt.Fixed2(t.amount),
             MetaName(metas, t.metaId), InstallmentsOr(t.installments), t.recurrence]
  {
    ComputedCellsPlain(t);
    SplitFields(Timestamp(t.date), KindLabel(t.kind), t.category, NumFmt.Fixed2(t.amount),
                MetaName(metas, t.metaId), InstallmentsOr(t.installments), t.recurrence);
  }

  /** A goal line as the source writes it: the name quoted verbatim. */
  function MetaLineAsWritten(m: Meta, ts: seq<Transaction>): string
  {
    var acc := Accumulated(ts, m);
    Strs.Join([Csv.QuotedVerbatim(m.nome), NumFmt.Fixed2(m.valor), NumFmt.Fixed2(acc),
               NumFmt.PercentText(acc, m.valor) + "%"], ",")
  }

  /** With the name escaped, the goal line is the export route's goal row; where the name holds no quote the two agree. */
  lemma MetaLineAgrees(m: Meta, ts: seq<Transaction>)
    requires Csv.NoQuote(m.nome)
    ensures ExportRoute.MetaRow(m, ts) == MetaLineAsWritten(m, ts)
  {
    var acc := Accumulated(ts, m);
    var b, c, d := NumFmt.Fixed2(m.valor), NumFmt.Fixed2(acc), NumFmt.PercentText(acc, m.valor) + "%";
    assert ExportRoute.MetaCells(m, ts) == [Csv.Quoted(m.nome), Csv.Bare(b), Csv.Bare(c), Csv.Bare(d)];
    FourFieldsVerbatim(m.nome, b, c, d);
  }

  /** A quoted first field without a quote inside, then three bare fields: escaping changes nothing. */
  lemma FourFieldsVerbatim(a: string, b: string, c: string, d: string)
    requires Csv.NoQuote(a)
    ensures Csv.RowText([Csv.Quoted(a), Csv.Bare(b), Csv.Bare(c), Csv.Bare(d)], ',')
            == Strs.Join([Csv.QuotedVerbatim(a), b, c, d], ",")
  {
    var cells := [Csv.Quoted(a), Csv.Bare(b), Csv.Bare(c), Csv.Bare(d)];
    Csv.DoubleQuotesNone(a);
    Csv.RowTextJoin(cells, ',');
    assert Csv.Renders(cells) == [Csv.QuotedVerbatim(a), b, c, d];
  }

  /** `Object.entries(categorias).sort(([, a], [, b]) => b - a)`: expense totals per category, largest first. */
  function CategoryRanking(ts: seq<Transaction>): seq<(string, real)>
  {
    Sort(ExpenseByCategory(ts), ByValueDesc)
  }

  /** The ranking holds every category total exactly once, largest first. */
  lemma CategoryRankingSpec(ts: seq<Transaction>)
    ensures SortedBy(CategoryRanking(ts), ByValueDesc)
    ensures multiset(CategoryRanking(ts)) == multiset(ExpenseByCategory(ts))
    ensures forall e :: e in CategoryRanking(ts) <==> e in ExpenseByCategory(ts)
  {
    assert TotalPreorder(ByValueDesc);
    SortSorted(ExpenseByCategory(ts), ByValueDesc);
    forall e ensures e in CategoryRanking(ts) <==> e in ExpenseByCategory(ts) {
      calc {
        e in CategoryRanking(ts);
        e in multiset(CategoryRanking(ts));
        e in multiset(ExpenseByCategory(ts));
        e in ExpenseByCategory(ts);
      }
    }
  }

  /** One category line: name, total and share of the expense total. */
  function CategoryLine(e: (string, real), totalDespesas: real): string
  {
    e.0 + "," + NumFmt.Fixed2(e.1) + "," + NumFmt.PercentText(e.1, totalDespesas) + "%"
  }

  function CsvSummary(s: Summary, today: Day): string
  {
    CsvTitle + PtBrDate(today) + "\n"
    + CsvPeriod + s.periodo + "\n"
    + CsvIncome + NumFmt.Fixed2(s.totalReceitas) + "\n"
    + CsvExpense + NumFmt.Fixed2(s.totalDespesas) + "\n"
    + CsvBalance + NumFmt.Fixed2(s.saldo) + "\n\n"
    + TransactionsHeading
  }

  const CsvTitle: string := "# RELATÓRIO FINANCEIRO - "
  const CsvPeriod: string := "# Período: "
  const CsvIncome: string := "# Total Receitas: R$ "
  const CsvExpense: string := "# Total Despesas: R$ "
  const CsvBalance: string := "# Saldo: R$ "
  const TransactionsHeading: string := "TRANSAÇÕES\nData,Tipo,Categoria,Descrição,Valor,Meta,Parcelas,Recorrência\n"

  const GoalsHeading: string := "\nMETAS\nNome,Valor Meta,Valor Acumulado,Progresso %\n"
  const CategoriesHeading: string := "\nANÁLISE POR CATEGORIA\nCategoria,Valor Total,Percentual\n"

  /** The whole CSV file: summary, one line per transaction, per goal, per category. */
  function CsvContent(data: ExportData, today: Day): string
  {
    CsvSummary(data.summary, today)
    + Strs.Lines(data.transactions, TransactionLineOf(data.metas))
    + GoalsHeading
    + Strs.Lines(data.metas, MetaLineOf(data.transactions))
    + CategoriesHeading
    + Strs.Lines(CategoryRanking(data.transactions), CategoryLineOf(data.summary.totalDespesas))
  }

  /** The CSV file with the quotes inside the quoted transaction and goal fields doubled, as RFC 4180, section 2, rule 7 asks. */
  function CsvContentEscaped(data: ExportData, today: Day): string
  {
    CsvSummary(data.summary, today)
    + Strs.Lines(data.transactions, (t: Transaction) => TransactionLine(t, data.metas))
    + GoalsHeading
    + Strs.Lines(data.metas, (m: Meta) => ExportRoute.MetaRow(m, data.transactions))
    + CategoriesHeading
    + Strs.Lines(CategoryRanking(data.transactions), CategoryLineOf(data.summary.totalDespesas))
  }

  /** Where no description, no goal name of a transaction and no goal name holds a quote, the file as written is the escaped file. */
  lemma CsvContentAgrees(data: ExportData, today: Day)
    requires forall t :: t in data.transactions ==> Csv.NoQuote(t.description) && Csv.NoQuote(MetaName(data.metas, t.metaId))
    requires forall m :: m in data.metas ==> Csv.NoQuote(m.nome)
    ensures CsvContent(data, today) == CsvContentEscaped(data, today)
  {
    forall t | t in data.transactions
      ensures TransactionLineOf(data.metas)(t) == TransactionLine(t, data.metas)
    {
      TransactionLineAgrees(t, data.metas);
    }
    forall m | m in data.metas
      ensures MetaLineOf(data.transactions)(m) == ExportRoute.MetaRow(m, data.transactions)
    {
      MetaLineAgrees(m, data.transactions);
    }
    Strs.LinesAgree(data.transactions, TransactionLineOf(data.metas), (t: Transaction) => TransactionLine(t, data.metas));
    Strs.LinesAgree(data.metas, MetaLineOf(data.transactions), (m: Meta) => ExportRoute.MetaRow(m, data.transactions));
  }

  /** The transaction lines as the source writes them, description and goal name quoted verbatim. */
  function TransactionLineOf(metas: seq<Meta>): Transaction -> string
  {
    (t: Transaction) => TransactionLineAsWritten(t, metas)
  }

  /** The goal lines as the source writes them, the name quoted verbatim. */
  function MetaLineOf(ts: seq<Transaction>): Meta -> string
  {
    (m: Meta) => MetaLineAsWritten(m, ts)
  }

  function CategoryLineOf(totalDespesas: real): ((string, real)) -> string
  {
    (e: (string, real)) => CategoryLine(e, totalDespesas)
  }

  /** A file handed to the browser. */
  datatype Download = Download(content: string, filename: string, mimeType: string)

  /** `exportToCSV(data, filename)`: builds the text section by section with `+=`. */
  method ExportToCsv(data: ExportData, filename: string, today: Day) returns (file: Download)
    ensures file == Download(CsvContent(data, today), filename + ".csv", "text/csv")
  {
    var csvContent := CsvSummary(data.summary, today);
    csvContent := Strs.AppendLines(csvContent, data.transactions, TransactionLineOf(data.metas));
    csvContent := Strs.AppendLines(csvContent + GoalsHeading, data.metas, MetaLineOf(data.transactions));
    var categorias := ExpenseMap(data.transactions);
    csvContent := Strs.AppendLines(csvContent + CategoriesHeading, Sort(categorias, ByValueDesc),
                                   CategoryLineOf(data.summary.totalDespesas));
    file := Download(csvContent, filename + ".csv", "text/csv");
  }

  // ---- exportExecutiveReport ----

  const Warning: string := "\U{26A0}\U{FE0F}"
  const Rule: string := Strs.Repeat('═', 79)

  // The report's fixed texts.
  const AlertAdvice: string := "  ALERTA: Saldo negativo detectado!\n📝 Ação recomendada: Revisar gastos urgentemente\n🎯 Foque em: "
  const ExcellentAdvice: string := "\n💰 EXCELENTE: Boa reserva financeira!\n📈 Sugestão: Considere investir o excedente\n🎯 Oportunidade: Aumentar suas metas de economia"
  const BalancedAdvice: string := "\n✅ BOM: Situação financeira equilibrada\n📊 Continue: Mantendo o controle atual\n🎯 Melhoria: Tente economizar mais 5-10%"
  const ProblemLead: string := "  ATENÇÃO: Categoria \""
  const ProblemShareText: string := "\" consome "
  const ProblemAdvice: string := "% do orçamento\n💡 Recomendação: Revisar gastos nesta categoria"
  const TemporalTitle: string := "\n\n📅 ANÁLISE TEMPORAL (ÚLTIMOS 30 DIAS)\n"
  const TemporalCount: string := "\n📊 Transações: "
  const TemporalSpending: string := "\n💸 Gastos: R$ "
  const TemporalDaily: string := "\n📈 Média diária: R$ "
  const TemporalStatus: string := "\n🎯 Status: "
  const SpendingHigh: string := "Gastos elevados "
  const SpendingControlled: string := "Gastos controlados ✅"
  const ReportTitle: string := "RELATÓRIO EXECUTIVO FINANCEIRO"
  const SummaryTitle: string := "\n\n📊 RESUMO GERAL\n"
  const BalanceLabel: string := "\n💰 Saldo Atual: R$ "
  const IncomeLabel: string := "\n📈 Total Receitas: R$ "
  const ExpenseLabel: string := "\n📉 Total Despesas: R$ "
  const SavingsLabel: string := "\n📊 Taxa de Economia: "
  const PeriodLabel: string := "\n📅 Período Analisado: "
  const CountLabel: string := "\n🔢 Total de Transações: "
  const GoalsTitle: string := "\n\n🎯 STATUS DAS METAS ("
  const CategoriesHeadingText: string := "\n\n📊 ANÁLISE DE GASTOS POR CATEGORIA\n"
  const InsightsHeadingText: string := "\n\n💡 INSIGHTS E RECOMENDAÇÕES\n"
  const ProgressLabel: string := "\n   └─ Progresso: "
  const RemainingLabel: string := "\n   └─ Faltam: R$ "
  const BarOpen: string := "\n   └─ ["
  const ValueLabel: string := "\n   ├─ Valor: R$ "

  /** The status band of a goal's progress percentage. */
  datatype GoalStatus = Reached | Close | Halfway | Pending

  /** `progresso >= 100 ? ... : progresso >= 80 ? ... : progresso >= 50 ? ... : ...`; NaN and -Infinity pass no test. */
  function StatusOf(progresso: NumFmt.JsNumber): GoalStatus
  {
    if NumFmt.AtLeast(progresso, 100.0) then Reached
    else if NumFmt.AtLeast(progresso, 80.0) then Close
    else if NumFmt.AtLeast(progresso, 50.0) then Halfway
    else Pending
  }

  function StatusIcon(s: GoalStatus): string
  {
    match s
    case Reached => "✅"
    case Close => "🔥"
    case Halfway => "⚡"
    case Pending => "⏳"
  }

  /** For a positive target the bands are: reached from 100%, close from 80%, halfway from 50%, pending below. */
  lemma StatusBands(acc: real, valor: real)
    requires valor > 0.0
    ensures StatusOf(NumFmt.Percent(acc, valor)) == Reached <==> acc >= valor
    ensures StatusOf(NumFmt.Percent(acc, valor)) == Close <==> 0.8 * valor <= acc < valor
    ensures StatusOf(NumFmt.Percent(acc, valor)) == Halfway <==> 0.5 * valor <= acc < 0.8 * valor
    ensures StatusOf(NumFmt.Percent(acc, valor)) == Pending <==> acc < 0.5 * valor
  {
    assert NumFmt.Percent(acc, valor) == NumFmt.Finite(acc / valor * 100.0);
    PercentAtLeast(acc, valor, 1.0);
    PercentAtLeast(acc, valor, 0.8);
    PercentAtLeast(acc, valor, 0.5);
  }

  /** `acc / valor * 100 >= b * 100` exactly when `acc >= b * valor`, for a positive `valor`. */
  lemma PercentAtLeast(acc: real, valor: real, b: real)
    requires valor > 0.0
    ensures acc / valor * 100.0 >= b * 100.0 <==> acc >= b * valor
  {
    var q := acc / valor;
    DivMul(acc, valor);
    ScaleCompare(q, valor, b);
  }

  lemma DivMul(a: real, v: real)
    requires v != 0.0
    ensures a / v * v == a
  {
  }

  /** For a non-zero divisor, the quotient exceeds a bound exactly when its real value does. */
  lemma QuotientAbove(num: real, den: real, b: real)
    requires den != 0.0
    ensures NumFmt.Above(NumFmt.Quotient(num, den), b) <==> num / den > b
  {
  }

  /** Multiplying by a positive number keeps comparisons. */
  lemma ScaleCompare(q: real, v: real, b: real)
    requires v > 0.0
    ensures q >= b <==> q * v >= b * v
    ensures q > b <==> q * v > b * v
  {
    if q >= b {
      assert (q - b) * v >= 0.0;
    }
    if q > b {
      assert (q - b) * v > 0.0;
    }
    if q < b {
      assert (b - q) * v > 0.0;
    }
  }

  /** A goal with target 0 shows as reached when anything has been saved for it (Infinity) and as pending otherwise (NaN, -Infinity). */
  lemma StatusWithoutTarget(acc: real)
    ensures StatusOf(NumFmt.Percent(acc, 0.0)) == if acc > 0.0 then Reached else Pending
  {
  }

  /** One goal's entry: position, status, name, progress, accumulated and target amounts, and what is left. */
  function GoalBlock(entry: (nat, Meta), ts: seq<Transaction>): string
  {
    var (index, m) := entry;
    var acc := Accumulated(ts, m);
    var progresso := NumFmt.Percent(acc, m.valor);
    "\n" + Strs.NatStr(index) + ". " + StatusIcon(StatusOf(progresso)) + " " + m.nome
    + ProgressLabel + NumFmt.Text1(progresso) + "% (R$ " + NumFmt.Fixed2(acc) + " / R$ " + NumFmt.Fixed2(m.valor) + ")"
    + RemainingLabel + NumFmt.Fixed2(Remaining(m.valor, acc))
  }

  const NoGoals: string := "\n❌ Nenhuma meta definida\n💡 Recomendação: Defina metas financeiras para melhor controle!"

  /** `"█".repeat(barLength) + "░".repeat(Math.max(0, 25 - barLength))` with `barLength = Math.floor(percentual / 2)`; `repeat` throws for a negative or infinite count, and a NaN count writes nothing. */
  function Bar(percentual: NumFmt.JsNumber): (bar: Option<string>)
    ensures percentual.NaN? ==> bar == Some("")
    ensures percentual.PosInfinity? || percentual.NegInfinity? ==> bar.None?
  {
    match percentual
    case Finite(p) =>
      var n := (p / 2.0).Floor;
      if n < 0 then None
      else Some(Strs.Repeat('█', n) + Strs.Repeat('░', if 25 - n > 0 then 25 - n else 0))
    case NaN => Some("")
    case _ => None
  }

  /** A non-negative share draws a bar of `floor(p / 2)` full cells, padded with empty cells to at least 25. */
  lemma BarShape(p: real)
    requires p >= 0.0
    ensures Bar(NumFmt.Finite(p)).Some?
    ensures |Bar(NumFmt.Finite(p)).value| == if (p / 2.0).Floor > 25 then (p / 2.0).Floor else 25
    ensures forall i :: 0 <= i < |Bar(NumFmt.Finite(p)).value| ==>
              (Bar(NumFmt.Finite(p)).value[i] == '█' <==> i < (p / 2.0).Floor)
  {
    var n := (p / 2.0).Floor;
    assert n >= 0;
    var bar := Bar(NumFmt.Finite(p)).value;
    assert bar == Strs.Repeat('█', n) + Strs.Repeat('░', if 25 - n > 0 then 25 - n else 0);
    forall i | 0 <= i < |bar| ensures bar[i] == '█' <==> i < n {
      if i >= n { assert bar[i] == '░'; }
    }
  }

  /** One category's entry, or nothing when drawing its bar throws. */
  function CategoryBlock(entry: (nat, (string, real)), totalDespesas: real): (b: Option<string>)
    ensures b.Some? <==> Bar(NumFmt.Percent(entry.1.1, totalDespesas)).Some?
  {
    var (index, (categoria, valor)) := entry;
    var percentual := NumFmt.Percent(valor, totalDespesas);
    match Bar(percentual)
    case None => None
    case Some(bar) =>
      Some("\n" + Strs.NatStr(index) + ". " + Strs.Upper(categoria)
           + ValueLabel + NumFmt.Fixed2(valor) + " (" + NumFmt.Text1(percentual) + "%)"
           + BarOpen + bar + "]")
  }

  /** The category entries one after the other; nothing as soon as one of them throws. */
  function CategoryBlocks(entries: seq<(nat, (string, real))>, totalDespesas: real): Option<string>
    decreases |entries|
  {
    if entries == [] then Some("")
    else
      match CategoryBlocks(entries[..|entries| - 1], totalDespesas)
      case None => None
      case Some(text) =>
        match CategoryBlock(entries[|entries| - 1], totalDespesas)
        case None => None
        case Some(b) => Some(text + b)
  }

  /** Every entry's bar can be drawn. */
  predicate AllDrawn(entries: seq<(nat, (string, real))>, totalDespesas: real)
  {
    forall i :: 0 <= i < |entries| ==> Bar(NumFmt.Percent(entries[i].1.1, totalDespesas)).Some?
  }

  /** The entries can all be written exactly when every bar can be drawn. */
  lemma {:induction false} CategoryBlocksDefined(entries: seq<(nat, (string, real))>, totalDespesas: real)
    ensures CategoryBlocks(entries, totalDespesas).Some? <==> AllDrawn(entries, totalDespesas)
    decreases |entries|
  {
    if entries != [] {
      CategoryBlocksDefined(entries[..|entries| - 1], totalDespesas);
      AllDrawnLast(entries, totalDespesas);
      CategoryBlocksLast(entries, totalDespesas);
    }
  }

  lemma AllDrawnLast(entries: seq<(nat, (string, real))>, totalDespesas: real)
    requires entries != []
    ensures AllDrawn(entries, totalDespesas) <==>
            AllDrawn(entries[..|entries| - 1], totalDespesas) &&
            Bar(NumFmt.Percent(entries[|entries| - 1].1.1, totalDespesas)).Some?
  {
    var init := entries[..|entries| - 1];
    assert forall i :: 0 <= i < |init| ==> init[i] == entries[i];
  }

  /** The entries can be written exactly when all but the last can, and the last can. */
  lemma CategoryBlocksLast(entries: seq<(nat, (string, real))>, totalDespesas: real)
    requires entries != []
    ensures CategoryBlocks(entries, totalDespesas).Some? <==>
            CategoryBlocks(entries[..|entries| - 1], totalDespesas).Some? &&
            Bar(NumFmt.Percent(entries[|entries| - 1].1.1, totalDespesas)).Some?
  {
  }

  /** With a positive expense total and no negative category total, no bar throws. */
  lemma BarsDrawn(es: seq<(string, real)>, totalDespesas: real)
    requires totalDespesas > 0.0
    requires forall i :: 0 <= i < |es| ==> es[i].1 >= 0.0
    ensures CategoryBlocks(Numbered(es), totalDespesas).Some?
  {
    var entries := Numbered(es);
    forall i | 0 <= i < |entries| ensures Bar(NumFmt.Percent(entries[i].1.1, totalDespesas)).Some? {
      var p := es[i].1 / totalDespesas * 100.0;
      assert p >= 0.0;
      BarShape(p);
    }
    CategoryBlocksDefined(entries, totalDespesas);
  }

  const NoExpenses: string := "\n❌ Nenhuma despesa registrada"

  /** The recommendation block. */
  datatype Recommendation = Alert(focus: string) | Excellent | Balanced

  const DefaultFocus: string := "controle de despesas"

  /** Negative balance first, then a balance above 30% of income, else balanced; the focus is the largest category, if it has a name. */
  function RecommendationOf(s: Summary, ranking: seq<(string, real)>): (r: Recommendation)
    ensures r.Alert? <==> s.saldo < 0.0
    ensures r.Excellent? <==> s.saldo >= 0.0 && s.saldo > s.totalReceitas * 0.3
    ensures r.Alert? ==> r.focus == if ranking != [] && ranking[0].0 != "" then ranking[0].0 else DefaultFocus
  {
    if s.saldo < 0.0 then Alert(if ranking != [] && ranking[0].0 != "" then ranking[0].0 else DefaultFocus)
    else if s.saldo > s.totalReceitas * 0.3 then Excellent
    else Balanced
  }

  /**
   * The focus of an alert is a category with the largest expense total, or
   * the default when there is none; on ties it is the first such category
   * in order of first appearance, which the stable sort puts first.
   */
  lemma FocusIsLargest(s: Summary, ts: seq<Transaction>)
    requires s.saldo < 0.0
    ensures var f := RecommendationOf(s, CategoryRanking(ts)).focus;
            f == DefaultFocus ||
            exists e :: e in ExpenseByCategory(ts) && e.0 == f && forall e2 :: e2 in ExpenseByCategory(ts) ==> e2.1 <= e.1
    ensures ExpenseByCategory(ts) == [] ==> RecommendationOf(s, CategoryRanking(ts)).focus == DefaultFocus
    ensures var es := ExpenseByCategory(ts);
            es != [] ==> exists i :: 0 <= i < |es| && FirstLargest(es, i) &&
                           RecommendationOf(s, CategoryRanking(ts)).focus == if es[i].0 != "" then es[i].0 else DefaultFocus
  {
    var ranking := CategoryRanking(ts);
    CategoryRankingSpec(ts);
    if ranking != [] {
      TopByValueFirst(ExpenseByCategory(ts), |ranking|);
      assert TopByValue(ExpenseByCategory(ts), |ranking|)[0] == ranking[0];
      var top := ranking[0];
      assert top in ExpenseByCategory(ts);
      forall e2 | e2 in ExpenseByCategory(ts) ensures e2.1 <= top.1 {
        assert e2 in ranking;
        var j :| 0 <= j < |ranking| && ranking[j] == e2;
        if j > 0 { assert ByValueDesc(ranking[0], ranking[j]); }
      }
    }
  }

  function RecommendationText(r: Recommendation): string
  {
    match r
    case Alert(focus) =>
      "\n" + Warning + AlertAdvice + focus
    case Excellent =>
      ExcellentAdvice
    case Balanced =>
      BalancedAdvice
  }

  /** `Object.entries(categorias).find(([, valor]) => valor / totalDespesas > 0.4)`: the first such category in insertion order. */
  function ProblemCategory(es: seq<(string, real)>, totalDespesas: real): (r: Option<(string, real)>)
    ensures r.None? <==> forall i :: 0 <= i < |es| ==> !NumFmt.Above(NumFmt.Quotient(es[i].1, totalDespesas), 0.4)
    ensures r.Some? ==> r.value in es && NumFmt.Above(NumFmt.Quotient(r.value.1, totalDespesas), 0.4)
    ensures r.Some? ==> exists i :: 0 <= i < |es| && es[i] == r.value &&
                          NumFmt.Above(NumFmt.Quotient(es[i].1, totalDespesas), 0.4) &&
                          forall j :: 0 <= j < i ==> !NumFmt.Above(NumFmt.Quotient(es[j].1, totalDespesas), 0.4)
    decreases |es|
  {
    if es == [] then None
    else if NumFmt.Above(NumFmt.Quotient(es[0].1, totalDespesas), 0.4) then Some(es[0])
    else
      var r := ProblemCategory(es[1..], totalDespesas);
      assert forall i :: 1 <= i < |es| ==> es[i] == es[1..][i - 1];
      r
  }

  /** With a positive expense total the flagged category takes more than 40% of it. */
  lemma ProblemShare(es: seq<(string, real)>, totalDespesas: real)
    requires totalDespesas > 0.0
    requires ProblemCategory(es, totalDespesas).Some?
    ensures ProblemCategory(es, totalDespesas).value.1 > 0.4 * totalDespesas
  {
    var r := ProblemCategory(es, totalDespesas).value;
    var q := r.1 / totalDespesas;
    QuotientAbove(r.1, totalDespesas, 0.4);
    DivMul(r.1, totalDespesas);
    ScaleCompare(q, totalDespesas, 0.4);
  }

  function ProblemText(p: Option<(string, real)>, totalDespesas: real): string
  {
    match p
    case None => ""
    case Some((categoria, valor)) =>
      "\n" + Warning + ProblemLead + categoria + ProblemShareText + NumFmt.PercentText(valor, totalDespesas) + ProblemAdvice
  }

  /** The transactions dated from one month before `now` on (`umMesAtras.setMonth(getMonth() - 1)`). */
  function LastMonth(ts: seq<Transaction>, now: Day): seq<Transaction>
  {
    Filter(ts, (t: Transaction) => Le(MonthsBefore(now, 1), t.date))
  }

  /** `gastosUltimoMes`: the expenses of the last month. */
  function LastMonthSpending(ts: seq<Transaction>, now: Day): (g: real)
    ensures g == ExpenseTotal(LastMonth(ts, now))
  {
    FilterExpenseTotal(LastMonth(ts, now));
    Sum(Filter(LastMonth(ts, now), IsExpense), Amount)
  }

  /** The last month is a window ending today: it holds every transaction of the past month and nothing older. */
  lemma LastMonthWindow(ts: seq<Transaction>, now: Day, t: Transaction)
    requires t in ts
    ensures t in LastMonth(ts, now) <==> Le(MonthsBefore(now, 1), t.date)
    ensures Lt(MonthsBefore(now, 1), now)
  {
    FilterSpec(ts, (t: Transaction) => Le(MonthsBefore(now, 1), t.date));
    MonthsBeforeEarlier(now, 1);
  }

  function TemporalSection(ts: seq<Transaction>, totalDespesas: real, now: Day): string
  {
    var g := LastMonthSpending(ts, now);
    TemporalTitle + Rule
    + TemporalCount + Strs.NatStr(|LastMonth(ts, now)|)
    + TemporalSpending + NumFmt.Fixed2(g)
    + TemporalDaily + NumFmt.Fixed2(g / 30.0)
    + TemporalStatus + (if g > totalDespesas * 0.4 then SpendingHigh + Warning else SpendingControlled)
  }

  /** The banner and the general summary, up to the goals heading. */
  function ReportIntro(data: ExportData, now: Day, time: string): string
  {
    var s := data.summary;
    "\n╔" + Strs.Repeat('═', 78) + "╗"
    + "\n║" + Strs.Repeat(' ', 27) + ReportTitle + Strs.Repeat(' ', 20) + "║"
    + "\n║" + Strs.Repeat(' ', 30) + PtBrDate(now) + " - " + time + Strs.Repeat(' ', 27) + "║"
    + "\n╚" + Strs.Repeat('═', 78) + "╝"
    + SummaryTitle + Rule
    + BalanceLabel + NumFmt.Fixed2(s.saldo) + " " + (if s.saldo > 0.0 then "✅" else Warning)
    + IncomeLabel + NumFmt.Fixed2(s.totalReceitas)
    + ExpenseLabel + NumFmt.Fixed2(s.totalDespesas)
    + SavingsLabel + (if s.totalReceitas > 0.0 then NumFmt.PercentText(s.saldo, s.totalReceitas) else "0") + "%"
    + PeriodLabel + s.periodo
    + CountLabel + Strs.NatStr(|data.transactions|)
    + GoalsTitle + Strs.NatStr(|data.metas|) + " metas)\n" + Rule
  }

  function CategoriesTitle(): string { CategoriesHeadingText + Rule }
  function InsightsTitle(): string { InsightsHeadingText + Rule }
  const FooterNote: string := "\n📋 Relatório gerado automaticamente pelo Meu Hub Financeiro\n🤖 Para mais análises, acesse a seção de IA do sistema\n"
  function Footer(): string
  {
    "\n\n" + Rule + FooterNote + Rule
  }

  /** The goals section: one entry per goal, or the "no goals" notice. */
  function GoalsText(data: ExportData): string
  {
    if data.metas == [] then NoGoals
    else Strs.Concat(Numbered(data.metas), (e: (nat, Meta)) => GoalBlock(e, data.transactions))
  }

  /** Everything after the category entries. */
  function ReportTail(data: ExportData, now: Day): string
  {
    var es := ExpenseByCategory(data.transactions);
    var total := data.summary.totalDespesas;
    InsightsTitle() + RecommendationText(RecommendationOf(data.summary, CategoryRanking(data.transactions)))
    + ProblemText(ProblemCategory(es, total), total)
    + TemporalSection(data.transactions, total, now)
    + Footer()
  }

  /** The category section: the ten largest categories, or the "no expenses" notice; nothing when a bar throws. */
  function CategoriesText(data: ExportData): Option<string>
  {
    var ranking := CategoryRanking(data.transactions);
    if ranking == [] then Some(NoExpenses)
    else CategoryBlocks(Numbered(Take(ranking, 10)), data.summary.totalDespesas)
  }

  /** The whole report text, or nothing when a category bar throws. */
  function ExecutiveReport(data: ExportData, now: Day, time: string): Option<string>
  {
    match CategoriesText(data)
    case None => None
    case Some(categories) => Some(Sections(data, now, time, GoalsText(data), categories))
  }

  /** The report's parts in order: banner and summary, goals, categories, insights and footer. */
  function Sections(data: ExportData, now: Day, time: string, goals: string, categories: string): string
  {
    ReportIntro(data, now, time) + goals + CategoriesTitle() + categories + ReportTail(data, now)
  }

  /** The category entries appended one by one; nothing as soon as a bar throws. */
  method AppendCategoryBlocks(entries: seq<(nat, (string, real))>, totalDespesas: real) returns (r: Option<string>)
    ensures r == CategoryBlocks(entries, totalDespesas)
  {
    var text := "";
    var i := 0;
    while i < |entries|
      invariant 0 <= i <= |entries|
      invariant CategoryBlocks(entries[..i], totalDespesas) == Some(text)
    {
      CategoryBlocksStep(entries, i, totalDespesas);
      var block := CategoryBlock(entries[i], totalDespesas);
      if block.None? {
        CategoryBlocksPrefix(entries, i + 1, totalDespesas);
        return None;
      }
      text := text + block.value;
      i := i + 1;
    }
    assert entries[..|entries|] == entries;
    r := Some(text);
  }

  /** `exportExecutiveReport(data, filename)`: appends each section to `report`, entry by entry. */
  method ExportExecutiveReport(data: ExportData, filename: string, now: Day, time: string) returns (file: Option<Download>)
    ensures file.None? <==> ExecutiveReport(data, now, time).None?
    ensures file.Some? ==> file.value == Download(ExecutiveReport(data, now, time).value, filename + ".txt", "text/plain")
  {
    var goals := GoalsSection(data);
    var categories := CategoriesSection(data);
    if categories.None? {
      return None;
    }
    var report := Sections(data, now, time, goals, categories.value);
    ExecutiveReportOf(data, now, time, goals, categories.value);
    file := Some(Download(report, filename + ".txt", "text/plain"));
  }

  lemma ExecutiveReportOf(data: ExportData, now: Day, time: string, goals: string, categories: string)
    requires goals == GoalsText(data) && CategoriesText(data) == Some(categories)
    ensures ExecutiveReport(data, now, time) == Some(Sections(data, now, time, goals, categories))
  {
  }

  /** The goal entries appended one by one, or the "no goals" notice. */
  method GoalsSection(data: ExportData) returns (text: string)
    ensures text == GoalsText(data)
  {
    if |data.metas| == 0 {
      text := NoGoals;
    } else {
      text := Strs.AppendEach("", Numbered(data.metas), (e: (nat, Meta)) => GoalBlock(e, data.transactions));
    }
  }

  /** The categories grouped with `ExpenseMap`, ranked, and their entries appended. */
  method CategoriesSection(data: ExportData) returns (r: Option<string>)
    ensures r == CategoriesText(data)
  {
    var categorias := ExpenseMap(data.transactions);
    CategoryRankingSpec(data.transactions);
    var ranking := Sort(categorias, ByValueDesc);
    assert |ranking| == |categorias| by {
      assert |multiset(ranking)| == |multiset(categorias)|;
    }
    if |categorias| == 0 {
      r := Some(NoExpenses);
    } else {
      r := AppendCategoryBlocks(Numbered(Take(ranking, 10)), data.summary.totalDespesas);
    }
  }

  lemma CategoryBlocksStep(entries: seq<(nat, (string, real))>, i: nat, totalDespesas: real)
    requires i < |entries|
    ensures CategoryBlocks(entries[..i + 1], totalDespesas) ==
            match CategoryBlocks(entries[..i], totalDespesas)
            case None => None
            case Some(text) =>
              match CategoryBlock(entries[i], totalDespesas)
              case None => None
              case Some(b) => Some(text + b)
  {
    assert entries[..i + 1][..i] == entries[..i];
    assert entries[..i + 1][i] == entries[i];
  }

  /** Once a prefix of the entries throws, the whole list throws. */
  lemma CategoryBlocksPrefix(entries: seq<(nat, (string, real))>, k: nat, totalDespesas: real)
    requires k <= |entries|
    requires CategoryBlocks(entries[..k], totalDespesas).None?
    ensures CategoryBlocks(entries, totalDespesas).None?
  {
    CategoryBlocksDefined(entries[..k], totalDespesas);
    CategoryBlocksDefined(entries, totalDespesas);
    var i :| 0 <= i < k && Bar(NumFmt.Percent(entries[..k][i].1.1, totalDespesas)).None?;
    assert entries[..k][i] == entries[i];
  }
}
