/**
 * The export panel: the transactions of the chosen period with their
 * totals and a period label, and the file name used when none is typed.
 * "Now" is a parameter and the local time zone is taken to be UTC, so a
 * date compares by its day; the custom dates are the days typed (`None`
 * for an empty input).
 */
module ExportControls {
  import opened Seqs
  import opened Ledger
  import opened Calendar
  import ExportManager
  import DateUtils

  /** The export formats. */
  datatype ExportType = Csv | Txt | Json

  /** The period select. */
  datatype PeriodKey = All | OneMonth | ThreeMonths | SixMonths | OneYear | CustomRange

  function TypeName(t: ExportType): string
  {
    match t
    case Csv => "csv"
    case Txt => "txt"
    case Json => "json"
  }

  /** The periods counted back from today. */
  predicate Relative(period: PeriodKey)
  {
    period.OneMonth? || period.ThreeMonths? || period.SixMonths? || period.OneYear?
  }

  const AllLabel: string := "Todos os dados"

  /** The first day kept by a relative period: the same day 1, 3 or 6 months or one year back. */
  function RelativeStart(period: PeriodKey, now: Day): Day
    requires Relative(period)
  {
    match period
    case OneMonth => MakeDate(now.year, now.month - 1 - 1, now.day)
    case ThreeMonths => MakeDate(now.year, now.month - 1 - 3, now.day)
    case SixMonths => MakeDate(now.year, now.month - 1 - 6, now.day)
    case OneYear => MakeDate(now.year - 1, now.month - 1, now.day)
  }

  function RelativeLabel(period: PeriodKey): string
    requires Relative(period)
  {
    match period
    case OneMonth => "Último mês"
    case ThreeMonths => "Últimos 3 meses"
    case SixMonths => "Últimos 6 meses"
    case OneYear => "Último ano"
  }

  /** How many months back a relative period reaches. */
  function MonthsBack(period: PeriodKey): nat
    requires Relative(period)
  {
    match period
    case OneMonth => 1
    case ThreeMonths => 3
    case SixMonths => 6
    case OneYear => 12
  }

  predicate From(start: Day, t: Transaction)
  {
    Le(start, t.date)
  }

  predicate Between(start: Day, end: Day, t: Transaction)
  {
    Le(start, t.date) && Le(t.date, end)
  }

  /** The transactions and the label `generateExportData` settles on. */
  function Selection(ts: seq<Transaction>, period: PeriodKey, customStart: Option<Day>, customEnd: Option<Day>, now: Day)
    : (seq<Transaction>, string)
  {
    if period == All then (ts, AllLabel)
    else if period == CustomRange then
      if customStart.Some? && customEnd.Some? then
        (Filter(ts, t => Between(customStart.value, customEnd.value, t)),
         PtBrDate(customStart.value) + " a " + PtBrDate(customEnd.value))
      else (ts, AllLabel)
    else
      var start := RelativeStart(period, now);
      (Filter(ts, t => From(start, t)), RelativeLabel(period))
  }

  /** `generateExportData`: the selection, the goals unchanged, and the totals of the selection. */
  function ExportDataOf(ts: seq<Transaction>, metas: seq<Meta>, period: PeriodKey,
                        customStart: Option<Day>, customEnd: Option<Day>, now: Day): ExportManager.ExportData
  {
    var selection := Selection(ts, period, customStart, customEnd, now);
    ExportManager.ExportData(selection.0, metas, ExportManager.SummaryOf(selection.0, selection.1))
  }

  /** "all" exports every transaction, labelled "Todos os dados". */
  lemma AllSpec(ts: seq<Transaction>, metas: seq<Meta>, customStart: Option<Day>, customEnd: Option<Day>, now: Day)
    ensures var d := ExportDataOf(ts, metas, All, customStart, customEnd, now);
            d.transactions == ts && d.metas == metas && d.summary.periodo == AllLabel &&
            d.summary.saldo == d.summary.totalReceitas - d.summary.totalDespesas && d.summary.saldo == Net(ts)
  {
  }

  /** A relative period starts on the same day 1, 3, 6 or 12 months back, which lies before today. */
  lemma RelativeStartSpec(period: PeriodKey, now: Day)
    requires Relative(period)
    ensures RelativeStart(period, now) == MonthsBefore(now, MonthsBack(period))
    ensures Lt(RelativeStart(period, now), now)
  {
    if period == OneYear {
      YearBefore(now);
    }
    MonthsBeforeEarlier(now, MonthsBack(period));
  }

  /**
   * A relative period keeps exactly the transactions dated on or after its
   * first day, in order; nothing caps the range above, so every transaction
   * from today on is kept.
   */
  lemma RelativeSpec(ts: seq<Transaction>, metas: seq<Meta>, period: PeriodKey,
                     customStart: Option<Day>, customEnd: Option<Day>, now: Day)
    requires Relative(period)
    ensures var d := ExportDataOf(ts, metas, period, customStart, customEnd, now);
            var start := RelativeStart(period, now);
            Subseq(d.transactions, ts) &&
            (forall t :: t in d.transactions <==> t in ts && Le(start, t.date)) &&
            (forall t :: t in ts && Le(now, t.date) ==> t in d.transactions) &&
            d.summary.periodo == RelativeLabel(period)
  {
    var start := RelativeStart(period, now);
    RelativeStartSpec(period, now);
    FilterSpec(ts, t => From(start, t));
    forall t | t in ts && Le(now, t.date) ensures Le(start, t.date) {
      LeTrans(start, now, t.date);
    }
  }

  /**
   * "custom" with both dates keeps the transactions between them, both
   * included, in order, labelled with the two dates; with a date missing it
   * keeps everything, labelled "Todos os dados".
   */
  lemma CustomSpec(ts: seq<Transaction>, metas: seq<Meta>, customStart: Option<Day>, customEnd: Option<Day>, now: Day)
    ensures var d := ExportDataOf(ts, metas, CustomRange, customStart, customEnd, now);
            if customStart.Some? && customEnd.Some? then
              Subseq(d.transactions, ts) &&
              (forall t :: t in d.transactions <==> t in ts && Le(customStart.value, t.date) && Le(t.date, customEnd.value)) &&
              d.summary.periodo == PtBrDate(customStart.value) + " a " + PtBrDate(customEnd.value)
            else d.transactions == ts && d.summary.periodo == AllLabel
  {
    if customStart.Some? && customEnd.Some? {
      FilterSpec(ts, t => Between(customStart.value, customEnd.value, t));
    }
  }

  /** Whatever the period, the summary holds the income and expense totals of what is exported, and their difference. */
  lemma SummarySpec(ts: seq<Transaction>, metas: seq<Meta>, period: PeriodKey,
                    customStart: Option<Day>, customEnd: Option<Day>, now: Day)
    ensures var d := ExportDataOf(ts, metas, period, customStart, customEnd, now);
            d.metas == metas &&
            d.summary.totalReceitas == IncomeTotal(d.transactions) &&
            d.summary.totalDespesas == ExpenseTotal(d.transactions) &&
            d.summary.saldo == d.summary.totalReceitas - d.summary.totalDespesas
  {
  }

  /** `generateExportData`: the switch over the period, then the two totals. */
  method GenerateExportData(ts: seq<Transaction>, metas: seq<Meta>, period: PeriodKey,
                            customStart: Option<Day>, customEnd: Option<Day>, now: Day)
    returns (data: ExportManager.ExportData)
    ensures data == ExportDataOf(ts, metas, period, customStart, customEnd, now)
  {
    var filteredTransactions := ts;
    var periodLabel := AllLabel;
    if period != All {
      if period == CustomRange {
        if customStart.Some? && customEnd.Some? {
          var startDate, endDate := customStart.value, customEnd.value;
          filteredTransactions := Filter(ts, t => Between(startDate, endDate, t));
          periodLabel := PtBrDate(startDate) + " a " + PtBrDate(endDate);
        }
      } else {
        var startDate := RelativeStart(period, now);
        periodLabel := RelativeLabel(period);
        filteredTransactions := Filter(ts, t => From(startDate, t));
      }
    }
    data := ExportManager.ExportData(filteredTransactions, metas, ExportManager.SummaryOf(filteredTransactions, periodLabel));
  }

  /** `filename || relatorio-<type>-<today>`. */
  function ExportFilename(filename: string, exportType: ExportType, today: Day): (name: string)
  {
    if filename != "" then filename
    else "relatorio-" + TypeName(exportType) + "-" + DateUtils.GetCurrentDateLocal(today)
  }

  /**
   * A typed name is used as it is; without one the name is "relatorio-", the
   * format and today's date, which reads back as today; either way it is
   * never empty.
   */
  lemma ExportFilenameSpec(filename: string, exportType: ExportType, today: Day)
    ensures ExportFilename(filename, exportType, today) != ""
    ensures filename != "" ==> ExportFilename(filename, exportType, today) == filename
    ensures filename == "" ==>
              var prefix := "relatorio-" + TypeName(exportType) + "-";
              var name := ExportFilename(filename, exportType, today);
              prefix <= name && (today.year >= 0 ==> DateUtils.ParseYmd(name[|prefix|..]) == Some(today))
  {
    if filename == "" {
      var prefix := "relatorio-" + TypeName(exportType) + "-";
      var name := ExportFilename(filename, exportType, today);
      assert name == prefix + DateUtils.GetCurrentDateLocal(today);
      assert name[|prefix|..] == DateUtils.GetCurrentDateLocal(today);
    }
  }
}
