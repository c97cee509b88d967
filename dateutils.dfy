/**
 * `src/lib/dateUtils.ts`: local-time `YYYY-MM-DD` formatting, day
 * addition, and the current-month, next-month and current-year ranges.
 * The clock is a parameter (`now` / `today`).
 */
module DateUtils {
  import Strs
  import opened Calendar
  import opened Ledger

  /** `${year}-${month}-${day}`, month and day padded to two digits, year as `String(year)`. */
  function FormatDateLocal(d: Day): (s: string)
    ensures d.year >= 0 ==> Split(s) == [Strs.NatStr(d.year), Strs.Pad2(d.month), Strs.Pad2(d.day)]
    ensures d.year >= 0 && d.year < 10000 ==> 7 <= |s| <= 10
  {
    var y, m, dd := Strs.IntStr(d.year), Strs.Pad2(d.month), Strs.Pad2(d.day);
    var s := y + "-" + m + "-" + dd;
    if d.year >= 0 then
      SplitFormatted(Strs.NatStr(d.year), m, dd);
      s
    else s
  }

  function Split(s: string): seq<string> { Strs.Split(s, '-') }

  lemma SplitFormatted(y: string, m: string, d: string)
    requires Strs.AllDigits(y) && Strs.AllDigits(m) && Strs.AllDigits(d)
    ensures Split(y + "-" + m + "-" + d) == [y, m, d]
  {
    assert y + "-" + m + "-" + d == y + ['-'] + (m + ['-'] + d);
    Strs.SplitFirst(y, '-', m + ['-'] + d);
    Strs.SplitFirst(m, '-', d);
    Strs.SplitNone(d, '-');
  }

  /** Reading a `YYYY-MM-DD` string back into its three numbers. */
  function ParseYmd(s: string): Option<Date>
  {
    var parts := Split(s);
    if |parts| == 3 && (forall i :: 0 <= i < 3 ==> |parts[i]| > 0 && Strs.AllDigits(parts[i])) then
      Some(Date(Strs.ParseDigits(parts[0]), Strs.ParseDigits(parts[1]), Strs.ParseDigits(parts[2])))
    else None
  }

  /** Splitting a formatted date on "-" gives back its year, month and day. */
  lemma FormatRoundTrip(d: Day)
    requires d.year >= 0
    ensures ParseYmd(FormatDateLocal(d)) == Some(d)
  {
    Strs.ParseNatStr(d.year);
  }

  /** `getCurrentDateLocal()`: today's local date, formatted. */
  function GetCurrentDateLocal(now: Day): (s: string)
    ensures now.year >= 0 ==> ParseYmd(s) == Some(now)
  {
    if now.year >= 0 then FormatRoundTrip(now); FormatDateLocal(now) else FormatDateLocal(now)
  }

  /** `addDaysLocal(date, days)`: a copy of `date` moved by `days`, formatted. */
  function AddDaysLocal(d: Day, days: int): (s: string)
    ensures days == 0 ==> s == FormatDateLocal(d)
  {
    FormatDateLocal(AddDays(d, days))
  }

  /** Adding `a` days and then `b` days formats like adding `a + b` days. */
  lemma AddDaysLocalAdditive(d: Day, a: int, b: int)
    ensures AddDaysLocal(AddDays(d, a), b) == AddDaysLocal(d, a + b)
  {
    AddDaysAdd(d, a, b);
  }

  datatype Range = Range(start: string, end: string)

  /** `getCurrentMonthRange()`: day 01 to the month's last day (28/29/30/31). */
  function GetCurrentMonthRange(today: Day): (r: Range)
    ensures r.start == FormatDateLocal(Date(today.year, today.month, 1))
    ensures r.end == FormatDateLocal(Date(today.year, today.month, DaysInMonth(today.year, today.month)))
  {
    var firstDay := MakeDate(today.year, today.month - 1, 1);
    var lastDay := MakeDate(today.year, today.month - 1 + 1, 0);
    MakeDateExact(today.year, today.month - 1, 1);
    MakeDateLastDay(today.year, today.month - 1);
    Range(FormatDateLocal(firstDay), FormatDateLocal(lastDay))
  }

  /** Year and month after (`year`, `month`), December rolling over to January. */
  function FollowingMonth(year: int, month: int): (int, int)
  {
    if month == 12 then (year + 1, 1) else (year, month + 1)
  }

  lemma FollowingMonthNorm(year: int, month: int)
    requires 1 <= month <= 12
    ensures FollowingMonth(year, month) == (NormYear(year, month), NormMonth(month))
  {
    if month < 12 {
      assert month / 12 == 0 && month % 12 == month;
    }
  }

  /** `getNextMonthRange()`: the whole of the following month. */
  function GetNextMonthRange(today: Day): (r: Range)
    ensures var (y, m) := FollowingMonth(today.year, today.month);
            r == Range(FormatDateLocal(Date(y, m, 1)), FormatDateLocal(Date(y, m, DaysInMonth(y, m))))
  {
    var firstDay := MakeDate(today.year, today.month - 1 + 1, 1);
    var lastDay := MakeDate(today.year, today.month - 1 + 2, 0);
    MakeDateFirst(today.year, today.month);
    MakeDateLastDay(today.year, today.month);
    FollowingMonthNorm(today.year, today.month);
    Range(FormatDateLocal(firstDay), FormatDateLocal(lastDay))
  }

  /** `getCurrentYearRange()`: January 1st to December 31st of the current year. */
  function GetCurrentYearRange(today: Day): (r: Range)
    ensures r == Range(FormatDateLocal(Date(today.year, 1, 1)), FormatDateLocal(Date(today.year, 12, 31)))
  {
    MakeDateExact(today.year, 0, 1);
    MakeDateExact(today.year, 11, 31);
    Range(FormatDateLocal(MakeDate(today.year, 0, 1)), FormatDateLocal(MakeDate(today.year, 11, 31)))
  }
}
