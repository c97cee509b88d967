/**
 * Proleptic Gregorian calendar dates, as JavaScript's `Date` and Python's
 * `datetime.date` see them at day granularity (time of day is not
 * modelled). A date is a (year, month 1..12, day) triple.
 */
module Calendar {
  import Strs
  import Seqs

  datatype Date = Date(year: int, month: int, day: int)

  predicate IsLeap(y: int)
  {
    (y % 4 == 0 && y % 100 != 0) || y % 400 == 0
  }

  /** Length of month `m` (1..12) of year `y` under the Gregorian leap rule. */
  function DaysInMonth(y: int, m: int): (n: int)
    ensures 28 <= n <= 31
    ensures m == 2 ==> (n == 29 <==> IsLeap(y))
    ensures m != 2 ==> n >= 30
  {
    if m == 2 then (if IsLeap(y) then 29 else 28)
    else if m == 4 || m == 6 || m == 9 || m == 11 then 30
    else 31
  }

  predicate Valid(d: Date)
  {
    1 <= d.month <= 12 && 1 <= d.day <= DaysInMonth(d.year, d.month)
  }

  /** The calendar day after `d`. */
  function NextDay(d: Date): (r: Date)
    requires Valid(d)
    ensures Valid(r)
  {
    if d.day < DaysInMonth(d.year, d.month) then Date(d.year, d.month, d.day + 1)
    else if d.month < 12 then Date(d.year, d.month + 1, 1)
    else Date(d.year + 1, 1, 1)
  }

  /** The calendar day before `d`. */
  function PrevDay(d: Date): (r: Date)
    requires Valid(d)
    ensures Valid(r)
  {
    if d.day > 1 then Date(d.year, d.month, d.day - 1)
    else if d.month > 1 then Date(d.year, d.month - 1, DaysInMonth(d.year, d.month - 1))
    else Date(d.year - 1, 12, 31)
  }

  lemma NextPrev(d: Date)
    requires Valid(d)
    ensures PrevDay(NextDay(d)) == d
    ensures NextDay(PrevDay(d)) == d
  {
  }

  /** `d` moved by `n` days (negative `n` moves backwards), one day at a time. */
  function AddDays(d: Date, n: int): (r: Date)
    requires Valid(d)
    ensures Valid(r)
    decreases if n >= 0 then n else -n
  {
    if n == 0 then d
    else if n > 0 then AddDays(NextDay(d), n - 1)
    else AddDays(PrevDay(d), n + 1)
  }

  lemma StepNext(d: Date, k: int)
    requires Valid(d)
    ensures AddDays(NextDay(d), k - 1) == AddDays(d, k)
  {
    NextPrev(d);
  }

  lemma StepPrev(d: Date, k: int)
    requires Valid(d)
    ensures AddDays(PrevDay(d), k + 1) == AddDays(d, k)
  {
    NextPrev(d);
  }

  /** Moving by `a` days and then by `b` days is moving by `a + b` days. */
  lemma {:induction false} AddDaysAdd(d: Date, a: int, b: int)
    requires Valid(d)
    ensures AddDays(AddDays(d, a), b) == AddDays(d, a + b)
    decreases if a >= 0 then a else -a
  {
    if a > 0 {
      AddDaysAdd(NextDay(d), a - 1, b);
      StepNext(d, a + b);
    } else if a < 0 {
      AddDaysAdd(PrevDay(d), a + 1, b);
      StepPrev(d, a + b);
    }
  }

  /** Moving forward inside a month only changes the day. */
  lemma {:induction false} AddDaysInMonth(y: int, m: int, k: nat)
    requires 1 <= m <= 12 && k < DaysInMonth(y, m)
    ensures AddDays(Date(y, m, 1), k) == Date(y, m, 1 + k)
  {
    if k > 0 {
      AddDaysInMonth(y, m, k - 1);
      AddDaysAdd(Date(y, m, 1), k - 1, 1);
    }
  }

  /**
   * JavaScript `new Date(y, monthIndex, d)`: a month index outside 0..11
   * rolls into neighbouring years, and a day outside the month rolls into
   * neighbouring months (day 0 is the last day of the previous month).
   */
  function MakeDate(y: int, monthIndex: int, d: int): (r: Date)
    ensures Valid(r)
  {
    AddDays(Date(y + monthIndex / 12, monthIndex % 12 + 1, 1), d - 1)
  }

  /** An in-range day of an in-range month is taken as written. */
  lemma MakeDateExact(y: int, monthIndex: int, d: int)
    requires 0 <= monthIndex < 12 && 1 <= d <= DaysInMonth(y, monthIndex + 1)
    ensures MakeDate(y, monthIndex, d) == Date(y, monthIndex + 1, d)
  {
    AddDaysInMonth(y, monthIndex + 1, d - 1);
  }

  /** Year and month reached from year `y`, month index `monthIndex` (any integer). */
  function NormYear(y: int, monthIndex: int): int { y + monthIndex / 12 }
  function NormMonth(monthIndex: int): (m: int)
    ensures 1 <= m <= 12
  {
    monthIndex % 12 + 1
  }

  /** The first day of any month index is day 1 of the normalised month. */
  lemma MakeDateFirst(y: int, monthIndex: int)
    ensures MakeDate(y, monthIndex, 1) == Date(NormYear(y, monthIndex), NormMonth(monthIndex), 1)
  {
  }

  /** `new Date(y, monthIndex + 1, 0)` is the last day of month `monthIndex`. */
  lemma MakeDateLastDay(y: int, monthIndex: int)
    ensures MakeDate(y, monthIndex + 1, 0)
         == Date(NormYear(y, monthIndex), NormMonth(monthIndex),
                 DaysInMonth(NormYear(y, monthIndex), NormMonth(monthIndex)))
  {
    var y1, m1 := NormYear(y, monthIndex), NormMonth(monthIndex);
    var first := Date(NormYear(y, monthIndex + 1), NormMonth(monthIndex + 1), 1);
    assert MakeDate(y, monthIndex + 1, 0) == AddDays(first, -1);
    assert AddDays(first, -1) == AddDays(PrevDay(first), 0) == PrevDay(first);
    if m1 < 12 {
      assert first == Date(y1, m1 + 1, 1);
    } else {
      assert first == Date(y1 + 1, 1, 1);
    }
  }

  /** Month index `a + 1` normalises to the month after month index `a`. */
  lemma NormStep(y: int, a: int)
    ensures NormMonth(a) < 12 ==> NormYear(y, a + 1) == NormYear(y, a) && NormMonth(a + 1) == NormMonth(a) + 1
    ensures NormMonth(a) == 12 ==> NormYear(y, a + 1) == NormYear(y, a) + 1 && NormMonth(a + 1) == 1
  {
    var q, r := a / 12, a % 12;
    assert a == 12 * q + r && 0 <= r < 12;
    if r < 11 {
      assert a + 1 == 12 * q + (r + 1);
      assert (a + 1) / 12 == q && (a + 1) % 12 == r + 1;
    } else {
      assert a + 1 == 12 * (q + 1);
      assert (a + 1) / 12 == q + 1 && (a + 1) % 12 == 0;
    }
  }

  /** Twelve more months is one more year. */
  lemma NormYearShift(y: int, a: int)
    ensures NormYear(y - 1, a + 12) == NormYear(y, a) && NormMonth(a + 12) == NormMonth(a)
  {
    var q, r := a / 12, a % 12;
    assert a + 12 == 12 * (q + 1) + r;
  }

  /** `new Date(y - 1, m, d)` is `new Date(y, m - 12, d)`. */
  lemma MakeDateYearBack(y: int, monthIndex: int, d: int)
    ensures MakeDate(y - 1, monthIndex, d) == MakeDate(y, monthIndex - 12, d)
  {
    NormYearShift(y, monthIndex - 12);
  }

  /** The first day of month index `a` counted from January of year `y`. */
  function First(y: int, a: int): (r: Date)
    ensures Valid(r)
  {
    Date(NormYear(y, a), NormMonth(a), 1)
  }

  /** The length of month index `a` counted from January of year `y`. */
  function MonthLength(y: int, a: int): int { DaysInMonth(NormYear(y, a), NormMonth(a)) }

  /** The first of the next month is a month's length after the first of this month. */
  lemma MonthStartStep(y: int, a: int)
    ensures First(y, a + 1) == AddDays(First(y, a), MonthLength(y, a))
  {
    var y1, m1 := NormYear(y, a), NormMonth(a);
    var n := DaysInMonth(y1, m1);
    AddDaysInMonth(y1, m1, n - 1);
    AddDaysAdd(Date(y1, m1, 1), n - 1, 1);
    NormStep(y, a);
    assert AddDays(Date(y1, m1, n), 1) == AddDays(NextDay(Date(y1, m1, n)), 0);
  }

  /** `MonthStartStep` for the month that ends at month index `b`. */
  lemma MonthEndStep(y: int, b: int)
    ensures First(y, b) == AddDays(First(y, b - 1), MonthLength(y, b - 1))
  {
    MonthStartStep(y, b - 1);
    assert b - 1 + 1 == b;
  }

  /** Number of days from the first of month index `a` to the first of month index `b`. */
  function MonthSpan(y: int, a: int, b: int): (n: nat)
    requires a <= b
    ensures n >= 28 * (b - a)
    decreases b - a
  {
    if b == a then 0 else MonthSpan(y, a, b - 1) + MonthLength(y, b - 1)
  }

  lemma {:induction false} MonthStartSpan(y: int, a: int, b: int)
    requires a <= b
    ensures First(y, b) == AddDays(First(y, a), MonthSpan(y, a, b))
    decreases b - a
  {
    if a < b {
      MonthStartSpan(y, a, b - 1);
      MonthEndStep(y, b);
      AddDaysAdd(First(y, a), MonthSpan(y, a, b - 1), MonthLength(y, b - 1));
    }
  }

  /** The same day `b - a` months later is `MonthSpan` days later (with JavaScript's overflow). */
  lemma MonthsLater(y: int, a: int, b: int, d: int)
    requires a <= b
    ensures MakeDate(y, b, d) == AddDays(MakeDate(y, a, d), MonthSpan(y, a, b))
  {
    var f1 := First(y, a);
    assert MakeDate(y, a, d) == AddDays(f1, d - 1);
    assert MakeDate(y, b, d) == AddDays(First(y, b), d - 1);
    MonthStartSpan(y, a, b);
    AddDaysAdd(f1, MonthSpan(y, a, b), d - 1);
    AddDaysAdd(f1, d - 1, MonthSpan(y, a, b));
  }

  /** A day that exists in the normalised month is taken as written. */
  lemma MakeDateInMonth(y: int, monthIndex: int, d: int)
    requires 1 <= d <= DaysInMonth(NormYear(y, monthIndex), NormMonth(monthIndex))
    ensures MakeDate(y, monthIndex, d) == Date(NormYear(y, monthIndex), NormMonth(monthIndex), d)
  {
    AddDaysInMonth(NormYear(y, monthIndex), NormMonth(monthIndex), d - 1);
  }

  /**
   * `new Date(year, month - 1 - k, day)` for the date `today`: the same day
   * `k` months earlier, a day the earlier month lacks rolling forward.
   */
  function MonthsBefore(today: Date, k: nat): (r: Date)
    requires Valid(today)
    ensures Valid(r)
  {
    MakeDate(today.year, today.month - 1 - k, today.day)
  }

  /** `today` is at least 28 days per month after the date `k` months before it. */
  lemma MonthsBeforeSpan(today: Date, k: nat)
    requires Valid(today)
    ensures today == AddDays(MonthsBefore(today, k), MonthSpan(today.year, today.month - 1 - k, today.month - 1))
  {
    MonthsLater(today.year, today.month - 1 - k, today.month - 1, today.day);
    MakeDateExact(today.year, today.month - 1, today.day);
  }

  // ---- order ----

  /** Chronological order. */
  predicate Le(a: Date, b: Date)
  {
    a.year < b.year || (a.year == b.year && (a.month < b.month || (a.month == b.month && a.day <= b.day)))
  }

  predicate Lt(a: Date, b: Date) { Le(a, b) && a != b }

  lemma LeTotal(a: Date, b: Date)
    ensures Le(a, b) || Le(b, a)
    ensures Le(a, b) && Le(b, a) ==> a == b
  {
  }

  lemma LeTrans(a: Date, b: Date, c: Date)
    requires Le(a, b) && Le(b, c)
    ensures Le(a, c)
  {
  }

  lemma NextDayLater(d: Date)
    requires Valid(d)
    ensures Lt(d, NextDay(d))
  {
  }

  /** Moving forward never goes back in time. */
  lemma {:induction false} AddDaysMonotone(d: Date, n: nat)
    requires Valid(d)
    ensures Le(d, AddDays(d, n))
    decreases n
  {
    if n > 0 {
      NextDayLater(d);
      AddDaysMonotone(NextDay(d), n - 1);
      LeTrans(d, NextDay(d), AddDays(NextDay(d), n - 1));
    }
  }

  /** Moving forward by a positive number of days lands strictly later. */
  lemma AddDaysLater(d: Date, n: nat)
    requires Valid(d) && n > 0
    ensures Lt(d, AddDays(d, n))
  {
    NextDayLater(d);
    AddDaysMonotone(NextDay(d), n - 1);
    LeTrans(d, NextDay(d), AddDays(NextDay(d), n - 1));
  }

  /** A whole number of months back is strictly earlier. */
  lemma MonthsBeforeEarlier(today: Date, k: nat)
    requires Valid(today) && k >= 1
    ensures Lt(MonthsBefore(today, k), today)
  {
    MonthsBeforeSpan(today, k);
    AddDaysLater(MonthsBefore(today, k), MonthSpan(today.year, today.month - 1 - k, today.month - 1));
  }

  /** `new Date(year - 1, month - 1, day)` is twelve months before. */
  lemma YearBefore(today: Date)
    requires Valid(today)
    ensures MakeDate(today.year - 1, today.month - 1, today.day) == MonthsBefore(today, 12)
  {
    MakeDateYearBack(today.year, today.month - 1, today.day);
  }

  // ---- text ----

  /** The characters of an ISO date. */
  predicate IsoChar(c: char) { Strs.IsDigit(c) || c == '-' || c == '+' || c == 'T' || c == ':' || c == '.' || c == 'Z' }

  /** Year field of `toISOString`: four digits for 0..9999, else a sign and six digits. */
  function IsoYear(y: int): (s: string)
    ensures forall i :: 0 <= i < |s| ==> IsoChar(s[i])
  {
    if 0 <= y <= 9999 then Strs.PadZeros(Strs.NatStr(y), 4)
    else if y < 0 then "-" + Strs.PadZeros(Strs.NatStr(-y), 6)
    else "+" + Strs.PadZeros(Strs.NatStr(y), 6)
  }

  /** The `YYYY-MM-DD` head of `toISOString()` for a stored transaction date. */
  function Iso(d: Date): (s: string)
    requires Valid(d)
    ensures 0 <= d.year <= 9999 ==> |s| == 10 && s[4] == '-' && s[7] == '-'
    ensures forall i :: 0 <= i < |s| ==> IsoChar(s[i])
  {
    IsoYear(d.year) + "-" + Strs.Pad2(d.month) + "-" + Strs.Pad2(d.day)
  }

  /**
   * `toISOString()` of a date stored at midnight UTC: the text a client
   * receives for a transaction date from the JSON of the transactions API.
   */
  function Timestamp(d: Date): (s: string)
    requires Valid(d)
    ensures forall i :: 0 <= i < |s| ==> IsoChar(s[i])
    ensures 0 <= d.year <= 9999 ==> |s| == 24 && s[..10] == Iso(d)
  {
    Iso(d) + "T00:00:00.000Z"
  }

  /** Days since 1970-01-01 in the proleptic Gregorian calendar (years counted from March). */
  function DayNumber(d: Date): int
  {
    YearDays(MarchYear(d)) + MonthOffset(d.month) + d.day - 1 - 719468
  }

  /** The year a date belongs to when years start in March. */
  function MarchYear(d: Date): int { if d.month <= 2 then d.year - 1 else d.year }

  /** Days in the March-based years before year `y` (from a fixed origin). */
  function YearDays(y: int): int { 365 * y + y / 4 - y / 100 + y / 400 }

  /** Days from March 1 to the first of month `m` (January and February close the March-based year). */
  function MonthOffset(m: int): int
  {
    if m == 1 then 306 else if m == 2 then 337 else if m == 3 then 0 else if m == 4 then 31
    else if m == 5 then 61 else if m == 6 then 92 else if m == 7 then 122 else if m == 8 then 153
    else if m == 9 then 184 else if m == 10 then 214 else if m == 11 then 245 else 275
  }

  lemma EpochDay()
    ensures DayNumber(Date(1970, 1, 1)) == 0
  {
  }

  /** A March-based year is 365 days long, 366 when the February that ends it has a leap day. */
  lemma YearLength(y: int)
    ensures YearDays(y) - YearDays(y - 1) == if IsLeap(y) then 366 else 365
  {
    LeapCount(y);
  }

  /** The leap day a year adds to the count from March on. */
  lemma LeapCount(y: int)
    ensures (y / 4 - (y - 1) / 4) - (y / 100 - (y - 1) / 100) + (y / 400 - (y - 1) / 400) == if IsLeap(y) then 1 else 0
  {
    DivStep(y, 4);
    DivStep(y, 100);
    DivStep(y, 400);
    if y % 400 == 0 {
      Multiples(y / 400);
    } else if y % 100 == 0 {
      assert y % 4 == 0 by { MultipleOfHundred(y / 100); }
    }
  }

  /** A multiple of 400 is a multiple of 100 and of 4. */
  lemma Multiples(q: int)
    ensures (400 * q) % 100 == 0 && (400 * q) % 4 == 0
  {
    assert 400 * q == 100 * (4 * q);
    assert 400 * q == 4 * (100 * q);
  }

  /** A multiple of 100 is a multiple of 4. */
  lemma MultipleOfHundred(q: int)
    ensures (100 * q) % 4 == 0
  {
    assert 100 * q == 4 * (25 * q);
  }

  /** `y / k` goes up by one exactly at the multiples of `k`. */
  lemma DivStep(y: int, k: int)
    requires k == 4 || k == 100 || k == 400
    ensures y / k - (y - 1) / k == if y % k == 0 then 1 else 0
  {
    if k == 4 {
      assert y == 4 * (y / 4) + y % 4;
    } else if k == 100 {
      assert y == 100 * (y / 100) + y % 100;
    } else {
      assert y == 400 * (y / 400) + y % 400;
    }
  }

  /** Inside a March-based year, each month starts a month's length after the one before it. */
  lemma OffsetStep(y: int, m: int)
    requires 1 <= m <= 11 && m != 2
    ensures MonthOffset(m + 1) == MonthOffset(m) + DaysInMonth(y, m)
  {
  }

  /** The next day is the next day number. */
  lemma DayNumberNext(d: Date)
    requires Valid(d)
    ensures DayNumber(NextDay(d)) == DayNumber(d) + 1
  {
    if d.day == DaysInMonth(d.year, d.month) {
      if d.month == 2 {
        YearLength(d.year);
      } else if d.month < 12 {
        OffsetStep(d.year, d.month);
      }
    }
  }

  /** Moving by `k` days moves the day number by `k`. */
  lemma {:induction false} DayNumberAdd(d: Date, k: int)
    requires Valid(d)
    ensures DayNumber(AddDays(d, k)) == DayNumber(d) + k
    decreases if k >= 0 then k else -k
  {
    if k > 0 {
      DayNumberAdd(NextDay(d), k - 1);
      DayNumberNext(d);
    } else if k < 0 {
      DayNumberAdd(PrevDay(d), k + 1);
      DayNumberNext(PrevDay(d));
      NextPrev(d);
    }
  }

  /** Milliseconds in a day. */
  const MsPerDay: int := 24 * 60 * 60 * 1000

  /** `new Date("YYYY-MM-DD").getTime()`: midnight UTC of the day. */
  function Millis(d: Date): int
  {
    DayNumber(d) * MsPerDay
  }

  /** `getDay()`: 0 for Sunday up to 6 for Saturday (1970-01-01 was a Thursday). */
  function Weekday(d: Date): (w: nat)
    ensures w < 7
  {
    (DayNumber(d) + 4) % 7
  }

  lemma WeekdayNext(d: Date)
    requires Valid(d)
    ensures Weekday(NextDay(d)) == (Weekday(d) + 1) % 7
  {
    DayNumberNext(d);
    ModSevenStep(DayNumber(d) + 4);
  }

  /** Moving by `k` days moves the weekday by `k`, modulo 7. */
  lemma WeekdayAdd(d: Date, k: int)
    requires Valid(d)
    ensures Weekday(AddDays(d, k)) == (Weekday(d) + k) % 7
  {
    DayNumberAdd(d, k);
    ModSevenShift(DayNumber(d) + 4, k);
  }

  lemma ModSevenShift(x: int, k: int)
    ensures (x + k) % 7 == (x % 7 + k) % 7
  {
    var q := x / 7;
    assert x == 7 * q + x % 7;
    assert x + k == 7 * q + (x % 7 + k);
  }

  lemma ModSevenStep(x: int)
    ensures (x + 1) % 7 == (x % 7 + 1) % 7
  {
    assert x == 7 * (x / 7) + x % 7;
    assert x + 1 == 7 * (x / 7) + (x % 7 + 1);
  }

  /** `toLocaleDateString("pt-BR")`: DD/MM/YYYY. */
  function PtBrDate(d: Date): string
  {
    Strs.Pad2(if d.day >= 0 then d.day else 0) + "/" + Strs.Pad2(if d.month >= 0 then d.month else 0) + "/" + Strs.IntStr(d.year)
  }

  /** `date.slice(0, 7)`: the `YYYY-MM` month key of a date. */
  function MonthKey(d: Date): (s: string)
    requires Valid(d)
    ensures 0 <= d.year <= 9999 ==> |s| == 7 && s == Iso(d)[..7]
    ensures forall i :: 0 <= i < |s| ==> IsoChar(s[i])
  {
    IsoYear(d.year) + "-" + Strs.Pad2(d.month)
  }

  /** For four-digit years, month keys compare as strings in the order of their months, and are equal exactly for the same month. */
  lemma MonthKeyOrder(a: Date, b: Date)
    requires Valid(a) && Valid(b) && 0 <= a.year <= 9999 && 0 <= b.year <= 9999
    ensures Strs.StrLe(MonthKey(a), MonthKey(b)) <==> a.year < b.year || (a.year == b.year && a.month <= b.month)
    ensures MonthKey(a) == MonthKey(b) <==> a.year == b.year && a.month == b.month
  {
    var ya, yb := IsoYear(a.year), IsoYear(b.year);
    var ma, mb := Strs.Pad2(a.month), Strs.Pad2(b.month);
    Strs.ParseNatStr(a.year);
    Strs.ParseNatStr(b.year);
    Strs.StrLeDigits(ya, yb);
    Strs.StrLeDigits(ma, mb);
    Seqs.AppendAssoc(ya, "-", ma);
    Seqs.AppendAssoc(yb, "-", mb);
    Strs.StrLeConcat(ya, "-" + ma, yb, "-" + mb);
    Strs.StrLeConcat("-", ma, "-", mb);
    if MonthKey(a) == MonthKey(b) {
      assert ya == MonthKey(a)[..4] == MonthKey(b)[..4] == yb;
      assert ma == MonthKey(a)[5..] == MonthKey(b)[5..] == mb;
    }
  }

  /** For four-digit years, ISO texts compare as strings in the order of their dates. */
  lemma IsoOrder(a: Date, b: Date)
    requires Valid(a) && Valid(b) && 0 <= a.year <= 9999 && 0 <= b.year <= 9999
    ensures Strs.StrLe(Iso(a), Iso(b)) <==> Le(a, b)
  {
    var da, db := Strs.Pad2(a.day), Strs.Pad2(b.day);
    MonthKeyOrder(a, b);
    Strs.StrLeDigits(da, db);
    Seqs.AppendAssoc(MonthKey(a), "-", da);
    Seqs.AppendAssoc(MonthKey(b), "-", db);
    Strs.StrLeConcat(MonthKey(a), "-" + da, MonthKey(b), "-" + db);
    Strs.StrLeConcat("-", da, "-", db);
  }

  /** For four-digit years, two dates have the same ISO text exactly when they are the same date. */
  lemma IsoInjective(a: Date, b: Date)
    requires Valid(a) && Valid(b) && 0 <= a.year <= 9999 && 0 <= b.year <= 9999
    ensures Iso(a) == Iso(b) <==> a == b
  {
    IsoOrder(a, b);
    IsoOrder(b, a);
    LeTotal(a, b);
  }

  /**
   * A `YYYY-MM-DD` bound compared as a string with a timestamp: the bound
   * is at most the timestamp exactly when its day is not later, and the
   * timestamp is at most the bound exactly when its day is strictly
   * earlier (on the bound's own day the longer text is the larger).
   */
  lemma TimestampOrder(a: Date, b: Date)
    requires Valid(a) && Valid(b) && 0 <= a.year <= 9999 && 0 <= b.year <= 9999
    ensures Strs.StrLe(Iso(a), Timestamp(b)) <==> Le(a, b)
    ensures Strs.StrLe(Timestamp(a), Iso(b)) <==> Lt(a, b)
  {
    var suffix := "T00:00:00.000Z";
    IsoOrder(a, b);
    IsoInjective(a, b);
    assert Iso(a) + [] == Iso(a) && Iso(b) + [] == Iso(b);
    Strs.StrLeConcat(Iso(a), [], Iso(b), suffix);
    Strs.StrLeConcat(Iso(a), suffix, Iso(b), []);
    assert !Strs.StrLe(suffix, []);
  }

}
