/**
 * Proleptic Gregorian dates as Python's `datetime.date` holds them, the day
 * before a date (`today - timedelta(days=1)`), and `str(date)`, which is the
 * complete extended calendar-date format of ISO 8601 (section 5.2.1.1):
 * YYYY-MM-DD.
 */
module Calendar {
  import opened Wrappers
  import opened Decimal

  datatype Date = Date(year: int, month: int, day: int)

  const MinYear := 1
  const MaxYear := 9999

  /** The first and last dates Python's `date` type can hold. */
  const First := Date(MinYear, 1, 1)
  const Last := Date(MaxYear, 12, 31)

  predicate IsLeapYear(year: int) {
    year % 4 == 0 && (year % 100 != 0 || year % 400 == 0)
  }

  function DaysInMonth(year: int, month: int): int
    requires 1 <= month <= 12
  {
    if month == 2 then (if IsLeapYear(year) then 29 else 28)
    else if month == 4 || month == 6 || month == 9 || month == 11 then 30
    else 31
  }

  predicate Valid(d: Date) {
    && MinYear <= d.year <= MaxYear
    && 1 <= d.month <= 12
    && 1 <= d.day <= DaysInMonth(d.year, d.month)
  }

  /** Days in the year before the first of `month`: a fixed table plus the leap day after February. */
  function DaysBeforeMonth(year: int, month: int): int
    requires 1 <= month <= 12
  {
    var table := [0, 31, 59, 90, 120, 151, 181, 212, 243, 273, 304, 334];
    table[month - 1] + (if month > 2 && IsLeapYear(year) then 1 else 0)
  }

  /** Days from 0001-01-01 up to (not including) January 1st of `year`. */
  function DaysBeforeYear(year: int): int
    requires year >= 1
  {
    var y := year - 1;
    y * 365 + y / 4 - y / 100 + y / 400
  }

  /** `date.toordinal()`: the day number counted from 0001-01-01, which is day 1. */
  function Ordinal(d: Date): int
    requires Valid(d)
  {
    DaysBeforeYear(d.year) + DaysBeforeMonth(d.year, d.month) + d.day
  }

  /** The calendar day before `d`; Python raises OverflowError before 0001-01-01. */
  function Predecessor(d: Date): (r: Date)
    requires Valid(d) && d != First
    ensures Valid(r)
  {
    if d.day > 1 then Date(d.year, d.month, d.day - 1)
    else if d.month > 1 then Date(d.year, d.month - 1, DaysInMonth(d.year, d.month - 1))
    else Date(d.year - 1, 12, 31)
  }

  /** The calendar day after `d`, stated independently of `Predecessor`. */
  function Successor(d: Date): (r: Date)
    requires Valid(d) && d != Last
    ensures Valid(r)
  {
    if d.day < DaysInMonth(d.year, d.month) then Date(d.year, d.month, d.day + 1)
    else if d.month < 12 then Date(d.year, d.month + 1, 1)
    else Date(d.year + 1, 1, 1)
  }

  /** `str(d)`: four-digit year, two-digit month and day, separated by hyphens. */
  function IsoString(d: Date): (s: string)
    requires Valid(d)
    ensures |s| == 10
  {
    PaddedDigits(d.year, 4) + "-" + PaddedDigits(d.month, 2) + "-" + PaddedDigits(d.day, 2)
  }

  /** `date.fromisoformat(s)` for the YYYY-MM-DD form. */
  function ParseIso(s: string): Option<Date>
  {
    if |s| == 10 && s[4] == '-' && s[7] == '-'
       && AllDigits(s[..4]) && AllDigits(s[5..7]) && AllDigits(s[8..])
    then
      var d := Date(ParseNat(s[..4]), ParseNat(s[5..7]), ParseNat(s[8..]));
      if Valid(d) then Some(d) else None
    else None
  }

  /** `get_yesterdays_date()`, with the clock's `date.today()` passed in as `today`. */
  function YesterdaysDate(today: Date): (s: string)
    requires Valid(today) && today != First
    ensures |s| == 10
    ensures ParseIso(s) == Some(Predecessor(today))
  {
    ParseIsoRoundTrip(Predecessor(today));
    IsoString(Predecessor(today))
  }

  lemma StepDiv4(k: int)
    requires k >= 1
    ensures k / 4 - (k - 1) / 4 == (if k % 4 == 0 then 1 else 0)
  {
  }

  lemma StepDiv100(k: int)
    requires k >= 1
    ensures k / 100 - (k - 1) / 100 == (if k % 100 == 0 then 1 else 0)
  {
  }

  lemma StepDiv400(k: int)
    requires k >= 1
    ensures k / 400 - (k - 1) / 400 == (if k % 400 == 0 then 1 else 0)
  {
  }

  lemma Div400IsDiv100(k: int)
    requires k % 400 == 0
    ensures k % 100 == 0
  {
    var q := k / 400;
    assert k == 100 * (4 * q);
  }

  lemma Div100IsDiv4(k: int)
    requires k % 100 == 0
    ensures k % 4 == 0
  {
    var q := k / 100;
    assert k == 4 * (25 * q);
  }

  /** Counting days: the year before `year` contributes 365 days plus its leap day. */
  lemma DaysBeforeNextYear(year: int)
    requires year >= 2
    ensures DaysBeforeYear(year) == DaysBeforeYear(year - 1) + 365 + (if IsLeapYear(year - 1) then 1 else 0)
  {
    var k := year - 1;
    StepDiv4(k);
    StepDiv100(k);
    StepDiv400(k);
    if k % 400 == 0 {
      Div400IsDiv100(k);
    }
    if k % 100 == 0 {
      Div100IsDiv4(k);
    }
    var step4 := k / 4 - (k - 1) / 4;
    var step100 := k / 100 - (k - 1) / 100;
    var step400 := k / 400 - (k - 1) / 400;
    assert DaysBeforeYear(year) - DaysBeforeYear(year - 1) == 365 + step4 - step100 + step400;
    assert step4 - step100 + step400 == (if IsLeapYear(k) then 1 else 0);
  }

  /** The predecessor is exactly one day earlier on Python's ordinal scale, i.e. `today - timedelta(days=1)`. */
  lemma PredecessorIsDayBefore(d: Date)
    requires Valid(d) && d != First
    ensures Ordinal(Predecessor(d)) == Ordinal(d) - 1
  {
    if d.day == 1 && d.month == 1 {
      DaysBeforeNextYear(d.year);
    }
  }

  /** Month and year boundaries, and the leap day. */
  lemma PredecessorAtBoundaries(year: int, month: int)
    requires MinYear <= year <= MaxYear && 1 <= month <= 12
    ensures month == 3 ==> Predecessor(Date(year, 3, 1)) == Date(year, 2, if IsLeapYear(year) then 29 else 28)
    ensures month > 1 ==> Predecessor(Date(year, month, 1)) == Date(year, month - 1, DaysInMonth(year, month - 1))
    ensures year > MinYear ==> Predecessor(Date(year, 1, 1)) == Date(year - 1, 12, 31)
    ensures (month == 3 && IsLeapYear(year)) ==> Ordinal(Date(year, 2, 29)) + 1 == Ordinal(Date(year, 3, 1))
    ensures month > 1 ==> Ordinal(Date(year, month - 1, DaysInMonth(year, month - 1))) + 1 == Ordinal(Date(year, month, 1))
    ensures year > MinYear ==> Ordinal(Date(year - 1, 12, 31)) + 1 == Ordinal(Date(year, 1, 1))
  {
    if month > 1 {
      PredecessorIsDayBefore(Date(year, month, 1));
    }
    if year > MinYear {
      PredecessorIsDayBefore(Date(year, 1, 1));
    }
  }

  /** February 29th is only ever produced in a leap year. */
  lemma LeapDayOnlyInLeapYears(d: Date)
    requires Valid(d) && d != First
    requires Predecessor(d).month == 2 && Predecessor(d).day == 29
    ensures IsLeapYear(Predecessor(d).year)
  {
  }

  /** The day after the day before is the same day, and conversely. */
  lemma PredecessorSuccessorInverse(d: Date)
    requires Valid(d)
    ensures d != First ==> Successor(Predecessor(d)) == d
    ensures d != Last ==> Predecessor(Successor(d)) == d
  {
  }

  /** There is only one date whose successor is `today`, and it is `Predecessor(today)`. */
  lemma PredecessorUnique(today: Date, e: Date)
    requires Valid(today) && Valid(e) && e != Last
    requires Successor(e) == today
    ensures today != First && e == Predecessor(today)
  {
    PredecessorSuccessorInverse(e);
  }

  /** Where the three fields sit in a YYYY-MM-DD string. */
  lemma IsoLayout(y: string, m: string, d: string)
    requires |y| == 4 && |m| == 2 && |d| == 2
    ensures var s := y + "-" + m + "-" + d;
      && |s| == 10 && s[4] == '-' && s[7] == '-'
      && s[..4] == y && s[5..7] == m && s[8..] == d
  {
  }

  lemma ParseIsoRoundTrip(d: Date)
    requires Valid(d)
    ensures ParseIso(IsoString(d)) == Some(d)
  {
    IsoLayout(PaddedDigits(d.year, 4), PaddedDigits(d.month, 2), PaddedDigits(d.day, 2));
    ParsePadded(d.year, 4);
    ParsePadded(d.month, 2);
    ParsePadded(d.day, 2);
  }

  /** The rendered yesterday is a valid date one day before `today`, and `today` is its successor. */
  lemma YesterdayIsDayBefore(today: Date)
    requires Valid(today) && today != First
    ensures ParseIso(YesterdaysDate(today)).Some?
    ensures Valid(ParseIso(YesterdaysDate(today)).value)
    ensures Ordinal(ParseIso(YesterdaysDate(today)).value) == Ordinal(today) - 1
    ensures ParseIso(YesterdaysDate(today)).value != Last
    ensures Successor(ParseIso(YesterdaysDate(today)).value) == today
  {
    var y := Predecessor(today);
    assert ParseIso(YesterdaysDate(today)) == Some(y);
    PredecessorIsDayBefore(today);
    assert y.year <= today.year;
    PredecessorSuccessorInverse(today);
  }
}
