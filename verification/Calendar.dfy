/** The proleptic Gregorian calendar behind validity windows: day numbers,
    weekdays, the weekly period start and month arithmetic. */
module Calendar {
  import opened Basics

  datatype Date = Date(year: int, month: int, day: int)

  const MIN_YEAR := 1
  const MAX_YEAR := 9999

  /** The last day number of the last representable year. */
  const MAX_ORDINAL := 3652059

  /** A day number whose whole week is representable. */
  type Day = d: int | 7 <= d <= MAX_ORDINAL witness 7

  predicate IsLeap(year: int) {
    year % 4 == 0 && (year % 100 != 0 || year % 400 == 0)
  }

  function DaysInMonth(year: int, month: int): int {
    if month == 2 then (if IsLeap(year) then 29 else 28)
    else if month == 4 || month == 6 || month == 9 || month == 11 then 30
    else 31
  }

  /** A date of the Gregorian calendar. */
  predicate Real(d: Date) {
    1 <= d.month <= 12 && 1 <= d.day <= DaysInMonth(d.year, d.month)
  }

  /** Thirty days have April, June, September and November; February has 28, and 29 in
      every fourth year but for three of four century years. */
  lemma MonthLengths(year: int)
    ensures forall m | 1 <= m <= 12 && m != 2 ::
              DaysInMonth(year, m) == if m in {1, 3, 5, 7, 8, 10, 12} then 31 else 30
    ensures DaysInMonth(4 * year, 2) == if year % 25 == 0 && year % 100 != 0 then 28 else 29
    ensures year % 4 != 0 ==> DaysInMonth(year, 2) == 28
  {
    assert 4 * year % 100 == 0 <==> year % 25 == 0;
    assert 4 * year % 400 == 0 <==> year % 100 == 0;
  }

  /** The dates the host language can represent. */
  predicate Representable(year: int) {
    MIN_YEAR <= year <= MAX_YEAR
  }

  function DaysBeforeYear(year: int): int {
    var y := year - 1;
    365 * y + y / 4 - y / 100 + y / 400
  }

  function DaysBeforeMonth(year: int, month: int): int
    requires 1 <= month <= 12
    decreases month
  {
    if month == 1 then 0 else DaysBeforeMonth(year, month - 1) + DaysInMonth(year, month - 1)
  }

  /** Day number: 1 January of year 1 is day 1. */
  function Ordinal(d: Date): int
    requires 1 <= d.month <= 12
  {
    DaysBeforeYear(d.year) + DaysBeforeMonth(d.year, d.month) + d.day
  }

  /** Monday is 0 and Sunday is 6. */
  function Weekday(ordinal: int): (w: int)
    ensures 0 <= w < 7
  {
    (ordinal + 6) % 7
  }

  /** The weekday moves on by one a day, and 1 May 2024 was a Wednesday. */
  lemma WeekdayMeaning(ordinal: int)
    ensures Weekday(ordinal + 1) == if Weekday(ordinal) == 6 then 0 else Weekday(ordinal) + 1
    ensures Weekday(Ordinal(Date(2024, 5, 1))) == 2
  {
    assert DaysBeforeMonth(2024, 3) == 60 && DaysBeforeMonth(2024, 5) == 121;
  }

  function PreviousDay(d: Date): Date
    requires 1 <= d.month <= 12
  {
    if d.day > 1 then d.(day := d.day - 1)
    else if d.month > 1 then Date(d.year, d.month - 1, DaysInMonth(d.year, d.month - 1))
    else Date(d.year - 1, 12, 31)
  }

  /** Months since year 0, so that month arithmetic is plain addition. */
  function MonthIndex(d: Date): int {
    12 * d.year + d.month - 1
  }

  function MonthLength(index: int): int {
    DaysInMonth(index / 12, index % 12 + 1)
  }

  /** Day number of the last day before the month with this index. */
  function DaysBefore(index: int): int {
    DaysBeforeYear(index / 12) + DaysBeforeMonth(index / 12, index % 12 + 1)
  }

  lemma MonthLengthBounds(index: int)
    ensures 28 <= MonthLength(index) <= 31
  {
  }

  lemma YearStep(year: int)
    ensures DaysBeforeYear(year + 1) == DaysBeforeYear(year) + (if IsLeap(year) then 366 else 365)
  {
    FourthYears(year);
    Centuries(year);
    FourthCenturies(year);
    assert year % 400 == 0 ==> year % 100 == 0;
    assert year % 100 == 0 ==> year % 4 == 0;
  }

  lemma FourthYears(year: int)
    ensures year / 4 - (year - 1) / 4 == (if year % 4 == 0 then 1 else 0)
  {
  }

  lemma Centuries(year: int)
    ensures year / 100 - (year - 1) / 100 == (if year % 100 == 0 then 1 else 0)
  {
  }

  lemma FourthCenturies(year: int)
    ensures year / 400 - (year - 1) / 400 == (if year % 400 == 0 then 1 else 0)
  {
  }

  lemma DecemberEndsYear(year: int)
    ensures DaysBeforeMonth(year, 12) + 31 == (if IsLeap(year) then 366 else 365)
  {
    assert DaysBeforeMonth(year, 4) == (if IsLeap(year) then 91 else 90);
    assert DaysBeforeMonth(year, 7) == (if IsLeap(year) then 182 else 181);
    assert DaysBeforeMonth(year, 10) == (if IsLeap(year) then 274 else 273);
  }

  /** Consecutive months tile the day numbers without gap or overlap. */
  lemma MonthStep(index: int)
    ensures DaysBefore(index + 1) == DaysBefore(index) + MonthLength(index)
  {
    var year, month := index / 12, index % 12 + 1;
    if month == 12 {
      assert (index + 1) / 12 == year + 1 && (index + 1) % 12 == 0;
      YearStep(year);
      DecemberEndsYear(year);
    } else {
      assert (index + 1) / 12 == year && (index + 1) % 12 + 1 == month + 1;
    }
  }

  lemma OrdinalByMonth(d: Date)
    requires 1 <= d.month <= 12
    ensures Ordinal(d) == DaysBefore(MonthIndex(d)) + d.day
    ensures MonthLength(MonthIndex(d)) == DaysInMonth(d.year, d.month)
    ensures d.year == MonthIndex(d) / 12 && d.month == MonthIndex(d) % 12 + 1
  {
    var index := MonthIndex(d);
    assert index == 12 * d.year + (d.month - 1);
    assert index / 12 == d.year;
    assert index % 12 == d.month - 1;
  }

  lemma {:induction false} MonthsApart(index: int, k: nat)
    ensures 28 * k <= DaysBefore(index + k) - DaysBefore(index) <= 31 * k
    decreases k
  {
    if k > 0 {
      MonthsApart(index, k - 1);
      MonthStep(index + k - 1);
      MonthLengthBounds(index + k - 1);
    }
  }

  /** Day numbers order dates by month first, then by day. */
  lemma OrdinalOrder(a: Date, b: Date)
    requires Real(a) && Real(b)
    ensures Ordinal(a) < Ordinal(b) <==>
            MonthIndex(a) < MonthIndex(b) || (MonthIndex(a) == MonthIndex(b) && a.day < b.day)
  {
    OrdinalByMonth(a);
    OrdinalByMonth(b);
    if MonthIndex(a) < MonthIndex(b) {
      MonthStep(MonthIndex(a));
      MonthsApart(MonthIndex(a) + 1, MonthIndex(b) - MonthIndex(a) - 1);
    } else if MonthIndex(b) < MonthIndex(a) {
      MonthStep(MonthIndex(b));
      MonthsApart(MonthIndex(b) + 1, MonthIndex(a) - MonthIndex(b) - 1);
    }
  }

  /** A day number names one real date only. */
  lemma OrdinalInjective(a: Date, b: Date)
    requires Real(a) && Real(b) && Ordinal(a) == Ordinal(b)
    ensures a == b
  {
    OrdinalOrder(a, b);
    OrdinalOrder(b, a);
    OrdinalByMonth(a);
    OrdinalByMonth(b);
  }

  lemma PreviousDayIsOneEarlier(d: Date)
    requires Real(d)
    ensures Real(PreviousDay(d)) && Ordinal(PreviousDay(d)) == Ordinal(d) - 1
  {
    if d.day == 1 && d.month == 1 {
      OrdinalByMonth(d);
      OrdinalByMonth(PreviousDay(d));
      MonthStep(MonthIndex(PreviousDay(d)));
    }
  }

  lemma MonthGrows(index: int)
    ensures DaysBefore(index) + 28 <= DaysBefore(index + 1) <= DaysBefore(index) + 31
  {
    MonthStep(index);
  }

  /** The month a day number falls in, searched forward from `index`. */
  function MonthContaining(index: int, ordinal: int): (r: int)
    requires DaysBefore(index) < ordinal
    ensures DaysBefore(r) < ordinal <= DaysBefore(r + 1)
    decreases ordinal - DaysBefore(index)
  {
    hide DaysBefore;
    MonthGrows(index);
    if ordinal <= DaysBefore(index + 1) then index else MonthContaining(index + 1, ordinal)
  }

  /** The date with this day number. */
  function ToDate(ordinal: int): (d: Date)
    requires 1 <= ordinal
    ensures Real(d) && Ordinal(d) == ordinal
  {
    assert DaysBefore(12) == 0;
    var index := MonthContaining(12, ordinal);
    MonthStep(index);
    var d := Date(index / 12, index % 12 + 1, ordinal - DaysBefore(index));
    OrdinalByMonth(d);
    d
  }

  /** Dates and day numbers are two forms of the same thing. */
  lemma DateRoundTrip(d: Date)
    requires Real(d) && 1 <= Ordinal(d)
    ensures ToDate(Ordinal(d)) == d
  {
    OrdinalInjective(ToDate(Ordinal(d)), d);
  }

  // ------------------------------------------------------------------
  // Months
  // ------------------------------------------------------------------

  /** `anchor` shifted by `months`, the day clamped to the target month; `None`
      when a date on the way is outside the representable years. */
  function AddMonths(anchor: Date, months: int): Option<Date>
    requires Real(anchor)
  {
    var zeroBased := anchor.month - 1 + months;
    var year := anchor.year + zeroBased / 12;
    var month := zeroBased % 12 + 1;
    var nextFirst := if month == 12 then Date(year + 1, 1, 1) else Date(year, month + 1, 1);
    if !Representable(nextFirst.year) || !Representable(PreviousDay(nextFirst).year) || !Representable(year) then None
    else
      var lastDay := PreviousDay(nextFirst).day;
      Some(Date(year, month, if anchor.day < lastDay then anchor.day else lastDay))
  }

  function Min(a: int, b: int): int { if a < b then a else b }

  /** The shift lands in exactly the month `months` later, on the anchor's day
      or on the month's last one, and it fails exactly outside the years the
      calendar can represent (December of the last year included). */
  lemma AddMonthsMeaning(anchor: Date, months: int)
    requires Real(anchor)
    ensures var target := MonthIndex(anchor) + months;
            && (AddMonths(anchor, months).Some? <==> 12 * MIN_YEAR <= target < 12 * MAX_YEAR + 11)
            && (AddMonths(anchor, months).Some? ==>
                  var r := AddMonths(anchor, months).value;
                  Real(r) && MonthIndex(r) == target && r.day == Min(anchor.day, MonthLength(target)))
  {
    var target := MonthIndex(anchor) + months;
    var zeroBased := anchor.month - 1 + months;
    assert target == 12 * anchor.year + zeroBased;
    assert target / 12 == anchor.year + zeroBased / 12 && target % 12 == zeroBased % 12;
  }

  lemma AddMonthsMonotone(a: Date, b: Date, months: int)
    requires Real(a) && Real(b) && Ordinal(a) <= Ordinal(b)
    requires AddMonths(a, months).Some? && AddMonths(b, months).Some?
    ensures Real(AddMonths(a, months).value) && Real(AddMonths(b, months).value)
    ensures Ordinal(AddMonths(a, months).value) <= Ordinal(AddMonths(b, months).value)
  {
    AddMonthsMeaning(a, months);
    AddMonthsMeaning(b, months);
    OrdinalOrder(b, a);
    OrdinalOrder(AddMonths(b, months).value, AddMonths(a, months).value);
  }

  /** A term of `months` months lasts between 28 and 31 days a month. */
  lemma AddMonthsSpan(anchor: Date, months: nat)
    requires Real(anchor) && AddMonths(anchor, months).Some?
    ensures Real(AddMonths(anchor, months).value)
    ensures 28 * months <= Ordinal(AddMonths(anchor, months).value) - Ordinal(anchor) <= 31 * months
  {
    var r := AddMonths(anchor, months).value;
    AddMonthsMeaning(anchor, months);
    OrdinalByMonth(anchor);
    OrdinalByMonth(r);
    MonthsApart(MonthIndex(anchor), months);
    if months > 0 && r.day < anchor.day {
      MonthStep(MonthIndex(anchor));
      MonthStep(MonthIndex(r));
      MonthsApart(MonthIndex(anchor) + 1, months);
    }
  }

  /** Two shifts equal one exactly when the stop-over month did not clamp the
      day below what the final month would have kept. */
  lemma AddMonthsComposes(anchor: Date, j: int, k: int)
    requires Real(anchor) && AddMonths(anchor, j).Some? && AddMonths(anchor, j + k).Some?
    ensures Real(AddMonths(anchor, j).value)
    ensures AddMonths(AddMonths(anchor, j).value, k) == AddMonths(anchor, j + k) <==>
            var stop, end := MonthLength(MonthIndex(anchor) + j), MonthLength(MonthIndex(anchor) + j + k);
            anchor.day <= stop || end <= stop
  {
    AddMonthsMeaning(anchor, j);
    AddMonthsMeaning(anchor, j + k);
    var stop := AddMonths(anchor, j).value;
    AddMonthsMeaning(stop, k);
    OrdinalByMonth(AddMonths(stop, k).value);
    OrdinalByMonth(AddMonths(anchor, j + k).value);
    hide AddMonths, Ordinal, DaysBefore;
  }

  /** In particular anchors up to the 28th always compose. */
  lemma AddMonthsComposesUpTo28(anchor: Date, j: int, k: int)
    requires Real(anchor) && anchor.day <= 28
    requires AddMonths(anchor, j).Some?
    ensures Real(AddMonths(anchor, j).value)
    ensures AddMonths(AddMonths(anchor, j).value, k) == AddMonths(anchor, j + k)
  {
    AddMonthsMeaning(anchor, j);
    AddMonthsMeaning(anchor, j + k);
    AddMonthsMeaning(AddMonths(anchor, j).value, k);
    MonthLengthBounds(MonthIndex(anchor) + j);
    if AddMonths(anchor, j + k).Some? {
      AddMonthsComposes(anchor, j, k);
    }
  }

  // ------------------------------------------------------------------
  // Weeks
  // ------------------------------------------------------------------

  /** The most recent `anchor` weekday on or before `today`. */
  function PeriodStart(anchor: int, today: int): int {
    today - (Weekday(today) - anchor) % 7
  }

  /** The period start is the one anchor weekday in the seven days ending today. */
  lemma PeriodStartUnique(anchor: int, today: int, day: int)
    requires 0 <= anchor < 7
    ensures day == PeriodStart(anchor, today) <==> today - 6 <= day <= today && Weekday(day) == anchor
  {
  }

  lemma PeriodStartMonotone(anchor: int, a: int, b: int)
    requires 0 <= anchor < 7 && a <= b
    ensures PeriodStart(anchor, a) <= PeriodStart(anchor, b)
    ensures PeriodStart(anchor, a) < PeriodStart(anchor, b) <==> b >= PeriodStart(anchor, a) + 7
  {
  }
}
