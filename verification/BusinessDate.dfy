/** The business date of an instant: the civil date of the local time a few hours earlier. */
module BusinessDate {

  const HOUR := 3600000
  const DAY := 86400000

  // --- the Gregorian calendar ---------------------------------------------------------

  datatype Civil = Civil(year: int, month: int, day: int)

  predicate Leap(y: int) {
    y % 4 == 0 && (y % 100 != 0 || y % 400 == 0)
  }

  function DaysIn(y: int, m: int): int {
    if m == 2 then (if Leap(y) then 29 else 28)
    else if m == 4 || m == 6 || m == 9 || m == 11 then 30
    else 31
  }

  predicate Valid(c: Civil) {
    1 <= c.month <= 12 && 1 <= c.day <= DaysIn(c.year, c.month)
  }

  function NextDay(c: Civil): (n: Civil)
    requires Valid(c)
    ensures Valid(n)
  {
    if c.day < DaysIn(c.year, c.month) then c.(day := c.day + 1)
    else if c.month < 12 then Civil(c.year, c.month + 1, 1)
    else Civil(c.year + 1, 1, 1)
  }

  function PreviousDay(c: Civil): (p: Civil)
    requires Valid(c)
    ensures Valid(p)
  {
    if c.day > 1 then c.(day := c.day - 1)
    else if c.month > 1 then Civil(c.year, c.month - 1, DaysIn(c.year, c.month - 1))
    else Civil(c.year - 1, 12, 31)
  }

  // Day n of the calendar, counted one by one from 1970-01-01.
  function CivilOf(n: int): (c: Civil)
    ensures Valid(c)
    decreases if n < 0 then -n else n
  {
    if n == 0 then Civil(1970, 1, 1)
    else if n > 0 then NextDay(CivilOf(n - 1))
    else PreviousDay(CivilOf(n + 1))
  }

  // The number of a date by formula: leap days before the year, days before the month.
  function LeapsBefore(y: int): int {
    (y - 1) / 4 - (y - 1) / 100 + (y - 1) / 400
  }

  function DaysBeforeYear(y: int): int {
    365 * (y - 1970) + LeapsBefore(y) - LeapsBefore(1970)
  }

  function DaysBeforeMonth(y: int, m: int): int
    requires 1 <= m <= 12
  {
    [0, 31, 59, 90, 120, 151, 181, 212, 243, 273, 304, 334][m - 1] + if m > 2 && Leap(y) then 1 else 0
  }

  function Serial(c: Civil): int
    requires 1 <= c.month <= 12
  {
    DaysBeforeYear(c.year) + DaysBeforeMonth(c.year, c.month) + c.day - 1
  }

  lemma Multiples(y: int)
    ensures y / 4 - (y - 1) / 4 == if y % 4 == 0 then 1 else 0
    ensures y / 100 - (y - 1) / 100 == if y % 100 == 0 then 1 else 0
    ensures y / 400 - (y - 1) / 400 == if y % 400 == 0 then 1 else 0
  {
  }

  lemma MultipleOf4(k: int)
    ensures 4 * k % 4 == 0
  {
  }

  lemma MultipleOf100(k: int)
    ensures 100 * k % 100 == 0
  {
  }

  lemma CenturiesDivide(y: int)
    ensures y % 100 == 0 ==> y % 4 == 0
    ensures y % 400 == 0 ==> y % 100 == 0
  {
    var c, f := y / 100, y / 400;
    assert y == 100 * c + y % 100 && y == 400 * f + y % 400;
    MultipleOf4(25 * c);
    MultipleOf100(4 * f);
  }

  lemma LeapsGrow(y: int)
    ensures LeapsBefore(y + 1) == LeapsBefore(y) + if Leap(y) then 1 else 0
  {
    Multiples(y);
    CenturiesDivide(y);
    assert y + 1 - 1 == y;
  }

  lemma YearLength(y: int)
    ensures DaysBeforeYear(y + 1) == DaysBeforeYear(y) + if Leap(y) then 366 else 365
  {
    LeapsGrow(y);
    hide LeapsBefore;
    hide Leap;
  }

  lemma MonthLength(y: int, m: int)
    requires 1 <= m <= 12
    ensures m < 12 ==> DaysBeforeMonth(y, m + 1) == DaysBeforeMonth(y, m) + DaysIn(y, m)
    ensures DaysBeforeMonth(y, 1) == 0
    ensures DaysBeforeMonth(y, 12) + DaysIn(y, 12) == if Leap(y) then 366 else 365
    ensures 0 <= DaysBeforeMonth(y, m) && DaysBeforeMonth(y, m) + DaysIn(y, m) <= if Leap(y) then 366 else 365
  {
  }

  lemma NextDaySerial(c: Civil)
    requires Valid(c)
    ensures Serial(NextDay(c)) == Serial(c) + 1
  {
    YearLength(c.year);
    MonthLength(c.year, c.month);
    MonthLength(c.year + 1, 1);
    hide DaysBeforeYear;
    hide DaysBeforeMonth;
  }

  lemma PreviousDaySerial(c: Civil)
    requires Valid(c)
    ensures Serial(PreviousDay(c)) == Serial(c) - 1
  {
    YearLength(c.year - 1);
    MonthLength(c.year, c.month);
    if c.month > 1 {
      MonthLength(c.year, c.month - 1);
    }
    MonthLength(c.year - 1, 12);
    hide DaysBeforeYear;
    hide DaysBeforeMonth;
  }

  lemma Epoch()
    ensures CivilOf(0) == Civil(1970, 1, 1) && Serial(CivilOf(0)) == 0
  {
  }

  lemma CivilStep(n: int)
    ensures n > 0 ==> CivilOf(n) == NextDay(CivilOf(n - 1))
    ensures n < 0 ==> CivilOf(n) == PreviousDay(CivilOf(n + 1))
  {
  }

  /** Counting days one by one agrees with the formula. */
  lemma {:induction false} SerialOfCivil(n: int)
    ensures Serial(CivilOf(n)) == n
    decreases if n < 0 then -n else n
  {
    Epoch();
    CivilStep(n);
    if n > 0 {
      SerialOfCivil(n - 1);
      NextDaySerial(CivilOf(n - 1));
    } else if n < 0 {
      SerialOfCivil(n + 1);
      PreviousDaySerial(CivilOf(n + 1));
    }
    hide CivilOf;
    hide Serial;
    hide NextDay;
    hide PreviousDay;
  }

  // Order of dates, as their texts sort.
  predicate Before(a: Civil, b: Civil) {
    a.year < b.year || (a.year == b.year && (a.month < b.month || (a.month == b.month && a.day < b.day)))
  }

  lemma {:induction false} YearsGrow(y: int, z: int)
    requires y < z
    ensures DaysBeforeYear(y) + (if Leap(y) then 366 else 365) <= DaysBeforeYear(z)
    decreases z - y
  {
    YearLength(y);
    if y + 1 < z {
      YearsGrow(y + 1, z);
    }
  }

  lemma {:induction false} MonthsGrow(y: int, m: int, n: int)
    requires 1 <= m < n <= 12
    ensures DaysBeforeMonth(y, m) + DaysIn(y, m) <= DaysBeforeMonth(y, n)
    decreases n - m
  {
    MonthLength(y, m);
    if m + 1 < n {
      MonthsGrow(y, m + 1, n);
    }
  }

  /** Earlier dates have smaller numbers. */
  lemma SerialGrows(a: Civil, b: Civil)
    requires Valid(a) && Valid(b) && Before(a, b)
    ensures Serial(a) < Serial(b)
  {
    MonthLength(a.year, a.month);
    MonthLength(b.year, b.month);
    if a.year < b.year {
      YearsGrow(a.year, b.year);
    } else if a.month < b.month {
      MonthsGrow(a.year, a.month, b.month);
    }
    hide DaysBeforeYear;
    hide DaysBeforeMonth;
  }

  /** Every date is the day of its number. */
  lemma CivilOfSerial(c: Civil)
    requires Valid(c)
    ensures CivilOf(Serial(c)) == c
  {
    var d := CivilOf(Serial(c));
    SerialOfCivil(Serial(c));
    if Before(c, d) {
      SerialGrows(c, d);
    } else if Before(d, c) {
      SerialGrows(d, c);
    }
  }

  // --- getBusinessDate ---------------------------------------------------------------------

  // Date.UTC(year, month - 1, day) as a number of days: years 0 to 99 mean 1900 to 1999, and a day outside the
  // month counts on from its first.
  function UtcDay(year: int, month: int, day: int): int
    requires 1 <= month <= 12
  {
    Serial(Civil(if 0 <= year <= 99 then 1900 + year else year, month, 1)) + day - 1
  }

  // What Intl makes of an instant in a zone with a fixed offset: some engines write midnight as hour 24.
  datatype Parts = Parts(date: Civil, hour: int)

  function DayNumber(local: int): int {
    local / DAY
  }

  function HourOf(local: int): int {
    local % DAY / HOUR
  }

  function LocalParts(now: int, offset: int, midnight24: bool): Parts {
    var hour := HourOf(now + offset);
    Parts(CivilOf(DayNumber(now + offset)), if midnight24 && hour == 0 then 24 else hour)
  }

  function GetBusinessDate(now: int, cutoffHour: int, offset: int, midnight24: bool): Civil {
    var parts := LocalParts(now, offset, midnight24);
    if cutoffHour > 0 && parts.hour < cutoffHour
    then CivilOf(UtcDay(parts.date.year, parts.date.month, parts.date.day - 1))
    else parts.date
  }

  /** What it promises: the date on the wall cutoffHour hours ago. */
  function ShiftedDate(now: int, cutoffHour: int, offset: int): Civil {
    CivilOf(DayNumber(now + offset - cutoffHour * HOUR))
  }

  lemma DayBefore(c: Civil)
    requires Valid(c) && !(0 <= c.year <= 99)
    ensures CivilOf(UtcDay(c.year, c.month, c.day - 1)) == PreviousDay(c)
  {
    PreviousDaySerial(c);
    CivilOfSerial(PreviousDay(c));
    assert UtcDay(c.year, c.month, c.day - 1) == Serial(c) - 1;
  }

  lemma {:induction false} RecentYear(n: int)
    requires n >= 0
    ensures CivilOf(n).year >= 1970
  {
    if n > 0 {
      RecentYear(n - 1);
    }
  }

  lemma PreviousOf(n: int)
    ensures CivilOf(n - 1) == PreviousDay(CivilOf(n))
  {
    SerialOfCivil(n);
    PreviousDaySerial(CivilOf(n));
    CivilOfSerial(PreviousDay(CivilOf(n)));
  }

  lemma Borrow(local: int, cutoffHour: int)
    requires 0 <= cutoffHour <= 24
    ensures DayNumber(local - cutoffHour * HOUR) == DayNumber(local) - if HourOf(local) < cutoffHour then 1 else 0
    ensures 0 <= HourOf(local) < 24
    ensures local >= 0 ==> DayNumber(local) >= 0
  {
    var d, r := local / DAY, local % DAY;
    assert local == d * DAY + r;
  }

  lemma WallDate(now: int, cutoffHour: int, offset: int, midnight24: bool)
    ensures var parts := LocalParts(now, offset, midnight24);
      && parts.date == CivilOf(DayNumber(now + offset))
      && (HourOf(now + offset) >= 0 && !midnight24 ==> parts.hour == HourOf(now + offset))
      && GetBusinessDate(now, cutoffHour, offset, midnight24)
         == (if cutoffHour > 0 && parts.hour < cutoffHour
             then CivilOf(UtcDay(parts.date.year, parts.date.month, parts.date.day - 1)) else parts.date)
  {
    hide CivilOf;
    hide UtcDay;
    hide DayNumber;
    hide HourOf;
  }

  /** For local times from 1970 on and cut-offs up to a day, with hours written 0 to 23, the business date is the
      date of the local instant minus the cut-off, through month ends, new year and leap days. */
  lemma BusinessDateIsShifted(now: int, cutoffHour: int, offset: int)
    requires now + offset >= 0 && 0 <= cutoffHour <= 24
    ensures GetBusinessDate(now, cutoffHour, offset, false) == ShiftedDate(now, cutoffHour, offset)
  {
    hide *;
    var n := DayNumber(now + offset);
    WallDate(now, cutoffHour, offset, false);
    ShiftedIs(now, cutoffHour, offset);
    Borrow(now + offset, cutoffHour);
    RecentYear(n);
    DayBefore(CivilOf(n));
    PreviousOf(n);
  }

  lemma ShiftedIs(now: int, cutoffHour: int, offset: int)
    ensures ShiftedDate(now, cutoffHour, offset) == CivilOf(DayNumber(now + offset - cutoffHour * HOUR))
  {
    hide CivilOf;
    hide DayNumber;
  }

  // Dates of 1900 and later are later days than 1899-12-30.
  lemma NotBefore1899(n: int)
    requires n >= Serial(Civil(1899, 12, 31))
    ensures CivilOf(n).year >= 1899
  {
    SerialOfCivil(n);
    var c, first := CivilOf(n), Civil(1899, 12, 31);
    if c.year < 1899 {
      SerialGrows(c, first);
    }
    hide CivilOf;
    hide Serial;
  }

  lemma CenturyOff(c: Civil)
    requires Valid(c) && 0 <= c.year <= 99
    ensures UtcDay(c.year, c.month, c.day - 1) == Serial(Civil(1900 + c.year, c.month, 1)) + c.day - 2
    ensures CivilOf(UtcDay(c.year, c.month, c.day - 1)) != PreviousDay(c)
  {
    var first := Civil(1900 + c.year, c.month, 1);
    SerialGrows(Civil(1899, 12, 31), first);
    assert Serial(first) + c.day - 2 >= Serial(Civil(1899, 12, 31));
    NotBefore1899(UtcDay(c.year, c.month, c.day - 1));
    hide CivilOf;
    hide Serial;
  }

  /** For every instant, before 1970 as well: that is so exactly unless the date has to step back in one of the years
      0 to 99, which Date.UTC takes for 1900 to 1999. */
  lemma ShiftedIff(now: int, cutoffHour: int, offset: int)
    requires 0 <= cutoffHour <= 24
    ensures GetBusinessDate(now, cutoffHour, offset, false) == ShiftedDate(now, cutoffHour, offset)
            <==> !(HourOf(now + offset) < cutoffHour && 0 <= CivilOf(DayNumber(now + offset)).year <= 99)
  {
    hide *;
    var n := DayNumber(now + offset);
    WallDate(now, cutoffHour, offset, false);
    ShiftedIs(now, cutoffHour, offset);
    Borrow(now + offset, cutoffHour);
    PreviousOf(n);
    if 0 <= CivilOf(n).year <= 99 {
      CenturyOff(CivilOf(n));
    } else {
      DayBefore(CivilOf(n));
    }
  }

  lemma DaysDiffer(n: int)
    ensures CivilOf(n) != CivilOf(n - 1)
  {
    SerialOfCivil(n);
    SerialOfCivil(n - 1);
    hide CivilOf;
    hide Serial;
  }

  lemma TwentyFour(now: int, cutoffHour: int, offset: int)
    requires 0 <= cutoffHour <= 24
    ensures cutoffHour == 0 || HourOf(now + offset) != 0 ==>
      GetBusinessDate(now, cutoffHour, offset, true) == GetBusinessDate(now, cutoffHour, offset, false)
    ensures cutoffHour > 0 && HourOf(now + offset) == 0 ==>
      && GetBusinessDate(now, cutoffHour, offset, true) == CivilOf(DayNumber(now + offset))
      && ShiftedDate(now, cutoffHour, offset) == CivilOf(DayNumber(now + offset) - 1)
  {
    Borrow(now + offset, cutoffHour);
    hide CivilOf;
    hide UtcDay;
    hide DayNumber;
    hide HourOf;
  }

  /** With midnight written as 24 the promise holds exactly outside the first local hour, or without a cut-off. */
  lemma MidnightIff(now: int, cutoffHour: int, offset: int)
    requires now + offset >= 0 && 0 <= cutoffHour <= 24
    ensures GetBusinessDate(now, cutoffHour, offset, true) == ShiftedDate(now, cutoffHour, offset)
            <==> cutoffHour == 0 || HourOf(now + offset) != 0
  {
    BusinessDateIsShifted(now, cutoffHour, offset);
    TwentyFour(now, cutoffHour, offset);
    Borrow(now + offset, cutoffHour);
    DaysDiffer(DayNumber(now + offset));
    hide CivilOf;
    hide GetBusinessDate;
    hide ShiftedDate;
    hide DayNumber;
    hide HourOf;
  }

  /** Later instants never have an earlier business date. */
  lemma Monotone(now: int, later: int, cutoffHour: int, offset: int)
    requires 0 <= now + offset && now <= later && 0 <= cutoffHour <= 24
    ensures var a, b := GetBusinessDate(now, cutoffHour, offset, false),
      GetBusinessDate(later, cutoffHour, offset, false);
      a == b || Before(a, b)
  {
    var m, n := DayNumber(now + offset - cutoffHour * HOUR), DayNumber(later + offset - cutoffHour * HOUR);
    BusinessDateIsShifted(now, cutoffHour, offset);
    BusinessDateIsShifted(later, cutoffHour, offset);
    assert m <= n;
    SerialOfCivil(m);
    SerialOfCivil(n);
    if Before(CivilOf(n), CivilOf(m)) {
      SerialGrows(CivilOf(n), CivilOf(m));
    }
    hide CivilOf;
    hide Serial;
    hide GetBusinessDate;
    hide DayNumber;
  }
}
