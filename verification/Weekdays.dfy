/** The day of the week of a calendar date. */
module Weekdays {
  import opened BusinessDate
  import Slots = BookingSlots

  const OFFSETS := [0, 3, 2, 5, 0, 3, 5, 1, 4, 6, 2, 4]

  /** Sakamoto's rule: 0 is Sunday. */
  function Sakamoto(c: Civil): int
    requires 1 <= c.month <= 12
  {
    var y := if c.month < 3 then c.year - 1 else c.year;
    (y + y / 4 - y / 100 + y / 400 + OFFSETS[c.month - 1] + c.day) % 7
  }

  lemma SevenApart(a: int, b: int, weeks: int)
    requires a == b + 7 * weeks
    ensures a % 7 == b % 7
  {
  }

  // Days before the month and the rule's offset, up to whole weeks.
  lemma MonthOffsets(y: int, m: int) returns (weeks: int)
    requires 1 <= m <= 12
    ensures DaysBeforeMonth(y, m) ==
      OFFSETS[m - 1] + 7 * weeks + (if m < 3 then 0 else 1) + if m > 2 && Leap(y) then 1 else 0
  {
    var before := DaysBeforeMonth(y, m) - if m > 2 && Leap(y) then 1 else 0;
    weeks := (before - OFFSETS[m - 1]) / 7;
  }

  // The rule, in terms of the leap days before the year.
  lemma RuleIs(c: Civil)
    requires 1 <= c.month <= 12
    ensures Sakamoto(c) ==
      (LeapsBefore(c.year) + c.year + OFFSETS[c.month - 1] + c.day
       + if c.month < 3 then -1 else if Leap(c.year) then 1 else 0) % 7
  {
    LeapsGrow(c.year);
    hide Leap;
  }

  lemma SerialIs(c: Civil)
    requires 1 <= c.month <= 12
    ensures Serial(c) == 365 * c.year - 719528 + LeapsBefore(c.year) + DaysBeforeMonth(c.year, c.month) + c.day
  {
    assert LeapsBefore(1970) == 477;
    hide LeapsBefore;
    hide DaysBeforeMonth;
  }

  lemma WeekdayRule(c: Civil)
    requires 1 <= c.month <= 12
    ensures Slots.Weekday(Serial(c)) == Sakamoto(c)
  {
    hide Sakamoto;
    hide Serial;
    hide LeapsBefore;
    hide DaysBeforeMonth;
    hide Leap;
    RuleIs(c);
    SerialIs(c);
    var weeks := MonthOffsets(c.year, c.month);
    var rule := LeapsBefore(c.year) + c.year + OFFSETS[c.month - 1] + c.day
      + if c.month < 3 then -1 else if Leap(c.year) then 1 else 0;
    SevenApart(Serial(c) + 4, rule, 52 * c.year + weeks - 102789);
  }

  /** The weekday by which opening hours are looked up is that of the civil date: for every date that of Sakamoto's
      rule, so Thursday for 1970-01-01. */
  lemma WeekdayIs(c: Civil)
    requires Valid(c)
    ensures CivilOf(Serial(c)) == c && Slots.Weekday(Serial(c)) == Sakamoto(c)
  {
    CivilOfSerial(c);
    WeekdayRule(c);
    hide *;
  }
}
