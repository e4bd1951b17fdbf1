/**
 * Calendar dates as day ordinals, numbered as Python's date.toordinal()
 * numbers them (0001-01-01 is day 1, proleptic Gregorian calendar), with
 * Python's weekday numbering (Monday 0 ... Sunday 6) and datetime's range
 * (years 1 to 9999).
 */
module Dates {

  const MinYear := 1
  const MaxYear := 9999

  predicate IsLeapYear(y: int) {
    y % 4 == 0 && (y % 100 != 0 || y % 400 == 0)
  }

  function DaysInMonth(y: int, m: int): (n: nat)
    requires 1 <= m <= 12
    ensures 28 <= n <= 31
  {
    if m == 2 then (if IsLeapYear(y) then 29 else 28)
    else if m == 4 || m == 6 || m == 9 || m == 11 then 30
    else 31
  }

  /** Days in the months of year y before month m, from the table of a common year. */
  function DaysBeforeMonth(y: int, m: int): (n: nat)
    requires 1 <= m <= 12
    ensures n + DaysInMonth(y, m) <= 365 + (if IsLeapYear(y) then 1 else 0)
  {
    var common := [0, 31, 59, 90, 120, 151, 181, 212, 243, 273, 304, 334];
    common[m - 1] + (if m > 2 && IsLeapYear(y) then 1 else 0)
  }

  /** The month table agrees with the month lengths. */
  lemma DaysBeforeNextMonth(y: int, m: int)
    requires 1 <= m < 12
    ensures DaysBeforeMonth(y, m + 1) == DaysBeforeMonth(y, m) + DaysInMonth(y, m)
  {
  }

  /** Days in the years before year y. */
  function DaysBeforeYear(y: int): nat
    requires y >= 1
  {
    var p := y - 1;
    p * 365 + p / 4 - p / 100 + p / 400
  }

  predicate ValidDate(y: int, m: int, d: int) {
    MinYear <= y <= MaxYear && 1 <= m <= 12 && 1 <= d <= DaysInMonth(y, m)
  }

  /** date(y, m, d).toordinal(). */
  function Ordinal(y: int, m: int, d: int): int
    requires ValidDate(y, m, d)
  {
    DaysBeforeYear(y) + DaysBeforeMonth(y, m) + d
  }

  /** The ordinal of 9999-12-31, the last day datetime can hold. */
  const MaxOrdinal := 3652059

  /** A day datetime can represent. */
  predicate InRange(day: int) { 1 <= day <= MaxOrdinal }

  /** date.weekday() of an ordinal: Monday is 0, Sunday is 6. */
  function Weekday(day: int): (w: int)
    ensures 0 <= w < 7
  {
    (day + 6) % 7
  }

  lemma OrdinalInRange(y: int, m: int, d: int)
    requires ValidDate(y, m, d)
    ensures InRange(Ordinal(y, m, d))
  {
    assert DaysBeforeYear(y) <= DaysBeforeYear(MaxYear);
  }

  /** Weeks repeat: seven days on is the same weekday. */
  lemma WeekdayShift(day: int, k: int)
    ensures Weekday(day + 7 * k) == Weekday(day)
  {
    var q, r := (day + 6) / 7, (day + 6) % 7;
    assert day + 7 * k + 6 == 7 * (q + k) + r;
  }

  /** The Monday on or before a day, and the Sunday on or after it. */
  lemma MondayAndSunday(day: int)
    ensures Weekday(day - Weekday(day)) == 0
    ensures Weekday(day + (6 - Weekday(day))) == 6
  {
    var q, r := (day + 6) / 7, (day + 6) % 7;
    assert day - r + 6 == 7 * q;
    assert day + (6 - r) + 6 == 7 * q + 6;
  }

  /** The k-th day after a Monday is weekday k. */
  lemma DaysAfterMonday(monday: int, k: int)
    requires Weekday(monday) == 0 && 0 <= k < 7
    ensures Weekday(monday + k) == k
  {
    var q := (monday + 6) / 7;
    assert monday + 6 == 7 * q;
    assert monday + k + 6 == 7 * q + k;
  }

  /** Day 1 (0001-01-01) is a Monday, so no week reaches below day 1. */
  lemma MondayInRange(day: int)
    requires day >= 1
    ensures day - Weekday(day) >= 1
  {
  }

  /** 8 January 2024 is a Monday. */
  lemma KnownMonday()
    ensures Ordinal(2024, 1, 8) == 738893
    ensures Weekday(Ordinal(2024, 1, 8)) == 0
  {
  }

  lemma MaxOrdinalIsLastDay()
    ensures Ordinal(MaxYear, 12, 31) == MaxOrdinal
  {
  }
}
