/** Calendar dates as day numbers: day 0 is 1970-01-01 and day d + 1 is the
    day after day d. Time of day and time zones are not modelled. */
module Calendar {

  /** Day of the week as pandas' `dayofweek` and Python's `weekday()` give
      it: Monday is 0 and Sunday is 6. Day 0 (1970-01-01) was a Thursday. */
  function Weekday(d: int): (w: int)
    ensures 0 <= w < 7
  {
    (d + 3) % 7
  }

  predicate IsWeekend(d: int) {
    Weekday(d) >= 5
  }

  /** The day number of the proleptic Gregorian date y-m-day (the standard
      era-of-400-years day count). Dafny's `/` on int rounds toward minus
      infinity for a positive divisor, which the count relies on. */
  function DaysFromCivil(y: int, m: int, day: int): int
    requires 1 <= m <= 12 && 1 <= day <= 31
  {
    var y' := if m <= 2 then y - 1 else y;
    var era := y' / 400;
    var yoe := y' - era * 400;
    var mp := if m > 2 then m - 3 else m + 9;
    var doy := (153 * mp + 2) / 5 + day - 1;
    var doe := yoe * 365 + yoe / 4 - yoe / 100 + doy;
    era * 146097 + doe - 719468
  }

  /** Consecutive days cycle through the week. */
  lemma WeekdayNext(d: int)
    ensures Weekday(d + 1) == (Weekday(d) + 1) % 7
    ensures Weekday(d + 7) == Weekday(d)
  {
  }

  /** Anchors of the day count: the epoch and the dates the model names. */
  lemma CalendarAnchors()
    ensures DaysFromCivil(1970, 1, 1) == 0 && Weekday(0) == 3
    ensures DaysFromCivil(2024, 1, 1) == 19723 && Weekday(19723) == 0
    ensures DaysFromCivil(2024, 7, 4) == 19908 && Weekday(19908) == 3
    ensures DaysFromCivil(2024, 12, 25) == 20082 && Weekday(20082) == 2
  {
  }
}
