/** `is_trading_day`: a weekday rule plus a fixed list of three 2024
    holidays. There is no exchange calendar behind it. Line numbers refer
    to trading_day_price_fetcher.py. */
module TradingDay {
  import opened Calendar

  /** 2024-01-01, 2024-07-04 and 2024-12-25, as `pd.to_datetime` reads them. */
  const Holidays: seq<int> := [DaysFromCivil(2024, 1, 1), DaysFromCivil(2024, 7, 4), DaysFromCivil(2024, 12, 25)]

  function IsTradingDay(d: int): (r: bool)
    ensures r ==> Weekday(d) < 5
  {
    if Weekday(d) >= 5 then false else d !in Holidays
  }

  /** Saturdays and Sundays are never trading days. */
  lemma WeekendIsNotTradingDay(d: int)
    requires IsWeekend(d)
    ensures !IsTradingDay(d)
  {
  }

  /** The three listed 2024 holidays are not trading days; they all fall on
      weekdays, so it is the list that excludes them. */
  lemma Holidays2024AreNotTradingDays()
    ensures forall h :: h in Holidays ==> !IsWeekend(h) && !IsTradingDay(h)
  {
    CalendarAnchors();
  }

  /** Every other Monday to Friday is a trading day. */
  lemma OtherWeekdaysAreTradingDays(d: int)
    requires !IsWeekend(d) && d !in Holidays
    ensures IsTradingDay(d)
  {
  }

  /** The list is pinned to 2024: the same holidays in 2025 (a Wednesday and
      a Thursday) and Independence Day 2023 (a Tuesday) count as trading days. */
  lemma SameHolidaysInOtherYearsAreTradingDays()
    ensures IsTradingDay(DaysFromCivil(2025, 1, 1))
    ensures IsTradingDay(DaysFromCivil(2025, 12, 25))
    ensures IsTradingDay(DaysFromCivil(2023, 7, 4))
  {
    CalendarAnchors();
    assert DaysFromCivil(2025, 1, 1) == 20089 && Weekday(20089) == 2;
    assert DaysFromCivil(2025, 12, 25) == 20447 && Weekday(20447) == 3;
    assert DaysFromCivil(2023, 7, 4) == 19542 && Weekday(19542) == 1;
  }
}
