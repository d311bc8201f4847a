/**
 * The latest trading day (data_collector/utils/price_date.py and
 * price_predictor/utils/price_date.py, which hold the same rule).
 *
 * Prices are expected up to the day before today, but a Sunday or a
 * Monday looks back to the Friday before.  Days are counted as
 * `date.toordinal()` counts them: 1 January of year 1 is day 1 and a
 * Monday, and `weekday()` is 0 for Monday through 6 for Sunday.  Today
 * is a parameter.
 */
module PriceDate {
  import opened Py

  /** `date.weekday()` of the day with ordinal d. */
  function Weekday(d: int): (w: int)
    ensures 0 <= w < 7
  {
    (d + 6) % 7
  }

  /** The days back from today: 2 on Sunday, 3 on Monday, else 1. */
  function DeltaDays(weekday: int): int {
    if weekday == 0 then 3 else if weekday == 6 then 2 else 1
  }

  /** `get_lastest_price_day`: today less the offset for today's weekday. */
  function LatestPriceDay(today: int): int {
    today - DeltaDays(Weekday(today))
  }

  /** A day of the week after `d`, `k` days on. */
  lemma WeekdayLater(d: int, k: nat)
    ensures Weekday(d + k) == (Weekday(d) + k) % 7
  {
  }

  /** The latest trading day is a Monday to Friday, one to three days
      before today, and every day after it and before today is a Saturday
      or a Sunday: it is the last weekday before today. */
  lemma LatestIsLastWeekday(today: int)
    ensures 1 <= today - LatestPriceDay(today) <= 3
    ensures Weekday(LatestPriceDay(today)) <= 4
    ensures forall d :: LatestPriceDay(today) < d < today ==> Weekday(d) >= 5
  {
    var r := LatestPriceDay(today);
    var w := Weekday(today);
    WeekdayLater(r, today - r);
    forall d | r < d < today
      ensures Weekday(d) >= 5
    {
      WeekdayLater(r, d - r);
      WeekdayLater(d, today - d);
    }
  }

  /** No weekday before today is later than the latest trading day. */
  lemma LatestIsLatest(today: int, d: int)
    requires d < today && Weekday(d) <= 4
    ensures d <= LatestPriceDay(today)
  {
    LatestIsLastWeekday(today);
  }

  /** The offsets one by one: Saturday and Tuesday to Friday look back one
      day, Sunday two and Monday three, each landing on the Friday for
      the last two. */
  lemma LatestOffsets(today: int)
    ensures Weekday(today) == 6 ==> LatestPriceDay(today) == today - 2 && Weekday(LatestPriceDay(today)) == 4
    ensures Weekday(today) == 0 ==> LatestPriceDay(today) == today - 3 && Weekday(LatestPriceDay(today)) == 4
    ensures 1 <= Weekday(today) <= 5 ==> LatestPriceDay(today) == today - 1
  {
    WeekdayLater(LatestPriceDay(today), today - LatestPriceDay(today));
  }

  /** `data_is_lastest` on the dates of a table's rows: true exactly when
      the last row is dated the latest trading day; a table without rows
      raises IndexError. */
  function DataIsLatest(rowDays: seq<int>, today: int): (r: Result<bool>)
    ensures r.Raise? <==> rowDays == []
    ensures r.Raise? ==> r.exc == IndexError
    ensures r.Ok? ==> (r.value <==> rowDays[|rowDays| - 1] == LatestPriceDay(today))
  {
    if rowDays == [] then Raise(IndexError)
    else Ok(rowDays[|rowDays| - 1] == LatestPriceDay(today))
  }
}
