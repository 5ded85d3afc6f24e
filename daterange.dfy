/**
 * The two checks `getTransactions` makes of its date range before it
 * requests a page. A calendar date is its epoch day number (days since
 * 1970-01-01 in the ISO calendar): comparing two dates is comparing their
 * numbers, and subtracting days is subtraction. 2024-01-01 is day 19723 and
 * 2024-03-01 is day 19783.
 */
module DateRange {
  import opened Wrappers
  import opened Errors

  type EpochDay = int

  /** The longest span, in days, a request may cover. */
  const MaxSpanDays := 90

  /** `Temporal.PlainDate.compare`: -1, 0 or 1 as `a` is before, equal to or after `b`. */
  function Compare(a: EpochDay, b: EpochDay): (c: int)
    ensures c == -1 || c == 0 || c == 1
    ensures c > 0 <==> a > b
    ensures c == 0 <==> a == b
  {
    if a < b then -1 else if a == b then 0 else 1
  }

  /** `date.subtract({ days: n })`. */
  function SubtractDays(date: EpochDay, n: nat): EpochDay {
    date - n
  }

  /**
   * The checks in their order: an end date after today is refused first,
   * then a range whose end, moved back 90 days, is still after its start.
   */
  function CheckRange(startDate: EpochDay, endDate: EpochDay, today: EpochDay): (r: Outcome<Error>)
    ensures r == Pass <==> endDate <= today && endDate - startDate <= MaxSpanDays
    ensures r == Fail(EndDateAfterToday) <==> endDate > today
    ensures r == Fail(RangeTooLarge) <==> endDate <= today && endDate - startDate > MaxSpanDays
  {
    if Compare(endDate, today) > 0 then Fail(EndDateAfterToday)
    else if Compare(SubtractDays(endDate, MaxSpanDays), startDate) > 0 then Fail(RangeTooLarge)
    else Pass
  }

  /** A span of exactly 90 days ending today or earlier is accepted. */
  lemma NinetyDaysAccepted(startDate: EpochDay, today: EpochDay)
    requires startDate + MaxSpanDays <= today
    ensures CheckRange(startDate, startDate + MaxSpanDays, today) == Pass
  {
  }

  /** A start date after the end date is not refused. */
  lemma ReversedRangeAccepted(startDate: EpochDay, endDate: EpochDay, today: EpochDay)
    requires endDate < startDate && endDate <= today
    ensures CheckRange(startDate, endDate, today) == Pass
  {
  }

  /** An end date after today is refused as such even when the range is also too long. */
  lemma FutureCheckComesFirst(startDate: EpochDay, endDate: EpochDay, today: EpochDay)
    requires endDate > today && endDate - startDate > MaxSpanDays
    ensures CheckRange(startDate, endDate, today) == Fail(EndDateAfterToday)
  {
  }

  /** From 2024-01-01 to 2024-03-01 is 60 days, and is accepted on 2024-03-01. */
  lemma SixtyDayRangeAccepted()
    ensures CheckRange(19723, 19783, 19783) == Pass
  {
  }
}
