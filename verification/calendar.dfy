/**
  The calendar the app consults. Real Gregorian arithmetic is not modelled; what the app
  relies on is captured by three operations:
  - stepping a date forward by one recurrence interval, which always moves strictly
    forward (the app falls back to the unchanged date when the calendar fails, which
    would make its stepping loops spin; the model takes strict progress as given);
  - adding a number of months, which may fail;
  - deciding whether two dates fall into the same week of the year, month or year.
 */
module Calendars {
  import opened Wrappers
  import opened Transactions

  /** Steppers that always move a date strictly forward. */
  type Stepper = f: (RecurringInterval, Date) -> Date | forall i, d :: f(i, d) > d
    witness (i: RecurringInterval, d: Date) => d + 1

  /** The granularities `isDate(_:equalTo:toGranularity:)` is asked about. */
  datatype Granularity = WeekOfYear | Month | Year

  datatype Calendar = Calendar(
    step: Stepper,
    addMonths: (int, Date) -> Option<Date>,
    samePeriod: (Granularity, Date, Date) -> bool)

  /** The end of the upcoming window: three months after `now`, or `now` itself when the
      calendar cannot compute that date. */
  function UpcomingHorizon(cal: Calendar, now: Date): (r: Date)
    ensures cal.addMonths(3, now).None? ==> r == now
    ensures cal.addMonths(3, now).Some? ==> r == cal.addMonths(3, now).value
  {
    cal.addMonths(3, now).GetOr(now)
  }
}
