/**
 * The display event the calendar components receive, and the parts of a
 * JavaScript `Date` they read. A `Date` is represented by the local
 * calendar day it falls on (days since 1970-01-01) and its local hours and
 * minutes; converting a timestamp string into these is left to the caller.
 */
module CalendarEvents {
  import opened Wrappers

  /** What `getDay()`, `getHours()` and `getMinutes()` read off a `Date`. */
  datatype Moment = Moment(day: int, hours: int, minutes: int)

  /** `getHours()` is in 0..23 and `getMinutes()` in 0..59 for every valid `Date`. */
  predicate ValidMoment(m: Moment)
  {
    0 <= m.hours < 24 && 0 <= m.minutes < 60
  }

  /** `getDay()`: 0 is Sunday, ..., 6 is Saturday; 1970-01-01 was a Thursday. */
  function Weekday(m: Moment): (w: int)
    ensures 0 <= w < 7
    ensures m.day % 7 == 3 ==> w == 0
  {
    (m.day + 4) % 7
  }

  /** Minutes since local midnight. */
  function MinuteOfDay(m: Moment): int
  {
    m.hours * 60 + m.minutes
  }

  /** The event shape produced by `transformGoogleEvents` in page.js. */
  datatype CalendarEvent = CalendarEvent(
    id: string,
    title: Option<string>,
    start: Moment,
    end: Moment,
    color: string,
    description: string)
}
