/**
 Business days in Addis Ababa time. An instant is a number of milliseconds since the epoch, a business day
 the number of its calendar day.
 */
module BusinessDate {
  /** The calendar day the wall clock shows at an instant: days of 86400000 ms, three hours ahead of UTC. */
  function CalendarDay(instant: int): int { (instant + 10800000) / 86400000 }

  /** Local midnight at the start of a day, and the last millisecond before the next. */
  function DayStart(day: int): int { day * 86400000 - 10800000 }
  function DayEnd(day: int): int { DayStart(day) + 86399999 }

  /** Counted from noon UTC of the day, to stay clear of midnight. */
  function AddCalendarDays(day: int, days: int): int
  {
    (day * 86400000 + 43200000 + days * 86400000) / 86400000
  }

  /** An instant lies in the range of two days exactly when its own calendar day is one of them or between. */
  lemma InRangeIff(instant: int, from: int, to: int)
    ensures DayStart(from) <= instant <= DayEnd(to) <==> from <= CalendarDay(instant) <= to
  {
    var day := CalendarDay(instant);
    assert DayStart(day) <= instant < DayStart(day + 1);
  }

  lemma BeforeIff(instant: int, day: int)
    ensures instant < DayStart(day) <==> CalendarDay(instant) < day
  {
    var own := CalendarDay(instant);
    assert DayStart(own) <= instant < DayStart(own + 1);
  }

  /** Consecutive days leave no gap and share no instant. */
  lemma DaysTile(day: int, days: int)
    ensures AddCalendarDays(day, days) == day + days
    ensures DayEnd(day) < DayStart(AddCalendarDays(day, 1)) == DayEnd(day) + 1
    ensures CalendarDay(DayStart(day)) == day == CalendarDay(DayEnd(day))
  {
  }
}
