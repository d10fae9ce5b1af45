/** The Gregorian calendar, day by day from the first of January 1970. */
module Calendar {

  datatype Date = Date(year: nat, month: nat, day: nat)

  predicate Leap(year: nat) { year % 4 == 0 && (year % 100 != 0 || year % 400 == 0) }

  function MonthLength(year: nat, month: nat): (n: nat)
    ensures 28 <= n <= 31
  {
    if month == 2 then (if Leap(year) then 29 else 28)
    else if month in {4, 6, 9, 11} then 30
    else 31
  }

  predicate Proper(d: Date) { 1 <= d.month <= 12 && 1 <= d.day <= MonthLength(d.year, d.month) }

  function NextMonth(d: Date): Date
  {
    if d.month == 12 then Date(d.year + 1, 1, 1) else Date(d.year, d.month + 1, 1)
  }

  function NextDate(d: Date): Date
  {
    if d.day < MonthLength(d.year, d.month) then d.(day := d.day + 1) else NextMonth(d)
  }

  /** The date of a day number; day 0 is a Thursday. */
  function DateOf(day: nat): (d: Date)
    ensures Proper(d)
  {
    if day == 0 then Date(1970, 1, 1) else NextDate(DateOf(day - 1))
  }

  function DayOfMonth(day: nat): (d: nat)
    ensures 1 <= d <= 31
  {
    DateOf(day).day
  }

  const SUNDAY: nat := 0

  function DayOfWeek(day: nat): nat { (day + 4) % 7 }

  /** Fewer than 28 days on, the date is later in the same month, or early in the next. */
  lemma {:induction false} DaysOn(day: nat, n: nat)
    requires n < 28
    ensures var d := DateOf(day);
      var length := MonthLength(d.year, d.month);
      DateOf(day + n) == if d.day + n <= length then d.(day := d.day + n)
                         else NextMonth(d).(day := d.day + n - length)
  {
    if n > 0 {
      DaysOn(day, n - 1);
    }
  }

  /** Within 28 days no day of the month comes round again. */
  lemma DayOfMonthMovesOn(day: nat, n: nat)
    requires 0 < n < 28
    ensures DayOfMonth(day + n) != DayOfMonth(day)
  {
    DaysOn(day, n);
  }

  /** The length of the month a day lies in. */
  function LengthAt(day: nat): nat { MonthLength(DateOf(day).year, DateOf(day).month) }

  /** The next month has this day of the month too. */
  predicate SameDayNextMonth(day: nat)
  {
    var next := NextMonth(DateOf(day));
    DateOf(day).day <= MonthLength(next.year, next.month)
  }

  /** A month later the day of the month comes round again, if the next month reaches that far. */
  lemma MonthOn(day: nat)
    requires SameDayNextMonth(day)
    ensures DayOfMonth(day + LengthAt(day)) == DayOfMonth(day)
  {
    DaysOn(day, 27);
    DaysOn(day + 27, LengthAt(day) - 27);
  }
}
