/** The part of Python's `datetime.datetime` the model needs: a naive
    date-time with minute resolution and the range checks its constructor
    performs before it accepts the five components. */
module PyDateTime {

  /** A naive (timezone-less) date-time, as built by `dt.datetime(Y, M, D, h, m)`. */
  datatype DateTime = DateTime(year: int, month: int, day: int, hour: int, minute: int)

  /** `datetime.MINYEAR` and `datetime.MAXYEAR`. */
  const MinYear := 1
  const MaxYear := 9999

  predicate IsLeapYear(year: int) {
    year % 4 == 0 && (year % 100 != 0 || year % 400 == 0)
  }

  function DaysInMonth(year: int, month: int): (n: int)
    requires 1 <= month <= 12
    ensures 28 <= n <= 31
  {
    if month == 2 then (if IsLeapYear(year) then 29 else 28)
    else if month in {4, 6, 9, 11} then 30
    else 31
  }

  /** The combinations the datetime constructor accepts without a ValueError. */
  predicate IsValid(t: DateTime) {
    && MinYear <= t.year <= MaxYear
    && 1 <= t.month <= 12
    && 1 <= t.day <= DaysInMonth(t.year, t.month)
    && 0 <= t.hour < 24
    && 0 <= t.minute < 60
  }
}
