/** The reporting window shared by the summary report and the emission statistics: a
    `period` query value selects how far back from now the window starts. Calendar months
    and years have no fixed length, so the instants one month and one year before now are
    supplied by the caller's calendar. */
module Periods {
  import opened Common

  datatype Period = Day | Week | Month | Year

  /** The instants one calendar month and one calendar year before now. */
  datatype Calendar = Calendar(monthAgo: int, yearAgo: int)

  /** The period a query selects: omitted means week, and any unrecognised value falls
      through to the default branch, which goes back seven days like week. */
  function ParsePeriod(period: Option<string>): (p: Period)
    ensures p == Day <==> period == Some("day")
    ensures p == Month <==> period == Some("month")
    ensures p == Year <==> period == Some("year")
    ensures period.None? || period == Some("week") ==> p == Week
    ensures period.Some? && period.value !in {"day", "month", "year"} ==> p == Week
  {
    match period
    case None => Week
    case Some(s) =>
      if s == "day" then Day
      else if s == "month" then Month
      else if s == "year" then Year
      else Week
  }

  /** The period name echoed back in a report: the query value, or "week" by default. */
  function EchoedPeriod(period: Option<string>): (name: string)
    ensures period.Some? ==> name == period.value
    ensures period.None? ==> name == "week"
  {
    period.GetOr("week")
  }

  /** The start of the reporting window: one day, seven days, one calendar month or one
      calendar year before now. */
  function WindowStart(period: Option<string>, now: int, cal: Calendar): (start: int)
    ensures ParsePeriod(period) == Day ==> start == now - DayMs
    ensures ParsePeriod(period) == Week ==> start == now - 7 * DayMs
    ensures ParsePeriod(period) == Month ==> start == cal.monthAgo
    ensures ParsePeriod(period) == Year ==> start == cal.yearAgo
  {
    match ParsePeriod(period)
    case Day => now - DayMs
    case Week => now - 7 * DayMs
    case Month => cal.monthAgo
    case Year => cal.yearAgo
  }

  /** An unrecognised period value opens the same window as an omitted one. */
  lemma UnknownPeriodIsWeek(period: string, now: int, cal: Calendar)
    requires period !in {"day", "week", "month", "year"}
    ensures WindowStart(Some(period), now, cal) == WindowStart(None, now, cal)
    ensures WindowStart(Some(period), now, cal) == WindowStart(Some("week"), now, cal)
  {
  }

  /** With a calendar where a year reaches back at least as far as a month, and a month at
      least as far as a week, the windows are nested: a longer period never starts later. */
  lemma WindowsNest(now: int, cal: Calendar)
    requires cal.yearAgo <= cal.monthAgo <= now - 7 * DayMs
    ensures WindowStart(Some("year"), now, cal) <= WindowStart(Some("month"), now, cal)
    ensures WindowStart(Some("month"), now, cal) <= WindowStart(Some("week"), now, cal)
    ensures WindowStart(Some("week"), now, cal) < WindowStart(Some("day"), now, cal)
    ensures WindowStart(Some("day"), now, cal) < now
  {
  }

  /** The window the insight and progress reports use: thirty days back from now. */
  function ThirtyDaysBack(now: int): (start: int)
    ensures start < now && now - start == 30 * DayMs
  {
    now - 30 * DayMs
  }
}
