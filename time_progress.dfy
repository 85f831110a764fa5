/**
 * Time progress through the plan year, shared by both engines: week 49 of
 * 2025 ends on day 340 of the year, every week adds 7 days, and the result is
 * kept within [1, 365].
 */
module TimeProgress {

  const DaysInYear: int := 365
  const AnchorWeek: int := 49
  const AnchorDay: int := 340

  /** The day of the year reached at the end of week `week`, clamped to [1, 365]. */
  function DaysPassed(week: int): (d: int)
    ensures 1 <= d <= DaysInYear
    ensures 1 <= AnchorDay + 7 * (week - AnchorWeek) <= DaysInYear ==> d == AnchorDay + 7 * (week - AnchorWeek)
    ensures AnchorDay + 7 * (week - AnchorWeek) < 1 ==> d == 1
    ensures AnchorDay + 7 * (week - AnchorWeek) > DaysInYear ==> d == DaysInYear
  {
    var rawDays := AnchorDay + (week - AnchorWeek) * 7;
    var capped := if rawDays < DaysInYear then rawDays else DaysInYear;  // Math.min(365, rawDays)
    if capped > 1 then capped else 1                                      // Math.max(1, ...)
  }

  /** A later week never has fewer days behind it. */
  lemma DaysPassedMonotone(w1: int, w2: int)
    requires w1 <= w2
    ensures DaysPassed(w1) <= DaysPassed(w2)
  {
  }
}
