/**
 * Day arithmetic on JavaScript time values (integer milliseconds). The
 * source divides on IEEE doubles; here the division is on reals, which is
 * exact for every difference the expiry windows can accept.
 */
module Dates {
  import opened Wrappers
  import opened Js

  /** `1000 * 60 * 60 * 24` */
  const DayMs: int := 1000 * 60 * 60 * 24

  /** `WARNING_DAYS` (frontend/app.js:49, backend/server.js:447). */
  const WarningDays: int := 30

  /** `new Date(v).getTime()`; None stands for an invalid date (NaN). */
  type DateParser = Json -> Option<int>

  /** `Math.floor((expDate - now) / (1000 * 60 * 60 * 24))` for valid dates. */
  function DaysUntil(expiresAt: int, now: int): (d: int)
    ensures d == (expiresAt - now) / DayMs
  {
    var x := expiresAt - now;
    var q := x / DayMs;
    assert x as real == q as real * 86400000.0 + (x % DayMs) as real;
    ((expiresAt - now) as real / DayMs as real).Floor
  }

  /** The whole-day window of the suggestion rule, stated on milliseconds. */
  lemma SuggestionWindow(expiresAt: int, now: int)
    ensures 0 <= DaysUntil(expiresAt, now) <= WarningDays
        <==> 0 <= expiresAt - now < (WarningDays + 1) * DayMs
  {
  }

  /** `isExpiring(dateStr)` (frontend/app.js:314-318): within 30 days, not yet past. */
  function IsExpiring(dateStr: Json, now: int, toTime: DateParser): (r: bool)
    ensures r <==> Truthy(dateStr) && toTime(dateStr).Some?
                   && 0 <= toTime(dateStr).value - now < 30 * DayMs
  {
    if !Truthy(dateStr) then false
    else match toTime(dateStr)
      case None => false
      case Some(t) =>
        var days := (t - now) as real / DayMs as real;
        days >= 0.0 && days < 30.0
  }
}
