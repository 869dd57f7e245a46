/** The link-expiry countdown shown on both pages (countdownLabel in
    frontend/src/pages/HomePage.tsx and frontend/src/pages/SchedulingPage.tsx,
    the same arithmetic in both). `now` stands for `Date.now()`. */
module Countdown {

  const MsPerMinute: int := 60000

  /** Hours and minutes, rendered by the source as `${hours}h ${minutes}m`. */
  datatype Remaining = Remaining(hours: int, minutes: int)

  /** Whole minutes left, rounded down and clamped at zero. */
  function TotalMinutes(expiresAt: int, now: int): (t: int)
    ensures t >= 0
    ensures expiresAt - now >= 0 ==> t * MsPerMinute <= expiresAt - now < (t + 1) * MsPerMinute
    ensures expiresAt - now < MsPerMinute ==> t == 0
  {
    var m := (expiresAt - now) / MsPerMinute;
    if m < 0 then 0 else m
  }

  /** countdownLabel: a proper hours-and-minutes split of the minutes left. */
  function Label(expiresAt: int, now: int): (r: Remaining)
    ensures r.hours >= 0 && 0 <= r.minutes <= 59
    ensures r.hours * 60 + r.minutes == TotalMinutes(expiresAt, now)
  {
    var totalMinutes := TotalMinutes(expiresAt, now);
    Remaining(totalMinutes / 60, totalMinutes % 60)
  }

  /** The split is the only one with minutes in 0..59, so the label can be
      read back into the total it came from. */
  lemma LabelIsUniqueSplit(expiresAt: int, now: int, h: int, m: int)
    requires h >= 0 && 0 <= m <= 59
    requires h * 60 + m == TotalMinutes(expiresAt, now)
    ensures Label(expiresAt, now) == Remaining(h, m)
  {
  }

  /** An expired link, and one with less than a minute left, shows 0h 0m. */
  lemma ExpiredShowsZero(expiresAt: int, now: int)
    requires expiresAt - now < MsPerMinute
    ensures Label(expiresAt, now) == Remaining(0, 0)
  {
  }

  /** As time passes the countdown never goes up. */
  lemma CountdownNeverIncreases(expiresAt: int, now: int, later: int)
    requires now <= later
    ensures TotalMinutes(expiresAt, later) <= TotalMinutes(expiresAt, now)
  {
  }
}
