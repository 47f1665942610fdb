/**
 * The integer time arithmetic of the `!업타임` and `!팔로우` replies.
 * Elapsed times are whole milliseconds, never negative; the clock reading
 * itself is an input.
 */
module Clock {
  import opened Arith

  const MsPerSecond: nat := 1000
  const MsPerMinute: nat := 60000
  const MsPerHour: nat := 3600000
  const MsPerDay: nat := 86400000

  /** Whole hours, minutes and seconds of an uptime. */
  datatype Hms = Hms(hours: nat, minutes: nat, seconds: nat)

  /**
   * `h = floor(ms / 3600000)`, `m = floor(ms % 3600000 / 60000)`,
   * `s = floor(ms % 60000 / 1000)`: each unit truncated, none rounded.
   */
  function Uptime(ms: nat): (t: Hms)
    ensures t.minutes < 60 && t.seconds < 60
    ensures t.hours * MsPerHour + t.minutes * MsPerMinute + t.seconds * MsPerSecond + ms % MsPerSecond == ms
  {
    UptimeParts(ms);
    Hms(ms / MsPerHour, ms % MsPerHour / MsPerMinute, ms % MsPerMinute / MsPerSecond)
  }

  lemma UptimeParts(ms: nat)
    ensures ms % MsPerHour / MsPerMinute < 60
    ensures ms % MsPerMinute / MsPerSecond < 60
    ensures (ms / MsPerHour) * MsPerHour + (ms % MsPerHour / MsPerMinute) * MsPerMinute
            + (ms % MsPerMinute / MsPerSecond) * MsPerSecond + ms % MsPerSecond == ms
  {
    var h, rh := ms / MsPerHour, ms % MsPerHour;
    var m, rm := rh / MsPerMinute, rh % MsPerMinute;
    var s, rs := rm / MsPerSecond, rm % MsPerSecond;
    assert ms == h * MsPerHour + rh;
    assert rh == m * MsPerMinute + rm;
    assert rm == s * MsPerSecond + rs;
    DivUnique(ms, MsPerMinute, h * 60 + m, rm);
    DivUnique(ms, MsPerSecond, h * 3600 + m * 60 + s, rs);
  }

  /** Euclidean division has exactly one quotient and remainder. */
  lemma DivUnique(n: nat, d: nat, q: nat, r: nat)
    requires 0 < d && r < d && n == q * d + r
    ensures n / d == q && n % d == r
  {
    var q', r' := n / d, n % d;
    assert n == q' * d + r';
    MulMono(q' + 1, q, d);
    MulMono(q + 1, q', d);
  }

  /**
   * The decomposition is unique: any split of `ms` into hours, minutes below
   * 60, seconds below 60 and a sub-second rest is the one `Uptime` reports.
   */
  lemma UptimeUnique(ms: nat, h: nat, m: nat, s: nat, rest: nat)
    requires m < 60 && s < 60 && rest < MsPerSecond
    requires h * MsPerHour + m * MsPerMinute + s * MsPerSecond + rest == ms
    ensures Uptime(ms) == Hms(h, m, s)
  {
    var rh := m * MsPerMinute + s * MsPerSecond + rest;
    DivUnique(ms, MsPerHour, h, rh);
    var rm := s * MsPerSecond + rest;
    DivUnique(rh, MsPerMinute, m, rm);
    DivUnique(ms, MsPerMinute, h * 60 + m, rm);
    DivUnique(rm, MsPerSecond, s, rest);
  }

  /** One hour, five minutes and thirty seconds read back as 1, 5 and 30. */
  lemma UptimeExample()
    ensures Uptime(3930000) == Hms(1, 5, 30)
    ensures Uptime(3930999) == Hms(1, 5, 30)
  {}

  /** `Math.floor(diff / 86400000)`: the whole days in `diff` milliseconds. */
  function FollowDays(diff: nat): (days: nat)
    ensures days * MsPerDay <= diff < (days + 1) * MsPerDay
  {
    var days := diff / MsPerDay;
    DivUnique(diff, MsPerDay, days, diff % MsPerDay);
    days
  }
}
