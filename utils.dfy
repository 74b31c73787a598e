/**
 * The small formatting helpers: cutting a string down to a length, and the
 * "how long ago" label of a timestamp.
 */
module Utils {
  import opened Seqs
  import opened Text

  /** The end index `s.slice(0, n)` uses: a negative `n` counts back from
      the end, and the index never leaves `0..|s|`. */
  function SliceEnd(len: nat, n: int): (k: nat)
    ensures k <= len
  {
    if n < 0 then (if len + n < 0 then 0 else len + n) else if n < len then n else len
  }

  /** `truncate(str, length)` */
  function Truncate(s: string, n: int): (r: string)
    ensures |s| <= n ==> r == s
    ensures 0 <= n < |s| ==> r == s[..n] + "..." && |r| == n + 3
    ensures |s| > n ==> r == s[..SliceEnd(|s|, n)] + "..."
  {
    if |s| <= n then s else s[..SliceEnd(|s|, n)] + "..."
  }

  /** A truncated string always starts with a prefix of the original and is
      never longer than the limit plus the three dots. */
  lemma TruncatePrefix(s: string, n: int)
    ensures exists k :: (0 <= k <= |s| && k <= |Truncate(s, n)| && Truncate(s, n)[..k] == s[..k] &&
      (Truncate(s, n) == s[..k] || Truncate(s, n) == s[..k] + "..."))
    ensures n >= 0 ==> |Truncate(s, n)| <= n + 3
  {
    if |s| <= n {
      assert Truncate(s, n)[..|s|] == s[..|s|];
    } else {
      var k := SliceEnd(|s|, n);
      assert Truncate(s, n)[..k] == s[..k];
    }
  }

  const MinuteMs := 60000
  const HourMs := 3600000
  const DayMs := 86400000

  /** Which label `formatRelativeTime` shows for a moment `at` at time
      `now`; `Absolute` is the case it hands to `formatDate`. */
  datatype RelativeTime = JustNow | MinutesAgo(minutes: int) | HoursAgo(hours: int) | DaysAgo(days: int) | Absolute

  /** The bucket logic of `formatRelativeTime`, on milliseconds.  `Math.floor`
      of a division by a positive constant is Dafny's `/`. */
  function Relative(at: int, now: int): (r: RelativeTime)
    ensures now - at < MinuteMs <==> r == JustNow
    ensures r.MinutesAgo? <==> MinuteMs <= now - at < HourMs
    ensures r.HoursAgo? <==> HourMs <= now - at < DayMs
    ensures r.DaysAgo? <==> DayMs <= now - at < 7 * DayMs
    ensures r == Absolute <==> now - at >= 7 * DayMs
    ensures r.MinutesAgo? ==> (1 <= r.minutes < 60 &&
      r.minutes * MinuteMs <= now - at < (r.minutes + 1) * MinuteMs)
    ensures r.HoursAgo? ==> (1 <= r.hours < 24 &&
      r.hours * HourMs <= now - at < (r.hours + 1) * HourMs)
    ensures r.DaysAgo? ==> (1 <= r.days < 7 &&
      r.days * DayMs <= now - at < (r.days + 1) * DayMs)
  {
    var diff := now - at;
    var minutes := diff / MinuteMs;
    var hours := diff / HourMs;
    var days := diff / DayMs;
    if minutes < 1 then JustNow
    else if minutes < 60 then MinutesAgo(minutes)
    else if hours < 24 then HoursAgo(hours)
    else if days < 7 then DaysAgo(days)
    else Absolute
  }

  /** `formatRelativeTime(date)` with the clock reading `now` and the
      locale date rendering `formatDate` passed in. */
  function FormatRelativeTime(at: int, now: int, formatDate: int -> string): string
  {
    match Relative(at, now)
    case JustNow => "Just now"
    case MinutesAgo(m) => NatToString(m) + "m ago"
    case HoursAgo(h) => NatToString(h) + "h ago"
    case DaysAgo(d) => NatToString(d) + "d ago"
    case Absolute => formatDate(at)
  }

  /** A moment in the future is "Just now"; the label of a past moment
      reads back as the whole number of units elapsed. */
  lemma FormatRelativeTimeLabels(at: int, now: int, formatDate: int -> string)
    ensures now < at + MinuteMs ==> FormatRelativeTime(at, now, formatDate) == "Just now"
    ensures MinuteMs <= now - at < HourMs ==>
      FormatRelativeTime(at, now, formatDate) == NatToString((now - at) / MinuteMs) + "m ago" &&
      ParseNumber(NatToString((now - at) / MinuteMs)) == Some((now - at) / MinuteMs)
    ensures now - at >= 7 * DayMs ==> FormatRelativeTime(at, now, formatDate) == formatDate(at)
  {
    if MinuteMs <= now - at < HourMs {
      ParseNumberOfNat((now - at) / MinuteMs);
    }
  }
}
