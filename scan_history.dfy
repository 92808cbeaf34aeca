/** `formatDate` of app/scan-history.tsx: the relative-day label of a scan's
    timestamp. Times are whole milliseconds; the current time and the
    locale date formatting are parameters. */
module ScanHistory {

  /** `1000 * 60 * 60 * 24`. */
  const DAY_MS: int := 86400000

  const TODAY := "Сегодня"
  const YESTERDAY := "Вчера"
  const DAYS_AGO := " дн. назад"

  /** `Math.floor(diffMs / DAY_MS)`: the greatest whole number of days not
      above the difference, negative for a timestamp in the future. */
  function DiffDays(timestamp: int, now: int): (d: int)
    ensures d * DAY_MS <= now - timestamp < (d + 1) * DAY_MS
  {
    (now - timestamp) / DAY_MS
  }

  /** The digit character of `0 <= n < 10`. */
  function Digit(n: int): char
    requires 0 <= n < 10
  {
    ('0' as int + n) as char
  }

  /** The decimal digits of `n`, without leading zeros. */
  function NatToString(n: nat): (s: string)
    ensures |s| > 0
    ensures forall i :: 0 <= i < |s| ==> '0' <= s[i] <= '9'
    ensures |s| > 1 ==> s[0] != '0'
  {
    if n < 10 then [Digit(n)] else NatToString(n / 10) + [Digit(n % 10)]
  }

  /** A number in a template literal: a minus sign before the digits of a
      negative one. */
  function IntToString(n: int): string {
    if n < 0 then "-" + NatToString(-n) else NatToString(n)
  }

  /** The value of a string of decimal digits. */
  function ParseNat(s: string): int
    requires forall i :: 0 <= i < |s| ==> '0' <= s[i] <= '9'
  {
    if s == [] then 0 else 10 * ParseNat(s[..|s| - 1]) + (s[|s| - 1] as int - '0' as int)
  }

  /** The inverse of `IntToString`, for strings it produces. */
  function ParseInt(s: string): int
    requires s != [] && (if s[0] == '-' then s[1..] else s) != []
    requires forall i :: 0 <= i < |s| && (i > 0 || s[0] != '-') ==> '0' <= s[i] <= '9'
  {
    if s[0] == '-' then -ParseNat(s[1..]) else ParseNat(s)
  }

  /** The digits read back as the number they spell. */
  lemma {:induction false} NatToStringRoundTrip(n: nat)
    ensures ParseNat(NatToString(n)) == n
  {
    if n >= 10 {
      NatToStringRoundTrip(n / 10);
      var s := NatToString(n);
      assert s[..|s| - 1] == NatToString(n / 10);
    }
  }

  /** `IntToString` loses nothing: `ParseInt` recovers the number. */
  lemma IntToStringRoundTrip(n: int)
    ensures IntToString(n) != []
    ensures ParseInt(IntToString(n)) == n
  {
    var s := IntToString(n);
    if n < 0 {
      assert s[1..] == NatToString(-n);
      NatToStringRoundTrip(-n);
    } else {
      NatToStringRoundTrip(n);
    }
  }

  /** `formatDate(timestamp)` at time `now`, with `localeDate(timestamp,
      now)` as the `toLocaleDateString` call of lines 41-45. */
  function FormatDate(timestamp: int, now: int, localeDate: (int, int) -> string): string {
    var d := DiffDays(timestamp, now);
    if d == 0 then TODAY
    else if d == 1 then YESTERDAY
    else if d < 7 then IntToString(d) + DAYS_AGO
    else localeDate(timestamp, now)
  }

  /** The buckets, by elapsed milliseconds: the last 24 hours are today
      (not the calendar day), the 24 before yesterday, the rest of the week
      "n дн. назад" with n from 2 to 6, a future timestamp a negative count
      of days, and a week or more the locale date. */
  lemma FormatDateBuckets(timestamp: int, now: int, localeDate: (int, int) -> string)
    ensures 0 <= now - timestamp < DAY_MS ==> FormatDate(timestamp, now, localeDate) == TODAY
    ensures DAY_MS <= now - timestamp < 2 * DAY_MS ==> FormatDate(timestamp, now, localeDate) == YESTERDAY
    ensures 2 * DAY_MS <= now - timestamp < 7 * DAY_MS ==>
      && 2 <= DiffDays(timestamp, now) <= 6
      && FormatDate(timestamp, now, localeDate) == [Digit(DiffDays(timestamp, now))] + DAYS_AGO
    ensures now - timestamp < 0 ==>
      && DiffDays(timestamp, now) < 0
      && FormatDate(timestamp, now, localeDate) == "-" + NatToString(-DiffDays(timestamp, now)) + DAYS_AGO
    ensures 7 * DAY_MS <= now - timestamp ==> FormatDate(timestamp, now, localeDate) == localeDate(timestamp, now)
  {
    var e := now - timestamp;
    if 0 <= e < DAY_MS {
      DayOf(e, 0);
    } else if DAY_MS <= e < 2 * DAY_MS {
      DayOf(e, 1);
    }
  }

  /** The floor of `e / DAY_MS` is `k` when `e` lies in the `k`-th day. */
  lemma DayOf(e: int, k: int)
    requires k * DAY_MS <= e < (k + 1) * DAY_MS
    ensures e / DAY_MS == k
  {
  }

  /** A scan stamped one millisecond in the future reads "-1 дн. назад". */
  lemma FutureScanReadsMinusOne(timestamp: int, localeDate: (int, int) -> string)
    ensures FormatDate(timestamp, timestamp - 1, localeDate) == "-1" + DAYS_AGO
  {
    DayOf(-1, -1);
  }
}
