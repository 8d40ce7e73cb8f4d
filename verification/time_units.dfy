/**
  Conversion of a millisecond duration to whole minutes, as done by
  `TimeUnit.MILLISECONDS.toMinutes`: a 64-bit integer division by 60000,
  which truncates toward zero (unlike Dafny's Euclidean `/` on negatives).
 */
module TimeUnits {

  const MillisPerMinute: int := 60000

  /** Whole minutes in `d` milliseconds, rounded toward zero. */
  function MillisToMinutes(d: int): (m: int)
    ensures d >= 0 ==> 0 <= m && m * MillisPerMinute <= d < (m + 1) * MillisPerMinute
    ensures d < 0 ==> m <= 0 && d <= m * MillisPerMinute && (m - 1) * MillisPerMinute < d
  {
    if d >= 0 then d / MillisPerMinute else -((-d) / MillisPerMinute)
  }

  /**
    A duration reaches `k` whole minutes (for `k` at least 1) exactly when it
    is at least `k` times 60000 milliseconds; negative durations never do.
   */
  lemma MinutesAtLeastIff(d: int, k: int)
    requires k >= 1
    ensures MillisToMinutes(d) >= k <==> d >= k * MillisPerMinute
  {
  }

  /** The ten-minute threshold lands exactly on 600000 ms. */
  lemma TenMinuteBoundary()
    ensures MillisToMinutes(600000) == 10
    ensures MillisToMinutes(599999) == 9
    ensures MillisToMinutes(-600000) == -10
    ensures MillisToMinutes(-599999) == -9
  {
  }
}
