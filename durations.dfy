/**
  `getDuration`: the probed length of the working file in milliseconds,
  turned into the requested unit with Java's `long` arithmetic. MINUTES is
  deliberately the minute within the current hour, not the total number
  of minutes.
 */
module Durations {
  import opened JavaLang

  datatype Duration = Millis | Seconds | Minutes

  const MILLIS_PER_SECOND: int := 1000
  const MILLIS_PER_MINUTE: int := 1000 * 60
  const MILLIS_PER_HOUR: int := 1000 * 60 * 60

  /** The number `getDuration` delivers for a length of `ms` milliseconds. */
  function DurationIn(unit: Duration, ms: int64): (r: int)
    ensures unit == Millis ==> r == ms
    ensures unit == Seconds && ms >= 0 ==> r * MILLIS_PER_SECOND <= ms < (r + 1) * MILLIS_PER_SECOND
    ensures unit == Seconds && ms < 0 ==> (r - 1) * MILLIS_PER_SECOND < ms <= r * MILLIS_PER_SECOND
    ensures unit == Minutes ==> -59 <= r <= 59
    ensures unit == Minutes && ms >= 0 ==> 0 <= r
  {
    match unit
    case Millis => ms
    case Seconds => Quot(ms, MILLIS_PER_SECOND)
    case Minutes => Quot(Rem(ms, MILLIS_PER_HOUR), MILLIS_PER_MINUTE)
  }

  /**
    For a non-negative length, MINUTES is the total number of whole minutes
    reduced modulo 60: the minute within the hour.
   */
  lemma MinutesWithinHour(ms: int64)
    requires ms >= 0
    ensures DurationIn(Minutes, ms) == (ms / MILLIS_PER_MINUTE) % 60
  {
    var h := ms / MILLIS_PER_HOUR;
    var rest := ms % MILLIS_PER_HOUR;
    var m := rest / MILLIS_PER_MINUTE;
    assert ms == h * MILLIS_PER_HOUR + rest;
    assert rest == m * MILLIS_PER_MINUTE + rest % MILLIS_PER_MINUTE;
    assert ms == (h * 60 + m) * MILLIS_PER_MINUTE + rest % MILLIS_PER_MINUTE;
    assert ms / MILLIS_PER_MINUTE == h * 60 + m;
  }

  /**
    A 90-minute file: 5 400 000 ms, 5400 s, and minute 30 of its second
    hour rather than 90 total minutes.
   */
  lemma NinetyMinuteExample()
    ensures DurationIn(Millis, 5400000) == 5400000
    ensures DurationIn(Seconds, 5400000) == 5400
    ensures DurationIn(Minutes, 5400000) == 30
    ensures 5400000 / MILLIS_PER_MINUTE == 90
  {
    assert Rem(5400000, MILLIS_PER_HOUR) == 1800000;
  }
}
