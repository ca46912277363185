/**
 * The freshness rule for cached weather data: data observed at `dt` (epoch
 * seconds) is fresh while the whole minutes elapsed since `dt`, counted the
 * way java.time.Duration.toMinutes counts them, stay below the period.
 * The current time is a parameter `now`, in whole epoch seconds.
 */
module Freshness {

  /** Freshness period, in minutes, used when the settings leave it null. */
  const DEFAULT_DATA_FRESHNESS_PERIOD: int := 10

  const SECONDS_PER_MINUTE: int := 60

  /**
   * Duration.toMinutes: whole minutes in a signed number of seconds, rounded
   * toward zero (Java's long division), not toward minus infinity as Dafny's `/`.
   */
  function TruncatedMinutes(seconds: int): (minutes: int)
    ensures seconds >= 0 ==> 0 <= minutes && minutes * 60 <= seconds < minutes * 60 + 60
    ensures seconds < 0 ==> minutes <= 0 && minutes * 60 - 60 < seconds <= minutes * 60
  {
    if seconds >= 0 then seconds / SECONDS_PER_MINUTE else -((-seconds) / SECONDS_PER_MINUTE)
  }

  /** Duration.between(Instant.ofEpochSecond(dt), now).toMinutes(). */
  function ElapsedMinutes(dt: int, now: int): int {
    TruncatedMinutes(now - dt)
  }

  /** WeatherService.isDataFresh(dt, period), with the clock reading passed in. */
  predicate IsDataFresh(dt: int, period: int, now: int) {
    ElapsedMinutes(dt, now) < period
  }

  /** Truncation is monotone: more seconds never make fewer minutes. */
  lemma TruncatedMinutesMonotone(a: int, b: int)
    requires a <= b
    ensures TruncatedMinutes(a) <= TruncatedMinutes(b)
  {
  }

  /**
   * For a positive period, freshness is a plain bound on the age in seconds:
   * fresh exactly when the data is less than `period` whole minutes old.
   */
  lemma FreshIffYoungerThanPeriod(dt: int, period: int, now: int)
    requires period > 0
    ensures IsDataFresh(dt, period, now) <==> now - dt < period * 60
  {
    var m := TruncatedMinutes(now - dt);
    if now - dt < period * 60 {
      if now - dt >= 0 {
        assert m * 60 <= now - dt < period * 60;
      }
    } else {
      assert m * 60 + 60 > now - dt >= period * 60;
    }
  }

  /**
   * For a positive period, rounding the elapsed minutes toward zero or toward
   * minus infinity gives the same verdict.
   */
  lemma TruncationAgreesWithFloorForPositivePeriods(seconds: int, period: int)
    requires period > 0
    ensures TruncatedMinutes(seconds) < period <==> seconds / 60 < period
  {
    FreshIffYoungerThanPeriod(0, period, seconds);
    if seconds / 60 < period {
      assert seconds < (seconds / 60) * 60 + 60;
    } else {
      assert (seconds / 60) * 60 <= seconds;
    }
  }

  /**
   * With period 0 the two roundings disagree: data less than a minute in the
   * future is not fresh under truncation (0 minutes), but would be under
   * flooring (-1 minute).
   */
  lemma TruncationDiffersFromFloorAtZeroPeriod(dt: int, now: int)
    requires now < dt < now + 60
    ensures !IsDataFresh(dt, 0, now)
    ensures (now - dt) / 60 < 0
  {
    assert TruncatedMinutes(now - dt) == 0;
  }

  /** Data exactly `period` minutes old is stale: the comparison is strict. */
  lemma StaleAtExactPeriod(dt: int, period: int)
    ensures !IsDataFresh(dt, period, dt + period * 60)
  {
    var m := TruncatedMinutes(period * 60);
    assert dt + period * 60 - dt == period * 60;
    if period >= 0 {
      assert m * 60 <= period * 60 < m * 60 + 60;
    } else {
      assert m * 60 - 60 < period * 60 <= m * 60;
    }
  }

  /** Data one second short of `period` minutes old is still fresh, for a positive period. */
  lemma FreshJustBeforePeriod(dt: int, period: int)
    requires period > 0
    ensures IsDataFresh(dt, period, dt + period * 60 - 1)
  {
    FreshIffYoungerThanPeriod(dt, period, dt + period * 60 - 1);
  }

  /** Data stamped in the future is fresh for every positive period. */
  lemma FutureDataIsFresh(dt: int, period: int, now: int)
    requires period > 0 && dt >= now
    ensures IsDataFresh(dt, period, now)
  {
    FreshIffYoungerThanPeriod(dt, period, now);
  }

  /** With the clock and period fixed, newer data than fresh data is fresh too. */
  lemma FreshnessMonotoneInTimestamp(dt: int, newer: int, period: int, now: int)
    requires IsDataFresh(dt, period, now) && dt <= newer
    ensures IsDataFresh(newer, period, now)
  {
    TruncatedMinutesMonotone(now - newer, now - dt);
  }

  /** With the default period: 9 minutes old is fresh, 11 minutes or 24 hours old is stale. */
  lemma DefaultPeriodExamples(now: int)
    ensures IsDataFresh(now - 9 * 60, DEFAULT_DATA_FRESHNESS_PERIOD, now)
    ensures !IsDataFresh(now - 11 * 60, DEFAULT_DATA_FRESHNESS_PERIOD, now)
    ensures !IsDataFresh(now - 24 * 60 * 60, DEFAULT_DATA_FRESHNESS_PERIOD, now)
  {
    FreshIffYoungerThanPeriod(now - 9 * 60, DEFAULT_DATA_FRESHNESS_PERIOD, now);
    FreshIffYoungerThanPeriod(now - 11 * 60, DEFAULT_DATA_FRESHNESS_PERIOD, now);
    FreshIffYoungerThanPeriod(now - 24 * 60 * 60, DEFAULT_DATA_FRESHNESS_PERIOD, now);
  }
}
