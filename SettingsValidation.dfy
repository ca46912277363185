/**
 * SettingsValidator: a fixed sequence of field checks that stops at the first
 * failing field and reports it as "<field>: <message>" (the message of the
 * InvalidSettingsException the source throws).
 */
module SettingsValidation {
  import opened Wrappers
  import opened Scheduling
  import opened ServiceSettings

  /** The generic check: passes when `valid` accepts the value, else fails with "<fieldName>: <errorMessage>". */
  function Check<T>(value: T, fieldName: string, valid: T -> bool, errorMessage: string): (outcome: Outcome<string>)
    ensures outcome.Pass? <==> valid(value)
    ensures outcome.Fail? ==> outcome.error == fieldName + ": " + errorMessage
  {
    if valid(value) then Pass else Fail(fieldName + ": " + errorMessage)
  }

  /** isValidPolling: a non-negative initial delay, a positive period and a unit, none of them null. */
  predicate IsValidPolling(polling: PollingSettings) {
    && polling.initialDelay.Some? && polling.initialDelay.value >= 0
    && polling.period.Some? && polling.period.value > 0
    && polling.unit.Some?
  }

  predicate IsValidFreshnessPeriod(period: Option<int>) {
    period.Some? && period.value > 0
  }

  predicate IsValidCache(cache: Option<CacheSettings>) {
    cache.Some? && cache.value.size.Some? && cache.value.size.value > 0
  }

  predicate IsValidPollingField(polling: Option<PollingSettings>) {
    polling.Some? && IsValidPolling(polling.value)
  }

  /** Settings the validator accepts, stated as one conjunction, independently of the order of the checks. */
  predicate IsValidSettings(settings: Option<Settings>) {
    && settings.Some?
    && IsValidFreshnessPeriod(settings.value.dataFreshnessPeriod)
    && IsValidCache(settings.value.cache)
    && IsValidPollingField(settings.value.polling)
  }

  /** The reports of the four checks, each "<field>: <message>". */
  const SETTINGS_NULL_MESSAGE: string := "settings" + ": " + "Settings cannot be null"
  const FRESHNESS_MESSAGE: string := "dataFreshnessPeriod" + ": " + "Data freshness period must be positive"
  const CACHE_MESSAGE: string := "cache" + ": " + "Cache size must be positive"
  const POLLING_MESSAGE: string := "polling" + ": " + "Polling settings are invalid"

  /**
   * SettingsValidator.validate: checks settings, then dataFreshnessPeriod,
   * then cache, then polling, and reports the first that fails.
   */
  function Validate(settings: Option<Settings>): (outcome: Outcome<string>)
    ensures outcome.Pass? <==> IsValidSettings(settings)
    ensures settings.None? ==> outcome == Fail(SETTINGS_NULL_MESSAGE)
    ensures settings.Some? && !IsValidFreshnessPeriod(settings.value.dataFreshnessPeriod) ==>
              outcome == Fail(FRESHNESS_MESSAGE)
    ensures settings.Some? && IsValidFreshnessPeriod(settings.value.dataFreshnessPeriod)
            && !IsValidCache(settings.value.cache) ==>
              outcome == Fail(CACHE_MESSAGE)
    ensures settings.Some? && IsValidFreshnessPeriod(settings.value.dataFreshnessPeriod)
            && IsValidCache(settings.value.cache) && !IsValidPollingField(settings.value.polling) ==>
              outcome == Fail(POLLING_MESSAGE)
  {
    var present := Check(settings, "settings", (s: Option<Settings>) => s.Some?, "Settings cannot be null");
    if present.Fail? then present
    else
      var s := settings.value;
      var freshness := Check(s.dataFreshnessPeriod, "dataFreshnessPeriod",
                             (p: Option<int>) => p.Some? && p.value > 0, "Data freshness period must be positive");
      if freshness.Fail? then freshness
      else
        var cache := Check(s.cache, "cache",
                           (c: Option<CacheSettings>) => c.Some? && c.value.size.Some? && c.value.size.value > 0,
                           "Cache size must be positive");
        if cache.Fail? then cache
        else
          Check(s.polling, "polling", (p: Option<PollingSettings>) => p.Some? && IsValidPolling(p.value),
                "Polling settings are invalid")
  }

  /** Accepted settings carry everything a service constructor reads. */
  lemma ValidSettingsAreComplete(settings: Option<Settings>)
    requires Validate(settings).Pass?
    ensures settings.Some? && settings.value.cache.Some? && settings.value.polling.Some?
    ensures settings.value.dataFreshnessPeriod.Some? && settings.value.dataFreshnessPeriod.value > 0
  {
  }

  /** The defaults pass validation. */
  lemma DefaultSettingsAreValid()
    ensures Validate(Some(DefaultSettings())) == Pass
  {
  }

  /** An initial delay of zero is accepted; a period of zero is refused. */
  lemma ZeroDelayAcceptedZeroPeriodRefused(unit: TimeUnit)
    ensures IsValidPolling(PollingSettings(Some(0), Some(1), Some(unit)))
    ensures !IsValidPolling(PollingSettings(Some(0), Some(0), Some(unit)))
  {
  }

  /**
   * Freshness -1, cache size 0 and polling (-1, 0, null) are refused, and the
   * report names the first failing field.
   */
  lemma BadSettingsRefused()
    ensures Validate(Some(Settings(Some(-1), Some(CacheSettings(Some(0))), Some(PollingSettings(Some(-1), Some(0), None)))))
            == Fail(FRESHNESS_MESSAGE)
  {
  }

  /** Only the first failing field is reported: a good freshness period moves the report on to the cache. */
  lemma ReportNamesFirstFailingField()
    ensures Validate(Some(Settings(Some(10), Some(CacheSettings(Some(0))), None))) == Fail(CACHE_MESSAGE)
    ensures Validate(Some(Settings(Some(10), Some(CacheSettings(None)), None))) == Fail(CACHE_MESSAGE)
    ensures Validate(Some(Settings(Some(10), Some(CacheSettings(Some(3))), None))) == Fail(POLLING_MESSAGE)
  {
  }
}
