/** The polling schedule of a polling service and its fallback values. */
module Scheduling {

  /** java.util.concurrent.TimeUnit. */
  datatype TimeUnit = Nanoseconds | Microseconds | Milliseconds | Seconds | Minutes | Hours | Days

  /** Fallbacks of the polling service for null polling fields. */
  const DEFAULT_POLLING_PERIOD: int := 5
  const DEFAULT_POLLING_INITIAL_DELAY: int := 0
  const DEFAULT_POLLING_TIME_UNIT: TimeUnit := Seconds

  /** The arguments a polling service hands to its fixed-rate scheduler. */
  datatype Schedule = Schedule(initialDelay: int, period: int, unit: TimeUnit)
}

/**
 * The service configuration: three immutable records (null fields as None)
 * and the mutable builders that assemble them with defaults.
 */
module ServiceSettings {
  import opened Wrappers
  import opened Scheduling
  import Freshness
  import LocationCache

  /** Settings.Cache. */
  datatype CacheSettings = CacheSettings(size: Option<int>)

  /** Settings.Polling. */
  datatype PollingSettings = PollingSettings(initialDelay: Option<int>, period: Option<int>, unit: Option<TimeUnit>)

  /** Settings: the freshness period in minutes, and the cache and polling records. */
  datatype Settings = Settings(dataFreshnessPeriod: Option<int>, cache: Option<CacheSettings>, polling: Option<PollingSettings>)

  /** What `Settings.builder().build()` yields. */
  function DefaultSettings(): Settings {
    Settings(
      Some(Freshness.DEFAULT_DATA_FRESHNESS_PERIOD),
      Some(CacheSettings(Some(LocationCache.DEFAULT_CACHE_SIZE))),
      Some(PollingSettings(Some(DEFAULT_POLLING_INITIAL_DELAY), Some(DEFAULT_POLLING_PERIOD), Some(DEFAULT_POLLING_TIME_UNIT))))
  }

  /** Settings.Cache.Builder. */
  class CacheSettingsBuilder {
    var size: Option<int>

    constructor ()
      ensures size == Some(LocationCache.DEFAULT_CACHE_SIZE)
    {
      size := Some(LocationCache.DEFAULT_CACHE_SIZE);
    }

    /** Sets the size; returns the builder itself, for chaining. */
    method SetSize(size: Option<int>) returns (self: CacheSettingsBuilder)
      modifies this
      ensures this.size == size
      ensures self == this
    {
      this.size := size;
      self := this;
    }

    method Build() returns (settings: CacheSettings)
      ensures settings.size == size
    {
      settings := CacheSettings(size);
    }
  }

  /** Settings.Polling.Builder. */
  class PollingSettingsBuilder {
    var initialDelay: Option<int>
    var period: Option<int>
    var unit: Option<TimeUnit>

    constructor ()
      ensures initialDelay == Some(DEFAULT_POLLING_INITIAL_DELAY)
      ensures period == Some(DEFAULT_POLLING_PERIOD)
      ensures unit == Some(DEFAULT_POLLING_TIME_UNIT)
    {
      initialDelay := Some(DEFAULT_POLLING_INITIAL_DELAY);
      period := Some(DEFAULT_POLLING_PERIOD);
      unit := Some(DEFAULT_POLLING_TIME_UNIT);
    }

    method SetInitialDelay(initialDelay: Option<int>) returns (self: PollingSettingsBuilder)
      modifies this
      ensures this.initialDelay == initialDelay && period == old(period) && unit == old(unit)
      ensures self == this
    {
      this.initialDelay := initialDelay;
      self := this;
    }

    method SetPeriod(period: Option<int>) returns (self: PollingSettingsBuilder)
      modifies this
      ensures this.period == period && initialDelay == old(initialDelay) && unit == old(unit)
      ensures self == this
    {
      this.period := period;
      self := this;
    }

    method SetUnit(unit: Option<TimeUnit>) returns (self: PollingSettingsBuilder)
      modifies this
      ensures this.unit == unit && initialDelay == old(initialDelay) && period == old(period)
      ensures self == this
    {
      this.unit := unit;
      self := this;
    }

    method Build() returns (settings: PollingSettings)
      ensures settings.initialDelay == initialDelay && settings.period == period && settings.unit == unit
    {
      settings := PollingSettings(initialDelay, period, unit);
    }
  }

  /** Settings.Builder: starts from the defaults of all three records. */
  class SettingsBuilder {
    var dataFreshnessPeriod: Option<int>
    var cache: Option<CacheSettings>
    var polling: Option<PollingSettings>

    /** A builder whose `Build` yields DefaultSettings() until a setter is called. */
    constructor ()
      ensures Settings(dataFreshnessPeriod, cache, polling) == DefaultSettings()
    {
      dataFreshnessPeriod := Some(Freshness.DEFAULT_DATA_FRESHNESS_PERIOD);
      var cacheBuilder := new CacheSettingsBuilder();
      var cacheSettings := cacheBuilder.Build();
      cache := Some(cacheSettings);
      var pollingBuilder := new PollingSettingsBuilder();
      var pollingSettings := pollingBuilder.Build();
      polling := Some(pollingSettings);
    }

    method SetDataFreshnessPeriod(dataFreshnessPeriod: Option<int>) returns (self: SettingsBuilder)
      modifies this
      ensures this.dataFreshnessPeriod == dataFreshnessPeriod && cache == old(cache) && polling == old(polling)
      ensures self == this
    {
      this.dataFreshnessPeriod := dataFreshnessPeriod;
      self := this;
    }

    method SetCache(cache: Option<CacheSettings>) returns (self: SettingsBuilder)
      modifies this
      ensures this.cache == cache && dataFreshnessPeriod == old(dataFreshnessPeriod) && polling == old(polling)
      ensures self == this
    {
      this.cache := cache;
      self := this;
    }

    method SetPolling(polling: Option<PollingSettings>) returns (self: SettingsBuilder)
      modifies this
      ensures this.polling == polling && dataFreshnessPeriod == old(dataFreshnessPeriod) && cache == old(cache)
      ensures self == this
    {
      this.polling := polling;
      self := this;
    }

    method Build() returns (settings: Settings)
      ensures settings.dataFreshnessPeriod == dataFreshnessPeriod
      ensures settings.cache == cache && settings.polling == polling
    {
      settings := Settings(dataFreshnessPeriod, cache, polling);
    }
  }
}
