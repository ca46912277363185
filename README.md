# weather-api core in Dafny

A model of the caching core of the `weather-api` Java library. The library
gives each API key one weather service. A service answers `getWeather(location)`
from a bounded cache while the cached data is fresh, and asks the
OpenWeatherMap API otherwise.

The model covers these parts:

- **The bounded location cache** (`LocationCache`, class `Cache`).
  - Keys are trimmed and upper-cased.
  - When a new key arrives and the cache is full, the entry with the smallest observation time `dt` is evicted first.
  - A null response is refused by the underlying map, after any eviction has already happened.
- **The freshness rule** (`Freshness`). Data is fresh while the whole minutes elapsed since `dt` stay below the configured period. Minutes are counted as `Duration.toMinutes` counts them, rounding toward zero.
- **The weather service** (`Services`, class `WeatherService`).
  - `getWeather` refuses when shut down, serves fresh cached data, and otherwise fetches and stores.
  - `shutdown` clears the cache and stops the scheduler; the active flag only ever goes from true to false.
  - The polling mode's scheduled pass over the cached locations fetches once, fetches again when the answer is null or stale, swallows `HttpException`s and shuts the service down on any other exception.
  - The polling schedule falls back to 0 / 5 / SECONDS.
  - What one pass does is specified by functions in `PollingRefresh`.
- **Settings** (`ServiceSettings`, `Scheduling`). The three records, with null fields as `None`, and their builders with defaults and chaining setters.
- **Settings validation** (`SettingsValidation`). Ordered checks that report the first failing field as `"<field>: <message>"`.
- **The service registry** (`Registry`, class `WeatherServiceFactory`).
  - Registration refuses bad arguments, a taken key and invalid settings, in that order, before anything is recorded.
  - Removal shuts the removed service down.
- **The HTTP client** (`WeatherHttp`) is an oracle. A fixed function answers the n-th request made through the client, and the client logs every request. This lets contracts count fetches.
- **Scenarios** (`Scenarios`): concrete uses of the cache, the services and the registry, most of them in the shape of the repository's unit tests, stated as verified methods and lemmas.

Java `null` is `None` throughout. The clock is a parameter `now` in epoch seconds. The scheduler is a caller invoking `Tick`.

## Model

| member | source | states |
|---|---|---|
| LocationCache.Cache.constructor | src/main/java/com/lenarsharipov/weather_api/datastructure/Cache.java:19-28 | A new cache is empty; its capacity is the given size, or 10 when the size is null. |
| LocationCache.Cache.Put | src/main/java/com/lenarsharipov/weather_api/datastructure/Cache.java:47-53 | The entries after a put are those `PutOutcome` describes: evict one oldest entry if the normalised key is new and size >= capacity, then store. `ok` holds iff the value is non-null; on success `get(location)` returns the value. Keys stay normalised and the size stays within the bound. |
| LocationCache.Cache.RemoveOldestEntry | src/main/java/com/lenarsharipov/weather_api/datastructure/Cache.java:58-63 | On a non-empty cache, removes exactly one key whose `dt` is minimal and leaves every other entry as it was; the size drops by one. On an empty cache it does nothing. |
| LocationCache.OldestKey | src/main/java/com/lenarsharipov/weather_api/datastructure/Cache.java:59-61 | The min-by-`dt` scan finds nothing iff the map is empty; otherwise it finds a key whose `dt` is no larger than any other. |
| LocationCache.Cache.Get | src/main/java/com/lenarsharipov/weather_api/datastructure/Cache.java:36-38 | The lookup goes through the normalised key, so every spelling of a location with the same slot finds the same response (see `NormalizeIgnoresCase`, `NormalizeIgnoresPadding`); after a successful put, `Put`'s contract shows the stored value is found. |
| LocationCache.Cache.Size | src/main/java/com/lenarsharipov/weather_api/datastructure/Cache.java:96-98 | The number of entries; `Locations` proves it equals the number of listed locations and stays within the bound. |
| LocationCache.Cache.IsCacheFull | src/main/java/com/lenarsharipov/weather_api/datastructure/Cache.java:105-107 | Full means at least `cacheSize` entries; `Put` evicts exactly when the cache is full and the key is new (`BelowCapacityKeepsAll`, `FullCacheEvictsOneOldest`). |
| LocationCache.Cache.Locations | src/main/java/com/lenarsharipov/weather_api/datastructure/Cache.java:70-72 | Every listed location is a normalised key; there are exactly `size()` of them, within the bound. |
| LocationCache.Cache.Clear | src/main/java/com/lenarsharipov/weather_api/datastructure/Cache.java:77-79 | Afterwards the cache is empty: size 0 and no locations. |
| LocationCache.NormalizeLocation | src/main/java/com/lenarsharipov/weather_api/datastructure/Cache.java:87-89 | The cache key: `trim` then `toUpperCase`. Its properties are the lemmas below: the result has the shape of a key, it is idempotent, and it ignores ASCII case and outer padding. |
| LocationCache.TrimStart | src/main/java/com/lenarsharipov/weather_api/datastructure/Cache.java:87-89 | The leading `trim` drops only characters <= ' ' and stops at the first other character. |
| LocationCache.TrimEnd | src/main/java/com/lenarsharipov/weather_api/datastructure/Cache.java:87-89 | The trailing `trim` drops only characters <= ' ' and stops at the last other character. |
| LocationCache.NormalizeLocationIsNormalized | src/main/java/com/lenarsharipov/weather_api/datastructure/Cache.java:87-89 | A normalised key has nothing to trim at either end and no lower-case letter. |
| LocationCache.NormalizedIffFixedPoint | src/main/java/com/lenarsharipov/weather_api/datastructure/Cache.java:87-89 | Normalisation leaves a string unchanged exactly when the string has the shape of a cache key (both directions). |
| LocationCache.NormalizeIdempotent | src/main/java/com/lenarsharipov/weather_api/datastructure/Cache.java:87-89 | Normalising twice is normalising once. |
| LocationCache.NormalizeIgnoresCase | src/main/java/com/lenarsharipov/weather_api/datastructure/Cache.java:87-89 | A location and its upper-cased spelling share one cache slot. |
| LocationCache.NormalizeIgnoresPadding | src/main/java/com/lenarsharipov/weather_api/datastructure/Cache.java:87-89 | Blank padding on either side of a location does not change its cache slot. |
| LocationCache.PutKeepsBound | src/main/java/com/lenarsharipov/weather_api/datastructure/Cache.java:47-53 | No put takes the size beyond the bound: the capacity when it is >= 1, otherwise one entry. |
| LocationCache.UpdateDoesNotEvict | src/main/java/com/lenarsharipov/weather_api/datastructure/Cache.java:49-52 | Putting a key that is already present overwrites only its value. The key set, the size and the other entries stay as they were. |
| LocationCache.PutOfCachedKey | src/main/java/com/lenarsharipov/weather_api/datastructure/Cache.java:47-53 | Re-putting a cached (already normalised) key stores under that very key and evicts nothing. |
| LocationCache.BelowCapacityKeepsAll | src/main/java/com/lenarsharipov/weather_api/datastructure/Cache.java:49-52 | A new key put below capacity is added, and every earlier entry stays with its value. |
| LocationCache.FullCacheEvictsOneOldest | src/main/java/com/lenarsharipov/weather_api/datastructure/Cache.java:49-52 | A new key put into a full cache replaces exactly one earlier entry, one with minimal `dt`; the size is unchanged. |
| Freshness.TruncatedMinutes | src/main/java/com/lenarsharipov/weather_api/service/WeatherService.java:45 | `Duration.toMinutes`: whole minutes rounded toward zero, bracketed from both sides for positive and negative durations. |
| Freshness.IsDataFresh | src/main/java/com/lenarsharipov/weather_api/service/WeatherService.java:43-46 | Fresh iff the elapsed time, in minutes rounded toward zero, is below the period; `FreshIffYoungerThanPeriod` restates it as an age bound in seconds. |
| Freshness.FreshIffYoungerThanPeriod | src/main/java/com/lenarsharipov/weather_api/service/WeatherService.java:43-46 | For a positive period, `isDataFresh` holds iff the data is less than `period`·60 seconds old (both directions). |
| Freshness.TruncationAgreesWithFloorForPositivePeriods | src/main/java/com/lenarsharipov/weather_api/service/WeatherService.java:45 | For a positive period, truncating and flooring the elapsed minutes give the same verdict. |
| Freshness.TruncationDiffersFromFloorAtZeroPeriod | src/main/java/com/lenarsharipov/weather_api/service/WeatherService.java:45 | At period 0 they differ: data less than a minute in the future is stale under truncation (0 minutes), while flooring would give -1 minute and call it fresh. |
| Freshness.StaleAtExactPeriod | src/main/java/com/lenarsharipov/weather_api/service/WeatherService.java:45 | Data exactly `period` minutes old is stale (strict comparison), for every period. |
| Freshness.FreshJustBeforePeriod | src/main/java/com/lenarsharipov/weather_api/service/WeatherService.java:45 | Data one second short of `period` minutes old is fresh, for a positive period. |
| Freshness.FutureDataIsFresh | src/main/java/com/lenarsharipov/weather_api/service/WeatherService.java:45 | A `dt` at or after `now` is fresh for every positive period. |
| Freshness.FreshnessMonotoneInTimestamp | src/main/java/com/lenarsharipov/weather_api/service/WeatherService.java:44-45 | With `now` and the period fixed, any `dt` at least as new as a fresh one is fresh. |
| Freshness.TruncatedMinutesMonotone | src/main/java/com/lenarsharipov/weather_api/service/WeatherService.java:45 | More elapsed seconds never give fewer whole minutes. |
| Freshness.DefaultPeriodExamples | src/main/java/com/lenarsharipov/weather_api/service/WeatherService.java:23-46 | With the default period of 10, data 9 minutes old is fresh; data 11 minutes or 24 hours old is stale. |
| ServiceSettings.CacheSettingsBuilder.constructor | src/main/java/com/lenarsharipov/weather_api/settings/Settings.java:80-81 | A fresh cache builder holds the size 10. |
| ServiceSettings.CacheSettingsBuilder.SetSize | src/main/java/com/lenarsharipov/weather_api/settings/Settings.java:88-91 | Sets the size and returns the builder itself. |
| ServiceSettings.CacheSettingsBuilder.Build | src/main/java/com/lenarsharipov/weather_api/settings/Settings.java:97-99 | The record carries the builder's size. |
| ServiceSettings.PollingSettingsBuilder.constructor | src/main/java/com/lenarsharipov/weather_api/settings/Settings.java:113-116 | A fresh polling builder holds delay 0, period 5 and SECONDS. |
| ServiceSettings.PollingSettingsBuilder.SetInitialDelay | src/main/java/com/lenarsharipov/weather_api/settings/Settings.java:123-126 | Sets only the delay; returns the builder itself. |
| ServiceSettings.PollingSettingsBuilder.SetPeriod | src/main/java/com/lenarsharipov/weather_api/settings/Settings.java:133-136 | Sets only the period; returns the builder itself. |
| ServiceSettings.PollingSettingsBuilder.SetUnit | src/main/java/com/lenarsharipov/weather_api/settings/Settings.java:143-146 | Sets only the unit; returns the builder itself. |
| ServiceSettings.PollingSettingsBuilder.Build | src/main/java/com/lenarsharipov/weather_api/settings/Settings.java:152-154 | The record carries the builder's three fields. |
| ServiceSettings.SettingsBuilder.constructor | src/main/java/com/lenarsharipov/weather_api/settings/Settings.java:28-31 | A fresh builder holds the defaults: freshness 10, cache size 10, polling (0, 5, SECONDS). |
| ServiceSettings.SettingsBuilder.SetDataFreshnessPeriod | src/main/java/com/lenarsharipov/weather_api/settings/Settings.java:38-41 | Sets only the freshness period; returns the builder itself. |
| ServiceSettings.SettingsBuilder.SetCache | src/main/java/com/lenarsharipov/weather_api/settings/Settings.java:48-51 | Sets only the cache record; returns the builder itself. |
| ServiceSettings.SettingsBuilder.SetPolling | src/main/java/com/lenarsharipov/weather_api/settings/Settings.java:58-61 | Sets only the polling record; returns the builder itself. |
| ServiceSettings.SettingsBuilder.Build | src/main/java/com/lenarsharipov/weather_api/settings/Settings.java:67-69 | The record carries the builder's three fields. |
| SettingsValidation.Check | src/main/java/com/lenarsharipov/weather_api/validation/SettingsValidator.java:59-66 | Passes iff the predicate accepts the value; otherwise fails with `"<fieldName>: <errorMessage>"`. |
| SettingsValidation.IsValidPolling | src/main/java/com/lenarsharipov/weather_api/validation/SettingsValidator.java:82-88 | A delay >= 0, a period > 0 and a unit, none of them null; `ZeroDelayAcceptedZeroPeriodRefused` pins the two boundaries. |
| SettingsValidation.Validate | src/main/java/com/lenarsharipov/weather_api/validation/SettingsValidator.java:35-57 | Passes iff settings, freshness period (> 0), cache size (> 0) and polling are all present and valid. Otherwise it reports the first failing check in the order settings, dataFreshnessPeriod, cache, polling, with that field's message. |
| SettingsValidation.ValidSettingsAreComplete | src/main/java/com/lenarsharipov/weather_api/validation/SettingsValidator.java:35-57 | Accepted settings are non-null, carry cache and polling records, and have a positive freshness period. |
| SettingsValidation.ZeroDelayAcceptedZeroPeriodRefused | src/main/java/com/lenarsharipov/weather_api/validation/SettingsValidator.java:82-88 | `isValidPolling` accepts an initial delay of 0 and refuses a period of 0. |
| SettingsValidation.DefaultSettingsAreValid | src/main/java/com/lenarsharipov/weather_api/settings/Settings.java:28-31 | The settings of a fresh builder pass validation. |
| SettingsValidation.BadSettingsRefused | src/test/java/com/lenarsharipov/weather_api/WeatherServiceFactoryTest.java:119-130 | Freshness -1, cache size 0 and polling (-1, 0, null) are refused, reporting the freshness period. |
| SettingsValidation.ReportNamesFirstFailingField | src/main/java/com/lenarsharipov/weather_api/validation/SettingsValidator.java:35-57 | With a good freshness period, a zero or null cache size is reported as the cache; with a good cache, a null polling record is reported as polling. |
| WeatherHttp.WeatherHttpClient.GetWeather | src/main/java/com/lenarsharipov/weather_api/http/WeatherHttpClient.java:41-46 | One request for (location, apiKey) is appended to the log, and the oracle answers it by its position. |
| Services.ScheduleOf | src/main/java/com/lenarsharipov/weather_api/service/impl/WeatherServicePolling.java:44-52 | Each null polling field falls back to its default (period 5, delay 0, SECONDS); a present one is kept. |
| Services.WeatherService.constructor | src/main/java/com/lenarsharipov/weather_api/service/AbstractWeatherService.java:31-40 | A new service is active with an empty new cache. The capacity comes from the settings (10 if null), the freshness period is the setting or 10, and a polling service gets its schedule and a running scheduler. |
| Services.WeatherService.Shutdown | src/main/java/com/lenarsharipov/weather_api/service/AbstractWeatherService.java:46-49 | Afterwards the service is inactive, the cache is empty and the scheduler is stopped; repeating it keeps that state. |
| Services.WeatherService.FetchWeather | src/main/java/com/lenarsharipov/weather_api/service/impl/WeatherServicePolling.java:76-78 | One request for the location with the service's own key. |
| Services.WeatherService.GetWeather | src/main/java/com/lenarsharipov/weather_api/service/AbstractWeatherService.java:58-71 | Cases: (1) inactive: ServiceShutDown, no fetch, cache unchanged. (2) fresh cached entry: returned with no fetch. (3) otherwise exactly one fetch; an HttpException or other exception propagates with the cache unchanged, and a response is put into the cache and returned (a null one is refused). A success always leaves the answer cached under the location. |
| Services.WeatherService.UpdateLocation | src/main/java/com/lenarsharipov/weather_api/service/impl/WeatherServicePolling.java:101-112 | The loop body for one cached location has exactly the effect `RefreshLocation` specifies on the entries, the request log and the escaping exception. |
| Services.WeatherService.UpdateLocationsWeather | src/main/java/com/lenarsharipov/weather_api/service/impl/WeatherServicePolling.java:99-113 | The pass equals `RefreshAll` over the order in which it visited the locations. It visits distinct cached locations, and every one of them when no exception escapes. |
| Services.WeatherService.Tick | src/main/java/com/lenarsharipov/weather_api/service/impl/WeatherServicePolling.java:84-93 | On an inactive service: no fetch and no change. Otherwise one pass, equal to `RefreshAll` over the locations visited: if no exception escapes, every cached location was visited once and the service stays active with the same cached locations; if one escapes, the service is shut down (inactive, empty cache, scheduler stopped). It never reactivates. |
| Services.WeatherService.RunScheduler | src/main/java/com/lenarsharipov/weather_api/service/impl/WeatherServicePolling.java:83-94 | Repeated ticks never reactivate a service and never change the cached locations while it stays active; a stopped service ends with an empty cache. |
| PollingRefresh.RefreshLocation | src/main/java/com/lenarsharipov/weather_api/service/impl/WeatherServicePolling.java:101-112 | The loop body for one location as a function of the cache entries and the request log: fetch; fetch again when null or stale and store the second answer; an HttpException ends the location quietly, anything else escapes. The lemmas below state its effects. |
| PollingRefresh.RefreshAll | src/main/java/com/lenarsharipov/weather_api/service/impl/WeatherServicePolling.java:99-113 | The loop over the locations in a given order, stopping at the first escaping exception. |
| PollingRefresh.FreshAnswerKeepsEntry | src/main/java/com/lenarsharipov/weather_api/service/impl/WeatherServicePolling.java:103-107 | A location whose first answer is fresh costs one request and keeps its entry untouched. |
| PollingRefresh.StaleAnswerIsReplaced | src/main/java/com/lenarsharipov/weather_api/service/impl/WeatherServicePolling.java:103-107 | A null or stale first answer leads to a second request, and a non-null second answer replaces the entry. |
| PollingRefresh.RefreshLocationKeepsKeys | src/main/java/com/lenarsharipov/weather_api/service/impl/WeatherServicePolling.java:99-108 | Refreshing a cached location never adds or removes a key. |
| PollingRefresh.RefreshAllKeepsKeys | src/main/java/com/lenarsharipov/weather_api/service/impl/WeatherServicePolling.java:99-113 | A pass over cached locations leaves the key set and the size unchanged, so it never evicts. |
| PollingRefresh.RefreshAllLeavesOthers | src/main/java/com/lenarsharipov/weather_api/service/impl/WeatherServicePolling.java:99-113 | Entries of locations the pass does not visit are untouched. |
| PollingRefresh.RefreshAllRequests | src/main/java/com/lenarsharipov/weather_api/service/impl/WeatherServicePolling.java:99-113 | A pass keeps the earlier log and adds at most 2·|order| requests in total, and at least |order| when nothing escapes. Every new request is for a visited location with the service's key. |
| PollingRefresh.RefreshedValuesComeFromTheApi | src/main/java/com/lenarsharipov/weather_api/service/impl/WeatherServicePolling.java:99-113 | Every cached value after a pass is either the value before it, or the API's answer to a request for that very location made during the pass. |
| PollingRefresh.HttpFailuresAreSwallowed | src/main/java/com/lenarsharipov/weather_api/service/impl/WeatherServicePolling.java:101-112 | If every request fails with an HttpException, the pass makes one request per location, stores nothing and ends normally. |
| PollingRefresh.HttpFailureSkipsLocation | src/main/java/com/lenarsharipov/weather_api/service/impl/WeatherServicePolling.java:103-111 | An HttpException on the first request of a location costs one request, stores nothing and lets nothing escape. |
| PollingRefresh.RefreshLocationEscape | src/main/java/com/lenarsharipov/weather_api/service/impl/WeatherServicePolling.java:101-112 | Refreshing one location makes at least one request; an exception escapes only when the last request was answered by an unchecked exception or by a null second answer, and the escape reports that answer. |
| PollingRefresh.EscapeNeedsCrashOrNull | src/main/java/com/lenarsharipov/weather_api/service/impl/WeatherServicePolling.java:99-113 | A pass stops early only when its last request was answered by an unchecked exception or by a null second answer; an HttpException never stops it. |
| Registry.IsBlank | src/main/java/com/lenarsharipov/weather_api/WeatherServiceFactory.java:77 | `String.isBlank`: empty or white space only, with `Character.isWhitespace`'s set of white-space characters. |
| Registry.WeatherServiceFactory.GetWeatherService | src/main/java/com/lenarsharipov/weather_api/WeatherServiceFactory.java:74-87 | In order: (1) a null or blank key, or a null mode, gives IllegalArgs; (2) a registered key gives ServiceExists; (3) invalid settings give InvalidSettings with the validator's message. Each refusal leaves the registry unchanged. Otherwise a new active service of that mode, built from the settings, is registered under the key and returned. |
| Registry.WeatherServiceFactory.GetWeatherServiceWithDefaults | src/main/java/com/lenarsharipov/weather_api/WeatherServiceFactory.java:53-56 | Same refusals for arguments and taken keys; otherwise a new service with freshness 10, capacity 10 and schedule (0, 5, SECONDS) is registered. |
| Registry.WeatherServiceFactory.RemoveWeatherService | src/main/java/com/lenarsharipov/weather_api/WeatherServiceFactory.java:97-104 | An unknown key gives ServiceNotFound and leaves the registry unchanged. A known key is unregistered and its service shut down: inactive, with an empty cache. |
| Scenarios.SingleCharacterKey | src/main/java/com/lenarsharipov/weather_api/datastructure/Cache.java:87-89 | A one-character key that is neither blank nor lower case is its own slot. |
| Scenarios.NewYorkSlot | src/test/java/com/lenarsharipov/weather_api/datastructure/CacheTest.java:141-151 | "  New York  " and "NEW YORK" normalise to the same key, "NEW YORK". |
| Scenarios.PaddedKeyFoundInCapitals | src/test/java/com/lenarsharipov/weather_api/datastructure/CacheTest.java:141-151 | A response put under "  New York  " is found by `get("NEW YORK")`, and "NEW YORK" is the only location. |
| Scenarios.FillingTwoSlots | src/main/java/com/lenarsharipov/weather_api/datastructure/Cache.java:47-53 | An illustration of `put` below capacity: two new keys put into an empty cache of capacity 2 are both kept with their values. |
| Scenarios.ThirdKeyEvictsOldest | src/main/java/com/lenarsharipov/weather_api/datastructure/Cache.java:49-52 | An illustration of eviction: a third key put into the full cache evicts the entry with the smaller `dt` and keeps the other. |
| Scenarios.EvictionScenario | src/main/java/com/lenarsharipov/weather_api/datastructure/Cache.java:47-63 | An illustration of eviction by `dt` rather than by insertion order: with capacity 2, after putting a (dt 100), b (dt 200) and c (dt 150), the locations are {b, c}, `get(a)` is null and the size is 2. |
| Scenarios.FreshAnswerServedFromCache | src/main/java/com/lenarsharipov/weather_api/service/AbstractWeatherService.java:64-70 | Two `getWeather` calls a minute apart, with default settings, fetch once and return the same response. |
| Scenarios.RemovedServiceRefusesRequests | src/test/java/com/lenarsharipov/weather_api/WeatherServiceFactoryTest.java:63-73 | After removal, removing again gives ServiceNotFound and the removed service answers ServiceShutDown. |
| Scenarios.ReRegistrationGivesNewInstance | src/test/java/com/lenarsharipov/weather_api/WeatherServiceFactoryTest.java:75-85 | After removal, the same key registers a new, distinct, active service. |
| Scenarios.IllegalArgumentsRefused | src/test/java/com/lenarsharipov/weather_api/WeatherServiceFactoryTest.java:99-117 | A null key, a blank key and a null mode are each refused with IllegalArgs, and nothing is registered. |

## Where the documentation and the code differ

The model follows the code in each case:

- **Eviction.** The class comment of `Cache.java` (lines 13-15) calls the eviction LRU. The code removes the entry with the smallest data timestamp `dt`, whatever the access order. The model evicts by `dt`.
- **Freshness unit.** The builder's comment (`Settings.java`, line 35) gives the freshness period in seconds. `isDataFresh` compares whole minutes against it. The model counts the period in minutes, as the comparison does.
- **Rounding.** `Duration.toMinutes` rounds toward zero; Dafny's `/` does not. The model writes the truncation out (`TruncatedMinutes`). It proves that this agrees with flooring whenever the period is positive, which validation guarantees. It also proves that the two disagree at period 0 (`TruncationDiffersFromFloorAtZeroPeriod`).
- **Double fetch.** Each polling pass fetches every location once. When that answer is null or stale it fetches a second time and stores only the second answer, even if the second is also stale. The model keeps both requests and stores the second answer as written.
- **Null responses.** A null response reaching `cache.put` is refused by `ConcurrentHashMap` with a `NullPointerException`. This happens after any eviction. In `getWeather` the exception reaches the caller (`NullResponse`). In a polling pass it is not an `HttpException`, so it shuts the service down.

## Left out

- HTTP, URL encoding and JSON decoding are not modelled. `WeatherHttpClient.getWeather` is an oracle: a fixed function of the request and its position in the client's log. It yields a response (possibly null), an `HttpException`, or an unchecked exception.
- Concurrency is not modelled. Every operation is a sequential call:
  - `ConcurrentHashMap` and `AtomicBoolean` are not modelled.
  - The scheduler thread is modelled as `Tick` and `RunScheduler`.
  - The weakly consistent key-set view iterated by the pass is a snapshot taken at its start.
- The clock is not modelled: `Instant.now()` is the parameter `now`, in whole epoch seconds. One pass uses one reading of `now` for all its locations.
- The iteration order of the cache's map is not modelled. The pass visits the locations in an arbitrary order, named by the ghost `visited`. Ties on `dt` in the min-scan are resolved by an arbitrary order too, chosen independently of the pass's.
- Logging (slf4j) is not modelled.
- The weather model records (coordinates, temperatures and the like) are not modelled. A response is its `dt` plus an opaque payload.
- `LocationCache.NormalizeLocation`: `toUpperCase` is modelled on the ASCII letters only, and `trim` strips characters up to U+0020. `toUpperCase()` uses the default locale; the model assumes a locale without special casing rules for ASCII letters. Under a Turkish or Azeri locale Java maps 'i' to 'İ' (U+0130), while the model maps it to 'I'. Upper-casing outside ASCII is not modelled.
- Java's 32-bit `Integer` and 64-bit `long` are not modelled: sizes, periods, `dt` and `now` are unbounded integers, so overflow is not captured.
- A null location passed to `get`/`put`, and a null key passed to `removeWeatherService`, are not modelled; in the source both throw `NullPointerException`.
- `Services.WeatherService.constructor` requires a non-null cache record, and a polling record for a polling service. In the source a null one throws a `NullPointerException`. It also requires a positive polling period when one is given: `scheduleAtFixedRate` throws `IllegalArgumentException` for a period <= 0. The model has no failing construction. The factory only builds services from validated settings, which always satisfy all three.
- The legacy classes `service/WeatherServicePolling.java`, `service/WeatherServiceOnDemand.java` and `mode/ApiMode.java` are not modelled. They no longer compile against the rest of the code.
- The mode is a two-valued `ApiMode`. `impl/WeatherServiceOnDemand.java` only delegates `fetchWeather` to the client, which `Services.WeatherService.FetchWeather` covers for both modes.
- The static registry and the static HTTP client of `WeatherServiceFactory` are fields of one factory object.
- `Main.java`, `Stoppable.java`, `TriFunction.java` and the exception classes are not modelled, except as the error datatypes `ServiceError` and `FactoryError`.
