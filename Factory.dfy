/**
 * WeatherServiceFactory: the registry of services by API key. Registration
 * checks its arguments, then that the key is free, then the settings, and
 * only then builds and records a service; removal unregisters a service and
 * shuts it down. The source keeps the registry and the HTTP client in static
 * fields; here they are the fields of one factory object.
 */
module Registry {
  import opened Wrappers
  import opened Scheduling
  import opened ServiceSettings
  import opened SettingsValidation
  import opened WeatherHttp
  import opened Services
  import LocationCache
  import Freshness

  /** Character.isWhitespace: the Unicode space separators other than the no-break ones, and the ASCII controls 9-13 and 28-31. */
  predicate IsWhitespace(c: char) {
    || '\U{9}' <= c <= '\U{D}'
    || '\U{1C}' <= c <= '\U{1F}'
    || c == ' '
    || c == '\U{1680}'
    || '\U{2000}' <= c <= '\U{2006}'
    || '\U{2008}' <= c <= '\U{200A}'
    || c == '\U{2028}' || c == '\U{2029}'
    || c == '\U{205F}'
    || c == '\U{3000}'
  }

  /** String.isBlank: empty, or white space only. */
  predicate IsBlank(s: string) {
    forall i :: 0 <= i < |s| ==> IsWhitespace(s[i])
  }

  /** The exceptions the factory throws, each with its message. */
  datatype FactoryError =
    | IllegalArgs(message: string)
    | ServiceExists(message: string)
    | InvalidSettings(message: string)
    | ServiceNotFound(message: string)

  const ILLEGAL_ARGS_MESSAGE: string := "Passed args cannot be null or empty"

  function ServiceExistsMessage(apiKey: string): string {
    "There is already a service for apiKey: " + apiKey
  }

  function ServiceNotFoundMessage(apiKey: string): string {
    "No service found for apiKey: " + apiKey
  }

  /** The arguments registration accepts before looking at the registry: a non-blank key and a mode. */
  predicate ArgsPresent(apiKey: Option<string>, mode: Option<ApiMode>) {
    apiKey.Some? && !IsBlank(apiKey.value) && mode.Some?
  }

  class WeatherServiceFactory {
    /** The registered services by API key. */
    var services: map<string, WeatherService>
    /** The one HTTP client every service is built with. */
    const httpClient: WeatherHttpClient

    /**
     * Every registered service is consistent, is registered under its own
     * key, uses the factory's client, and owns a cache no other one shares.
     */
    ghost predicate Valid()
      reads this, services.Values, set s | s in services.Values :: s.cache
    {
      && (forall k :: k in services ==>
            services[k].Valid() && services[k].apiKey == k && services[k].httpClient == httpClient)
      && (forall k, j :: k in services && j in services && k != j ==> services[k].cache != services[j].cache)
    }

    constructor (httpClient: WeatherHttpClient)
      ensures Valid() && services == map[] && this.httpClient == httpClient
    {
      services := map[];
      this.httpClient := httpClient;
    }

    /** The objects removing `apiKey` changes: its service and that service's cache. */
    ghost function RemovalFootprint(apiKey: string): set<object>
      reads this
    {
      if apiKey in services then {services[apiKey], services[apiKey].cache} else {}
    }

    /**
     * getWeatherService(apiKey, apiMode, settings): refuses missing or blank
     * arguments, then an API key already registered, then invalid settings;
     * otherwise builds a new active service of the mode and registers it.
     * Every refusal leaves the registry as it was.
     */
    method GetWeatherService(apiKey: Option<string>, mode: Option<ApiMode>, settings: Option<Settings>)
      returns (r: Result<WeatherService, FactoryError>)
      requires Valid()
      modifies this
      ensures Valid()
      ensures !ArgsPresent(apiKey, mode) ==>
                r == Failure(IllegalArgs(ILLEGAL_ARGS_MESSAGE)) && services == old(services)
      ensures ArgsPresent(apiKey, mode) && apiKey.value in old(services) ==>
                r == Failure(ServiceExists(ServiceExistsMessage(apiKey.value))) && services == old(services)
      ensures ArgsPresent(apiKey, mode) && apiKey.value !in old(services) && Validate(settings).Fail? ==>
                r == Failure(InvalidSettings(Validate(settings).error)) && services == old(services)
      ensures ArgsPresent(apiKey, mode) && apiKey.value !in old(services) && Validate(settings).Pass? ==>
                && r.Success? && fresh(r.value) && fresh(r.value.cache)
                && services == old(services)[apiKey.value := r.value]
                && r.value.isActive && r.value.apiKey == apiKey.value && r.value.mode == mode.value
                && r.value.httpClient == httpClient && r.value.cache.entries == map[]
                && r.value.dataFreshnessPeriod == settings.value.dataFreshnessPeriod.value
                && r.value.cache.cacheSize == settings.value.cache.value.size.value
                && (mode.value == Polling ==> r.value.schedule == Some(ScheduleOf(settings.value.polling.value)))
    {
      if apiKey.None? || IsBlank(apiKey.value) || mode.None? {
        return Failure(IllegalArgs(ILLEGAL_ARGS_MESSAGE));
      }
      var key := apiKey.value;
      if key in services {
        return Failure(ServiceExists(ServiceExistsMessage(key)));
      }
      var validation := Validate(settings);
      if validation.Fail? {
        return Failure(InvalidSettings(validation.error));
      }
      var service := new WeatherService(key, httpClient, settings.value, mode.value);
      services := services[key := service];
      r := Success(service);
    }

    /**
     * getWeatherService(apiKey, apiMode): registration with the settings of a
     * fresh builder, which always pass validation.
     */
    method GetWeatherServiceWithDefaults(apiKey: Option<string>, mode: Option<ApiMode>)
      returns (r: Result<WeatherService, FactoryError>)
      requires Valid()
      modifies this
      ensures Valid()
      ensures !ArgsPresent(apiKey, mode) ==>
                r == Failure(IllegalArgs(ILLEGAL_ARGS_MESSAGE)) && services == old(services)
      ensures ArgsPresent(apiKey, mode) && apiKey.value in old(services) ==>
                r == Failure(ServiceExists(ServiceExistsMessage(apiKey.value))) && services == old(services)
      ensures ArgsPresent(apiKey, mode) && apiKey.value !in old(services) ==>
                && r.Success? && fresh(r.value) && fresh(r.value.cache)
                && services == old(services)[apiKey.value := r.value]
                && r.value.isActive && r.value.apiKey == apiKey.value && r.value.mode == mode.value
                && r.value.dataFreshnessPeriod == Freshness.DEFAULT_DATA_FRESHNESS_PERIOD
                && r.value.cache.cacheSize == LocationCache.DEFAULT_CACHE_SIZE
                && (mode.value == Polling ==>
                      r.value.schedule == Some(Schedule(DEFAULT_POLLING_INITIAL_DELAY, DEFAULT_POLLING_PERIOD,
                                                        DEFAULT_POLLING_TIME_UNIT)))
    {
      var builder := new SettingsBuilder();
      var defaults := builder.Build();
      DefaultSettingsAreValid();
      r := GetWeatherService(apiKey, mode, Some(defaults));
    }

    /**
     * removeWeatherService: unregisters the service of the key and shuts it
     * down; an unknown key is refused and the registry stays as it was.
     */
    method RemoveWeatherService(apiKey: string) returns (r: Outcome<FactoryError>)
      requires Valid()
      modifies this, RemovalFootprint(apiKey)
      ensures Valid()
      ensures apiKey !in old(services) ==>
                r == Fail(ServiceNotFound(ServiceNotFoundMessage(apiKey))) && services == old(services)
      ensures apiKey in old(services) ==>
                && r == Pass && services == old(services) - {apiKey}
                && old(services)[apiKey].Valid()
                && !old(services)[apiKey].isActive && old(services)[apiKey].cache.entries == map[]
    {
      if apiKey !in services {
        return Fail(ServiceNotFound(ServiceNotFoundMessage(apiKey)));
      }
      var service := services[apiKey];
      services := services - {apiKey};
      service.Shutdown();
      r := Pass;
    }
  }
}
