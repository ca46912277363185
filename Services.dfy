/**
 * The weather service: the shared behaviour of both modes (an active flag that
 * only ever goes from true to false, the cache-or-fetch `getWeather`, and a
 * shutdown that clears the cache) and the polling mode's scheduled pass over
 * the cached locations. The clock is the parameter `now` (epoch seconds);
 * the scheduler is the caller invoking `Tick`.
 */
module Services {
  import opened Wrappers
  import opened Weather
  import opened Scheduling
  import opened ServiceSettings
  import opened LocationCache
  import opened WeatherHttp
  import opened PollingRefresh
  import Freshness

  /** ApiMode: which kind of service the factory builds. */
  datatype ApiMode = Polling | OnDemand

  /** The fixed-rate schedule of a polling service: each null setting replaced by its fallback. */
  function ScheduleOf(polling: PollingSettings): (schedule: Schedule)
    ensures polling.initialDelay.Some? ==> schedule.initialDelay == polling.initialDelay.value
    ensures polling.initialDelay.None? ==> schedule.initialDelay == DEFAULT_POLLING_INITIAL_DELAY
    ensures polling.period.Some? ==> schedule.period == polling.period.value
    ensures polling.period.None? ==> schedule.period == DEFAULT_POLLING_PERIOD
    ensures polling.unit.Some? ==> schedule.unit == polling.unit.value
    ensures polling.unit.None? ==> schedule.unit == DEFAULT_POLLING_TIME_UNIT
  {
    Schedule(
      polling.initialDelay.GetOr(DEFAULT_POLLING_INITIAL_DELAY),
      polling.period.GetOr(DEFAULT_POLLING_PERIOD),
      polling.unit.GetOr(DEFAULT_POLLING_TIME_UNIT))
  }

  class WeatherService {
    /** Whether the service still answers; once false it stays false. */
    var isActive: bool
    const apiKey: string
    const httpClient: WeatherHttpClient
    const cache: Cache
    /** Minutes during which a cached response is served without a fetch. */
    const dataFreshnessPeriod: int
    const mode: ApiMode
    /** The polling schedule; only a polling service has one. */
    const schedule: Option<Schedule>
    /** Whether the polling scheduler still fires ticks (it is stopped on shutdown). */
    var schedulerRunning: bool

    ghost predicate Valid()
      reads this, cache
    {
      && cache.Valid()
      && (schedule.Some? <==> mode == Polling)
      && (schedulerRunning <==> mode == Polling && isActive)
      && (!isActive ==> cache.entries == map[])
    }

    /**
     * A new, active service with an empty cache; null settings fields take
     * their defaults. A polling service starts its scheduler.
     */
    constructor (apiKey: string, httpClient: WeatherHttpClient, settings: Settings, mode: ApiMode)
      requires settings.cache.Some?
      requires mode == Polling ==> settings.polling.Some?
      requires mode == Polling ==> settings.polling.value.period.None? || settings.polling.value.period.value > 0
      ensures Valid() && isActive && fresh(cache) && cache.entries == map[]
      ensures this.apiKey == apiKey && this.httpClient == httpClient && this.mode == mode
      ensures cache.cacheSize == settings.cache.value.size.GetOr(DEFAULT_CACHE_SIZE)
      ensures dataFreshnessPeriod == settings.dataFreshnessPeriod.GetOr(Freshness.DEFAULT_DATA_FRESHNESS_PERIOD)
      ensures schedule == if mode == Polling then Some(ScheduleOf(settings.polling.value)) else None
    {
      this.apiKey := apiKey;
      this.httpClient := httpClient;
      cache := new Cache(settings.cache.value.size);
      dataFreshnessPeriod := settings.dataFreshnessPeriod.GetOr(Freshness.DEFAULT_DATA_FRESHNESS_PERIOD);
      this.mode := mode;
      schedule := if mode == Polling then Some(ScheduleOf(settings.polling.value)) else None;
      isActive := true;
      schedulerRunning := mode == Polling;
    }

    /** Stops the service for good: inactive, cache emptied, scheduler stopped. */
    method Shutdown()
      requires Valid()
      modifies this, cache
      ensures Valid() && !isActive && !schedulerRunning && cache.entries == map[]
    {
      isActive := false;
      cache.Clear();
      if mode == Polling {
        schedulerRunning := false;
      }
    }

    /** fetchWeather: one request to the client for this location with the service's key. */
    method FetchWeather(location: string) returns (outcome: FetchOutcome)
      modifies httpClient
      ensures httpClient.requests == old(httpClient.requests) + [Request(location, apiKey)]
      ensures outcome == httpClient.remote(Request(location, apiKey), |old(httpClient.requests)|)
    {
      outcome := httpClient.GetWeather(location, apiKey);
    }

    /**
     * getWeather: refuses when shut down; serves a fresh cached response
     * without fetching; otherwise fetches once and stores the answer under
     * the location. Exceptions of the fetch propagate and store nothing; a
     * null answer reaches the cache, which refuses it (after any eviction).
     */
    method GetWeather(location: string, now: int) returns (r: Result<WeatherResponse, ServiceError>)
      requires Valid()
      modifies cache, httpClient
      ensures Valid()
      ensures !isActive ==>
                r == Failure(ServiceShutDown)
                && httpClient.requests == old(httpClient.requests) && cache.entries == old(cache.entries)
      ensures isActive && old(cache.Get(location)).Some?
              && Freshness.IsDataFresh(old(cache.Get(location)).value.dt, dataFreshnessPeriod, now) ==>
                r == Success(old(cache.Get(location)).value)
                && httpClient.requests == old(httpClient.requests) && cache.entries == old(cache.entries)
      ensures isActive && !IsFreshAnswer(old(cache.Get(location)), dataFreshnessPeriod, now) ==>
                var answer := httpClient.remote(Request(location, apiKey), |old(httpClient.requests)|);
                && httpClient.requests == old(httpClient.requests) + [Request(location, apiKey)]
                && (answer.Failed? ==> r == Failure(Http(answer.exception)) && cache.entries == old(cache.entries))
                && (answer.Crashed? ==> r == Failure(Unchecked(answer.message)) && cache.entries == old(cache.entries))
                && (answer.Fetched? ==>
                      PutOutcome(old(cache.entries), cache.entries, cache.cacheSize, location, answer.response)
                      && r == if answer.response.Some? then Success(answer.response.value) else Failure(NullResponse))
      ensures r.Success? ==> cache.Get(location) == Some(r.value)
    {
      if !isActive {
        return Failure(ServiceShutDown);
      }
      var cached := cache.Get(location);
      if cached.Some? && Freshness.IsDataFresh(cached.value.dt, dataFreshnessPeriod, now) {
        return Success(cached.value);
      }
      var answer := FetchWeather(location);
      match answer
      case Failed(e) =>
        r := Failure(Http(e));
      case Crashed(message) =>
        r := Failure(Unchecked(message));
      case Fetched(response) =>
        var stored := cache.Put(location, response);
        r := if stored then Success(response.value) else Failure(NullResponse);
    }

    /**
     * The body of the loop for one cached location (the try block of
     * updateLocationsWeather and its HttpException handler): follows
     * RefreshLocation, and reports an exception that escapes.
     */
    method UpdateLocation(location: string, now: int) returns (escaped: Option<ServiceError>)
      requires cache.Valid() && location in cache.entries
      modifies cache, httpClient
      ensures cache.Valid()
      ensures (PollState(cache.entries, httpClient.requests), escaped)
              == RefreshLocation(PollState(old(cache.entries), old(httpClient.requests)), location, apiKey,
                                 dataFreshnessPeriod, now, httpClient.remote)
    {
      var first := httpClient.GetWeather(location, apiKey);
      match first
      case Failed(_) =>
        escaped := None;
      case Crashed(message) =>
        escaped := Some(Unchecked(message));
      case Fetched(response) =>
        if response == None || !Freshness.IsDataFresh(response.value.dt, dataFreshnessPeriod, now) {
          var second := httpClient.GetWeather(location, apiKey);
          match second
          case Failed(_) =>
            escaped := None;
          case Crashed(message) =>
            escaped := Some(Unchecked(message));
          case Fetched(updated) =>
            ghost var held := cache.entries;
            var stored := cache.Put(location, updated);
            PutOfCachedKey(held, cache.entries, cache.cacheSize, location, updated);
            escaped := if stored then None else Some(NullResponse);
        } else {
          escaped := None;
        }
    }

    /**
     * updateLocationsWeather: visits every cached location once, in the
     * map's own order (`visited`), until an exception other than an
     * HttpException escapes.
     */
    method UpdateLocationsWeather(now: int) returns (escaped: Option<ServiceError>, ghost visited: seq<string>)
      requires cache.Valid()
      modifies cache, httpClient
      ensures cache.Valid()
      ensures (PollState(cache.entries, httpClient.requests), escaped)
              == RefreshAll(PollState(old(cache.entries), old(httpClient.requests)), visited, apiKey,
                            dataFreshnessPeriod, now, httpClient.remote)
      ensures forall i, j :: 0 <= i < j < |visited| ==> visited[i] != visited[j]
      ensures forall i :: 0 <= i < |visited| ==> visited[i] in old(cache.entries)
      ensures escaped.None? ==> forall k :: k in old(cache.entries) ==> k in visited
    {
      var locations := cache.Locations();
      var pending := locations;
      ghost var start := PollState(cache.entries, httpClient.requests);
      escaped := None;
      visited := [];
      while pending != {} && escaped.None?
        invariant cache.Valid() && cache.entries.Keys == locations == start.entries.Keys
        invariant pending <= locations
        invariant forall i :: 0 <= i < |visited| ==> visited[i] in locations && visited[i] !in pending
        invariant forall i, j :: 0 <= i < j < |visited| ==> visited[i] != visited[j]
        invariant escaped.None? ==> forall k :: k in locations ==> k in pending || k in visited
        invariant (PollState(cache.entries, httpClient.requests), escaped)
                  == RefreshAll(start, visited, apiKey, dataFreshnessPeriod, now, httpClient.remote)
        decreases pending
      {
        var location :| location in pending;
        pending := pending - {location};
        ghost var before := PollState(cache.entries, httpClient.requests);
        escaped := UpdateLocation(location, now);
        RefreshLocationKeepsKeys(before, location, apiKey, dataFreshnessPeriod, now, httpClient.remote);
        visited := visited + [location];
      }
    }

    /**
     * One firing of the polling scheduler: nothing when the service is shut
     * down; otherwise a pass over the cached locations, and a shutdown when
     * an exception escapes the pass.
     */
    method Tick(now: int) returns (ghost visited: seq<string>)
      requires Valid() && mode == Polling
      modifies this, cache, httpClient
      ensures Valid()
      ensures isActive ==> old(isActive)
      ensures !old(isActive) ==>
                !isActive && cache.entries == old(cache.entries) && httpClient.requests == old(httpClient.requests)
      ensures old(isActive) ==>
                var (pass, escaped) := RefreshAll(PollState(old(cache.entries), old(httpClient.requests)), visited, apiKey,
                                                  dataFreshnessPeriod, now, httpClient.remote);
                && httpClient.requests == pass.requests
                && (escaped.None? ==> isActive && cache.entries == pass.entries
                                      && cache.entries.Keys == old(cache.entries.Keys))
                && (escaped.Some? ==> !isActive && !schedulerRunning && cache.entries == map[])
      ensures forall i, j :: 0 <= i < j < |visited| ==> visited[i] != visited[j]
      ensures forall i :: 0 <= i < |visited| ==> visited[i] in old(cache.entries)
      ensures old(isActive) && isActive ==> forall k :: k in old(cache.entries) ==> k in visited
    {
      visited := [];
      if !isActive {
        return;
      }
      var escaped;
      ghost var start := PollState(cache.entries, httpClient.requests);
      escaped, visited := UpdateLocationsWeather(now);
      RefreshAllKeepsKeys(start, visited, apiKey, dataFreshnessPeriod, now, httpClient.remote);
      if escaped.Some? {
        Shutdown();
      }
    }

    /**
     * The fixed-rate scheduler: fires the tick at each of the given clock
     * readings in turn, for as long as it has not been stopped.
     */
    method RunScheduler(times: seq<int>)
      requires Valid() && mode == Polling
      modifies this, cache, httpClient
      ensures Valid()
      ensures isActive ==> old(isActive)
      ensures isActive ==> cache.entries.Keys == old(cache.entries.Keys)
      ensures !isActive ==> cache.entries == map[] && !schedulerRunning
    {
      var i := 0;
      while i < |times| && schedulerRunning
        invariant 0 <= i <= |times|
        invariant Valid()
        invariant isActive ==> old(isActive)
        invariant isActive ==> cache.entries.Keys == old(cache.entries.Keys)
      {
        ghost var visited := Tick(times[i]);
        i := i + 1;
      }
    }
  }
}
