/** Whole-object scenarios in the shape of the repository's unit tests, proved for every input they leave open. */
module Scenarios {
  import opened Wrappers
  import opened Weather
  import opened LocationCache
  import opened WeatherHttp
  import opened ServiceSettings
  import opened Services
  import opened Registry
  import Freshness

  /** A one-character key that is neither blank nor lower case is its own slot. */
  lemma SingleCharacterKey(c: char)
    requires !IsTrimmable(c) && !IsLowerCase(c)
    ensures NormalizeLocation([c]) == [c]
  {
    TrimSingle(c);
    UpperSingle(c);
  }

  lemma TrimSingle(c: char)
    requires !IsTrimmable(c)
    ensures Trim([c]) == [c]
  {
    assert TrimStart([c]) == [c];
  }

  lemma UpperSingle(c: char)
    requires !IsLowerCase(c)
    ensures ToUpper([c]) == [c]
  {
    assert [c][1..] == [];
  }

  /** Upper-casing `s` gives `t` when it does so character by character. */
  lemma UpperByCharacters(s: string, t: string)
    requires |s| == |t| && forall i :: 0 <= i < |s| ==> UpperChar(s[i]) == t[i]
    ensures ToUpper(s) == t
  {
    ToUpperAt(s);
  }

  lemma CityUpperCased()
    ensures ToUpper("New York") == "NEW YORK"
  {
    var city, upper := "New York", "NEW YORK";
    assert forall i :: 0 <= i < |city| ==> UpperChar(city[i]) == upper[i];
    UpperByCharacters(city, upper);
  }

  /** The mixed-case spelling with nothing to trim lands in the slot "NEW YORK". */
  lemma CitySlot()
    ensures NormalizeLocation("New York") == "NEW YORK"
  {
    TrimOfTrimmed("New York");
    CityUpperCased();
  }

  /** The padded, mixed-case spelling lands in the same slot. */
  lemma PaddedNewYorkSlot()
    ensures NormalizeLocation("  New York  ") == "NEW YORK"
  {
    assert "  " + "New York" + "  " == "  New York  ";
    NormalizeIgnoresPadding("  ", "New York", "  ");
    CitySlot();
  }

  /** The capitalised spelling is its own slot. */
  lemma UpperNewYorkSlot()
    ensures NormalizeLocation("NEW YORK") == "NEW YORK"
  {
    CityUpperCased();
    NormalizeIgnoresCase("New York");
    CitySlot();
  }

  /** "  New York  " and "NEW YORK" share a slot, and that slot is "NEW YORK". */
  lemma NewYorkSlot()
    ensures NormalizeLocation("  New York  ") == NormalizeLocation("NEW YORK") == "NEW YORK"
  {
    PaddedNewYorkSlot();
    UpperNewYorkSlot();
  }

  /** A response stored under "  New York  " is found under "NEW YORK", and "NEW YORK" is the only location listed. */
  method PaddedKeyFoundInCapitals(v: WeatherResponse) returns (found: Option<WeatherResponse>, locations: set<string>)
    ensures found == Some(v) && locations == {"NEW YORK"}
  {
    var cache := new Cache(None);
    var stored := cache.Put("  New York  ", Some(v));
    NewYorkSlot();
    found := cache.Get("NEW YORK");
    locations := cache.Locations();
  }

  /** Two puts of different new keys into an empty cache of capacity 2 keep both. */
  lemma FillingTwoSlots(a: string, b: string, first: map<string, WeatherResponse>, second: map<string, WeatherResponse>)
    requires IsNormalized(a) && IsNormalized(b) && a != b
    requires PutOutcome(map[], first, 2, a, Some(WeatherResponse(100, 1)))
    requires PutOutcome(first, second, 2, b, Some(WeatherResponse(200, 2)))
    ensures second == map[a := WeatherResponse(100, 1), b := WeatherResponse(200, 2)]
  {
    PutUnderOwnKey(map[], first, 2, a, Some(WeatherResponse(100, 1)));
    PutUnderOwnKey(first, second, 2, b, Some(WeatherResponse(200, 2)));
  }

  /** A third key evicts the entry with the smaller `dt`, the first one, and keeps the second. */
  lemma ThirdKeyEvictsOldest(a: string, b: string, c: string,
                             before: map<string, WeatherResponse>, after: map<string, WeatherResponse>)
    requires IsNormalized(c) && a != b && c != a && c != b
    requires before == map[a := WeatherResponse(100, 1), b := WeatherResponse(200, 2)]
    requires PutOutcome(before, after, 2, c, Some(WeatherResponse(150, 3)))
    ensures after == map[b := WeatherResponse(200, 2), c := WeatherResponse(150, 3)]
  {
    assert before.Keys == {a, b};
    PutUnderOwnKey(before, after, 2, c, Some(WeatherResponse(150, 3)));
    OlderOfTwoEvicted(a, b, c, before, after);
  }

  lemma OlderOfTwoEvicted(a: string, b: string, c: string,
                          before: map<string, WeatherResponse>, after: map<string, WeatherResponse>)
    requires a != b && c != a && c != b
    requires before == map[a := WeatherResponse(100, 1), b := WeatherResponse(200, 2)]
    requires exists e :: IsOldest(before, e) && after == Insert(before - {e}, c, Some(WeatherResponse(150, 3)))
    ensures after == map[b := WeatherResponse(200, 2), c := WeatherResponse(150, 3)]
  {
    var e :| IsOldest(before, e) && after == Insert(before - {e}, c, Some(WeatherResponse(150, 3)));
    assert e == a by {
      assert before[b].dt > before[a].dt;
    }
  }

  /** A key that has the shape of a cache key and is absent is not found. */
  lemma AbsentKey(k: string, m: map<string, WeatherResponse>)
    requires IsNormalized(k) && k !in m
    ensures NormalizeLocation(k) !in m
  {
    NormalizedIffFixedPoint(k);
  }

  /**
   * A cache of capacity 2 holding a (dt 100) and b (dt 200) evicts a, the
   * older, when c (dt 150) arrives: b and c remain.
   */
  method EvictionScenario(a: string, b: string, c: string) returns (locations: set<string>, found: Option<WeatherResponse>, size: nat)
    requires IsNormalized(a) && IsNormalized(b) && IsNormalized(c)
    requires a != b && b != c && c != a
    ensures locations == {b, c} && found == None && size == 2
  {
    var cache := new Cache(Some(2));
    var stored := cache.Put(a, Some(WeatherResponse(100, 1)));
    ghost var first := cache.entries;
    stored := cache.Put(b, Some(WeatherResponse(200, 2)));
    FillingTwoSlots(a, b, first, cache.entries);
    ghost var second := cache.entries;
    stored := cache.Put(c, Some(WeatherResponse(150, 3)));
    ThirdKeyEvictsOldest(a, b, c, second, cache.entries);
    locations := cache.Locations();
    AbsentKey(a, cache.entries);
    found := cache.Get(a);
    size := cache.Size();
  }

  /**
   * An on-demand service with the default settings asked for a location, and
   * asked again a minute later, fetches once and serves the cached answer the
   * second time: one request, the same response.
   */
  method FreshAnswerServedFromCache(now: int) returns (first: Result<WeatherResponse, ServiceError>,
                                                       second: Result<WeatherResponse, ServiceError>,
                                                       fetches: nat)
    ensures first.Success? && second == first && fetches == 1
  {
    var response := WeatherResponse(now, 7);
    var client := new WeatherHttpClient((request: Request, n: nat) => Fetched(Some(response)));
    var service := new WeatherService("apiKey", client, DefaultSettings(), OnDemand);
    first := service.GetWeather("Saint Petersburg", now);
    Freshness.FreshIffYoungerThanPeriod(now, service.dataFreshnessPeriod, now + 60);
    second := service.GetWeather("Saint Petersburg", now + 60);
    fetches := |client.requests|;
  }

  lemma KeyIsNotBlank()
    ensures !IsBlank("apiKey")
  {
    assert !IsWhitespace("apiKey"[0]);
  }

  lemma SpacesAreBlank()
    ensures IsBlank("   ")
  {
  }

  /**
   * Removing a registered service shuts it down: removing it again is refused
   * and the removed instance refuses requests.
   */
  method RemovedServiceRefusesRequests(remote: Remote, now: int)
    returns (again: Outcome<FactoryError>, answer: Result<WeatherResponse, ServiceError>)
    ensures again == Fail(ServiceNotFound(ServiceNotFoundMessage("apiKey")))
    ensures answer == Failure(ServiceShutDown)
  {
    var client := new WeatherHttpClient(remote);
    var factory := new WeatherServiceFactory(client);
    KeyIsNotBlank();
    var registered := factory.GetWeatherServiceWithDefaults(Some("apiKey"), Some(Polling));
    var service := registered.value;
    var removed := factory.RemoveWeatherService("apiKey");
    again := factory.RemoveWeatherService("apiKey");
    answer := service.GetWeather("location", now);
  }

  /** After a removal the same key can be registered again, and the new service is a different instance. */
  method ReRegistrationGivesNewInstance(remote: Remote) returns (first: WeatherService, second: WeatherService)
    ensures first != second && second.isActive
  {
    var client := new WeatherHttpClient(remote);
    var factory := new WeatherServiceFactory(client);
    KeyIsNotBlank();
    var r1 := factory.GetWeatherServiceWithDefaults(Some("apiKey"), Some(OnDemand));
    first := r1.value;
    var removed := factory.RemoveWeatherService("apiKey");
    var r2 := factory.GetWeatherServiceWithDefaults(Some("apiKey"), Some(OnDemand));
    second := r2.value;
  }

  /** Null and blank keys and a null mode are refused before anything else, and nothing is registered. */
  method IllegalArgumentsRefused(remote: Remote)
    returns (nullKey: Result<WeatherService, FactoryError>, blankKey: Result<WeatherService, FactoryError>,
             nullMode: Result<WeatherService, FactoryError>, registered: nat)
    ensures nullKey == blankKey == nullMode == Failure(IllegalArgs(ILLEGAL_ARGS_MESSAGE)) && registered == 0
  {
    var client := new WeatherHttpClient(remote);
    var factory := new WeatherServiceFactory(client);
    nullKey := factory.GetWeatherServiceWithDefaults(None, Some(Polling));
    SpacesAreBlank();
    blankKey := factory.GetWeatherServiceWithDefaults(Some("   "), Some(Polling));
    nullMode := factory.GetWeatherServiceWithDefaults(Some("apiKey"), None);
    registered := |factory.services|;
  }
}
