/**
 * What one polling pass (updateLocationsWeather) does to the cache entries and
 * to the client's request log, as functions of the order in which the
 * locations are visited. The polling service's loop is proved to follow these
 * functions; the lemmas here state what a pass can and cannot change.
 */
module PollingRefresh {
  import opened Wrappers
  import opened Weather
  import opened WeatherHttp
  import Freshness

  /** The part of the world a pass changes: the cache entries and the requests made through the client. */
  datatype PollState = PollState(entries: map<string, WeatherResponse>, requests: seq<Request>)

  /** One request through the client: logged, and answered by the remote according to its position. */
  function Fetch(s: PollState, location: string, apiKey: string, remote: Remote): (PollState, FetchOutcome) {
    var request := Request(location, apiKey);
    (s.(requests := s.requests + [request]), remote(request, |s.requests|))
  }

  /** A first answer that spares the second request: a non-null response that is still fresh. */
  predicate IsFreshAnswer(response: Option<WeatherResponse>, period: int, now: int) {
    response.Some? && Freshness.IsDataFresh(response.value.dt, period, now)
  }

  /**
   * The body of the loop for one location: fetch; when the answer is null or
   * stale fetch again and store the second answer. An HttpException ends the
   * location quietly; any other exception, including the one a null second
   * answer raises in the cache, escapes (the second component).
   */
  function RefreshLocation(s: PollState, location: string, apiKey: string, period: int, now: int, remote: Remote)
    : (PollState, Option<ServiceError>)
  {
    var (afterFirst, first) := Fetch(s, location, apiKey, remote);
    match first
    case Failed(_) => (afterFirst, None)
    case Crashed(message) => (afterFirst, Some(Unchecked(message)))
    case Fetched(response) =>
      if IsFreshAnswer(response, period, now) then (afterFirst, None)
      else
        var (afterSecond, second) := Fetch(afterFirst, location, apiKey, remote);
        match second
        case Failed(_) => (afterSecond, None)
        case Crashed(message) => (afterSecond, Some(Unchecked(message)))
        case Fetched(None) => (afterSecond, Some(NullResponse))
        case Fetched(Some(updated)) => (afterSecond.(entries := afterSecond.entries[location := updated]), None)
  }

  /** A pass over the locations in `order`, stopping at the first escaping exception. */
  function RefreshAll(s: PollState, order: seq<string>, apiKey: string, period: int, now: int, remote: Remote)
    : (PollState, Option<ServiceError>)
    decreases |order|
  {
    if order == [] then (s, None)
    else
      var (before, crash) := RefreshAll(s, order[..|order| - 1], apiKey, period, now, remote);
      if crash.Some? then (before, crash)
      else RefreshLocation(before, order[|order| - 1], apiKey, period, now, remote)
  }

  /** The requests a pass makes when every location needs exactly one. */
  function OneRequestEach(order: seq<string>, apiKey: string): (requests: seq<Request>)
    ensures |requests| == |order|
    ensures forall i :: 0 <= i < |order| ==> requests[i] == Request(order[i], apiKey)
  {
    if order == [] then [] else OneRequestEach(order[..|order| - 1], apiKey) + [Request(order[|order| - 1], apiKey)]
  }

  // ---------------------------------------------------------------------------
  // One location.
  // ---------------------------------------------------------------------------

  /** A location whose first answer is fresh keeps its entry: one request, nothing stored. */
  lemma FreshAnswerKeepsEntry(s: PollState, location: string, apiKey: string, period: int, now: int, remote: Remote)
    requires remote(Request(location, apiKey), |s.requests|).Fetched?
    requires IsFreshAnswer(remote(Request(location, apiKey), |s.requests|).response, period, now)
    ensures RefreshLocation(s, location, apiKey, period, now, remote)
            == (PollState(s.entries, s.requests + [Request(location, apiKey)]), None)
  {
  }

  /**
   * A location whose first answer is null or stale is fetched a second time,
   * and a non-null second answer replaces its entry.
   */
  lemma StaleAnswerIsReplaced(s: PollState, location: string, apiKey: string, period: int, now: int, remote: Remote,
                              updated: WeatherResponse)
    requires remote(Request(location, apiKey), |s.requests|).Fetched?
    requires !IsFreshAnswer(remote(Request(location, apiKey), |s.requests|).response, period, now)
    requires remote(Request(location, apiKey), |s.requests| + 1) == Fetched(Some(updated))
    ensures RefreshLocation(s, location, apiKey, period, now, remote)
            == (PollState(s.entries[location := updated], s.requests + [Request(location, apiKey), Request(location, apiKey)]), None)
  {
    var request := Request(location, apiKey);
    assert s.requests + [request] + [request] == s.requests + [request, request];
  }

  /** A present location keeps the cache's key set: a refresh overwrites, it never adds or removes. */
  lemma RefreshLocationKeepsKeys(s: PollState, location: string, apiKey: string, period: int, now: int, remote: Remote)
    requires location in s.entries
    ensures RefreshLocation(s, location, apiKey, period, now, remote).0.entries.Keys == s.entries.Keys
  {
  }

  /** An HttpException on the first request ends the location quietly: one request, nothing stored, nothing escapes. */
  lemma HttpFailureSkipsLocation(s: PollState, location: string, apiKey: string, period: int, now: int, remote: Remote)
    requires remote(Request(location, apiKey), |s.requests|).Failed?
    ensures RefreshLocation(s, location, apiKey, period, now, remote)
            == (PollState(s.entries, s.requests + [Request(location, apiKey)]), None)
  {
  }

  /**
   * A location lets an exception escape only when the last request it made
   * was answered by an unchecked exception, or by a null that the cache
   * refuses; the escaping error is that one.
   */
  lemma RefreshLocationEscape(s: PollState, location: string, apiKey: string, period: int, now: int, remote: Remote)
    ensures var (r, escaped) := RefreshLocation(s, location, apiKey, period, now, remote);
            && |s.requests| < |r.requests|
            && (escaped.Some? ==> EscapedOn(r.requests, remote, escaped.value))
  {
  }

  /** The last request in `requests` was answered with the exception `error` reports. */
  predicate EscapedOn(requests: seq<Request>, remote: Remote, error: ServiceError) {
    && requests != []
    && var answer := remote(requests[|requests| - 1], |requests| - 1);
       || (answer.Crashed? && error == Unchecked(answer.message))
       || (answer == Fetched(None) && error == NullResponse)
  }

  // ---------------------------------------------------------------------------
  // A whole pass.
  // ---------------------------------------------------------------------------

  /** A pass over cached locations never changes which locations are cached, hence never the size. */
  lemma {:induction false} RefreshAllKeepsKeys(s: PollState, order: seq<string>, apiKey: string, period: int, now: int,
                                               remote: Remote)
    requires forall i :: 0 <= i < |order| ==> order[i] in s.entries
    ensures RefreshAll(s, order, apiKey, period, now, remote).0.entries.Keys == s.entries.Keys
    ensures |RefreshAll(s, order, apiKey, period, now, remote).0.entries| == |s.entries|
    decreases |order|
  {
    if order != [] {
      var prefix := order[..|order| - 1];
      RefreshAllKeepsKeys(s, prefix, apiKey, period, now, remote);
      var (before, crash) := RefreshAll(s, prefix, apiKey, period, now, remote);
      if crash.None? {
        RefreshLocationKeepsKeys(before, order[|order| - 1], apiKey, period, now, remote);
      }
    }
    var after := RefreshAll(s, order, apiKey, period, now, remote).0.entries;
    assert |after| == |after.Keys|;
  }

  /** A pass leaves the entries of locations it does not visit untouched. */
  lemma {:induction false} RefreshAllLeavesOthers(s: PollState, order: seq<string>, apiKey: string, period: int, now: int,
                                                  remote: Remote, k: string)
    requires k in s.entries && k !in order
    ensures k in RefreshAll(s, order, apiKey, period, now, remote).0.entries
    ensures RefreshAll(s, order, apiKey, period, now, remote).0.entries[k] == s.entries[k]
    decreases |order|
  {
    if order != [] {
      RefreshAllLeavesOthers(s, order[..|order| - 1], apiKey, period, now, remote, k);
    }
  }

  /**
   * A pass keeps the earlier requests, makes one or two requests per visited
   * location, and every one of them is for a visited location, with the service's key.
   */
  lemma {:induction false} RefreshAllRequests(s: PollState, order: seq<string>, apiKey: string, period: int, now: int,
                                              remote: Remote)
    ensures var r := RefreshAll(s, order, apiKey, period, now, remote).0.requests;
            && |s.requests| <= |r| <= |s.requests| + 2 * |order|
            && r[..|s.requests|] == s.requests
            && forall i :: |s.requests| <= i < |r| ==> r[i].apiKey == apiKey && r[i].location in order
    ensures RefreshAll(s, order, apiKey, period, now, remote).1.None? ==>
              |RefreshAll(s, order, apiKey, period, now, remote).0.requests| >= |s.requests| + |order|
    decreases |order|
  {
    if order != [] {
      var prefix := order[..|order| - 1];
      RefreshAllRequests(s, prefix, apiKey, period, now, remote);
      var (before, crash) := RefreshAll(s, prefix, apiKey, period, now, remote);
      var r := RefreshAll(s, order, apiKey, period, now, remote).0.requests;
      assert forall i :: |s.requests| <= i < |before.requests| ==> before.requests[i].location in order by {
        forall i | |s.requests| <= i < |before.requests|
          ensures before.requests[i].location in order
        {
          var j :| 0 <= j < |prefix| && prefix[j] == before.requests[i].location;
          assert order[j] == prefix[j];
        }
      }
      if crash.None? {
        assert before.requests <= r;
        assert order[|order| - 1] in order;
      }
    }
  }

  /**
   * Every value a pass stores is an answer the remote API gave to a request
   * for that very location during the pass; other entries keep their values.
   */
  lemma {:induction false} RefreshedValuesComeFromTheApi(s: PollState, order: seq<string>, apiKey: string, period: int,
                                                         now: int, remote: Remote, k: string)
    requires k in RefreshAll(s, order, apiKey, period, now, remote).0.entries
    ensures var r := RefreshAll(s, order, apiKey, period, now, remote).0;
            || (k in s.entries && r.entries[k] == s.entries[k])
            || exists n :: |s.requests| <= n < |r.requests| && r.requests[n] == Request(k, apiKey)
                           && remote(r.requests[n], n) == Fetched(Some(r.entries[k]))
    decreases |order|
  {
    var r := RefreshAll(s, order, apiKey, period, now, remote).0;
    if order != [] {
      var prefix := order[..|order| - 1];
      var last := order[|order| - 1];
      var (before, crash) := RefreshAll(s, prefix, apiKey, period, now, remote);
      if crash.None? && k == last && (k !in before.entries || r.entries[k] != before.entries[k]) {
        // Only a second answer stored in this last step can have changed the entry.
        var (afterFirst, first) := Fetch(before, k, apiKey, remote);
        assert first.Fetched? && !IsFreshAnswer(first.response, period, now);
        var (afterSecond, second) := Fetch(afterFirst, k, apiKey, remote);
        assert second == Fetched(Some(r.entries[k]));
        var n := |before.requests| + 1;
        assert r.requests == afterSecond.requests == before.requests + [Request(k, apiKey), Request(k, apiKey)];
        RefreshAllRequests(s, prefix, apiKey, period, now, remote);
        assert |s.requests| <= n < |r.requests| && r.requests[n] == Request(k, apiKey);
      } else {
        assert k in before.entries && r.entries[k] == before.entries[k];
        RefreshedValuesComeFromTheApi(s, prefix, apiKey, period, now, remote, k);
        assert before.requests <= r.requests;
      }
    }
  }

  /**
   * A pass stops early only on an unchecked exception or a null second answer:
   * the pass then ends with the request that got that answer, and reports it.
   * HttpExceptions are never among the reasons.
   */
  lemma {:induction false} EscapeNeedsCrashOrNull(s: PollState, order: seq<string>, apiKey: string, period: int,
                                                  now: int, remote: Remote)
    ensures var (r, escaped) := RefreshAll(s, order, apiKey, period, now, remote);
            escaped.Some? ==> |s.requests| < |r.requests| && EscapedOn(r.requests, remote, escaped.value)
    decreases |order|
  {
    if order != [] {
      var prefix := order[..|order| - 1];
      EscapeNeedsCrashOrNull(s, prefix, apiKey, period, now, remote);
      var (before, crash) := RefreshAll(s, prefix, apiKey, period, now, remote);
      if crash.None? {
        RefreshAllRequests(s, prefix, apiKey, period, now, remote);
        RefreshLocationEscape(before, order[|order| - 1], apiKey, period, now, remote);
      }
    }
  }

  /**
   * HttpExceptions never stop a pass: when every request fails that way, the
   * pass visits every location once, stores nothing and ends normally.
   */
  lemma {:induction false} HttpFailuresAreSwallowed(s: PollState, order: seq<string>, apiKey: string, period: int,
                                                    now: int, remote: Remote)
    requires forall request, n :: remote(request, n).Failed?
    ensures RefreshAll(s, order, apiKey, period, now, remote)
            == (PollState(s.entries, s.requests + OneRequestEach(order, apiKey)), None)
    decreases |order|
  {
    if order != [] {
      var prefix := order[..|order| - 1];
      var last := Request(order[|order| - 1], apiKey);
      HttpFailuresAreSwallowed(s, prefix, apiKey, period, now, remote);
      var before := PollState(s.entries, s.requests + OneRequestEach(prefix, apiKey));
      assert remote(last, |before.requests|).Failed?;
      assert RefreshLocation(before, order[|order| - 1], apiKey, period, now, remote)
             == (PollState(s.entries, before.requests + [last]), None);
      assert s.requests + OneRequestEach(order, apiKey) == before.requests + [last];
    } else {
      assert s.requests + OneRequestEach(order, apiKey) == s.requests;
    }
  }
}
