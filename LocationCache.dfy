/**
 * The bounded location cache: a map from normalised location names to weather
 * responses that, when a new location arrives and the cache is full, first
 * evicts the entry whose observation time `dt` is the smallest.
 */
module LocationCache {
  import opened Wrappers
  import opened Weather

  /** Capacity used when the configured one is null. */
  const DEFAULT_CACHE_SIZE: int := 10

  // ---------------------------------------------------------------------------
  // Key normalisation: trim, then upper-case.
  // ---------------------------------------------------------------------------

  /** The characters String.trim strips: every code point up to and including the space. */
  predicate IsTrimmable(c: char) {
    c <= ' '
  }

  /** Drops the leading trimmable characters; the result is the suffix starting at the first other character. */
  function TrimStart(s: string): (r: string)
    ensures |r| <= |s|
    ensures forall i :: 0 <= i < |s| - |r| ==> IsTrimmable(s[i])
    ensures r != [] ==> !IsTrimmable(r[0])
    decreases |s|
  {
    if s != [] && IsTrimmable(s[0]) then TrimStart(s[1..]) else s
  }

  /** Drops the trailing trimmable characters; the result is the prefix ending at the last other character. */
  function TrimEnd(s: string): (r: string)
    ensures |r| <= |s|
    ensures forall i :: |r| <= i < |s| ==> IsTrimmable(s[i])
    ensures r != [] ==> !IsTrimmable(r[|r| - 1])
    decreases |s|
  {
    if s != [] && IsTrimmable(s[|s| - 1]) then TrimEnd(s[..|s| - 1]) else s
  }

  /** The leading trim keeps a suffix of its input. */
  lemma {:induction false} TrimStartIsSuffix(s: string)
    ensures TrimStart(s) == s[|s| - |TrimStart(s)|..]
    decreases |s|
  {
    if s != [] && IsTrimmable(s[0]) {
      TrimStartIsSuffix(s[1..]);
    }
  }

  /** The trailing trim keeps a prefix of its input. */
  lemma {:induction false} TrimEndIsPrefix(s: string)
    ensures TrimEnd(s) == s[..|TrimEnd(s)|]
    decreases |s|
  {
    if s != [] && IsTrimmable(s[|s| - 1]) {
      TrimEndIsPrefix(s[..|s| - 1]);
    }
  }

  /** String.trim: strips trimmable characters at both ends. */
  function Trim(s: string): string {
    TrimEnd(TrimStart(s))
  }

  /** String.toUpperCase, on the ASCII letters. */
  function UpperChar(c: char): char {
    if 'a' <= c <= 'z' then (c as int - 32) as char else c
  }

  function ToUpper(s: string): string {
    if s == [] then [] else [UpperChar(s[0])] + ToUpper(s[1..])
  }

  /** Upper-casing keeps the length and maps every character in place. */
  lemma {:induction false} ToUpperAt(s: string)
    ensures |ToUpper(s)| == |s|
    ensures forall i :: 0 <= i < |s| ==> ToUpper(s)[i] == UpperChar(s[i])
  {
    if s != [] {
      ToUpperAt(s[1..]);
    }
  }

  /** The cache key for a location: trimmed, then upper-cased. */
  function NormalizeLocation(key: string): string {
    ToUpper(Trim(key))
  }

  /** Text with nothing to trim at either end. */
  predicate HasTrimmedEnds(t: string) {
    t != [] ==> !IsTrimmable(t[0]) && !IsTrimmable(t[|t| - 1])
  }

  predicate IsLowerCase(c: char) {
    'a' <= c <= 'z'
  }

  /** Text in which upper-casing finds nothing to change. */
  predicate HasNoLowerCase(t: string) {
    forall i :: 0 <= i < |t| ==> !IsLowerCase(t[i])
  }

  /** The shape of a cache key: nothing to trim at either end and no lower-case letter. */
  predicate IsNormalized(k: string) {
    HasTrimmedEnds(k) && HasNoLowerCase(k)
  }

  /** Trim leaves text with nothing to trim at either end. */
  lemma TrimHasTrimmedEnds(s: string)
    ensures HasTrimmedEnds(Trim(s))
  {
    var t := TrimStart(s);
    var r := TrimEnd(t);
    TrimEndIsPrefix(t);
    if r != [] {
      assert r[0] == t[0];
    }
  }

  /** Trimming text that has nothing to trim changes nothing. */
  lemma {:induction false} TrimOfTrimmed(k: string)
    requires HasTrimmedEnds(k)
    ensures Trim(k) == k
  {
    if k != [] {
      assert TrimStart(k) == k;
    }
  }

  lemma UpperCharFacts(c: char)
    ensures UpperChar(UpperChar(c)) == UpperChar(c)
    ensures IsTrimmable(UpperChar(c)) <==> IsTrimmable(c)
    ensures !IsLowerCase(UpperChar(c))
    ensures !IsLowerCase(c) ==> UpperChar(c) == c
  {
  }

  /** Upper-casing leaves no lower-case letter behind. */
  lemma UpperHasNoLowerCase(s: string)
    ensures HasNoLowerCase(ToUpper(s))
  {
    ToUpperAt(s);
    forall i | 0 <= i < |s|
      ensures !IsLowerCase(ToUpper(s)[i])
    {
      UpperCharFacts(s[i]);
    }
  }

  /** Upper-casing text without lower-case letters changes nothing. */
  lemma UpperOfUpper(k: string)
    requires HasNoLowerCase(k)
    ensures ToUpper(k) == k
  {
    ToUpperAt(k);
    forall i | 0 <= i < |k|
      ensures ToUpper(k)[i] == k[i]
    {
      UpperCharFacts(k[i]);
    }
  }

  /** Upper-casing keeps text free of anything to trim at its ends. */
  lemma UpperKeepsTrimmedEnds(t: string)
    requires HasTrimmedEnds(t)
    ensures HasTrimmedEnds(ToUpper(t))
  {
    ToUpperAt(t);
    if t != [] {
      UpperCharFacts(t[0]);
      UpperCharFacts(t[|t| - 1]);
    }
  }

  /** Every key the cache computes has the shape of a cache key. */
  lemma NormalizeLocationIsNormalized(location: string)
    ensures IsNormalized(NormalizeLocation(location))
  {
    TrimHasTrimmedEnds(location);
    UpperKeepsTrimmedEnds(Trim(location));
    UpperHasNoLowerCase(Trim(location));
  }

  /** Normalisation leaves a string as it is exactly when the string has the shape of a cache key. */
  lemma NormalizedIffFixedPoint(k: string)
    ensures NormalizeLocation(k) == k <==> IsNormalized(k)
  {
    if IsNormalized(k) {
      TrimOfTrimmed(k);
      UpperOfUpper(k);
    } else {
      NormalizeLocationIsNormalized(k);
    }
  }

  /** Normalising twice is normalising once. */
  lemma NormalizeIdempotent(location: string)
    ensures NormalizeLocation(NormalizeLocation(location)) == NormalizeLocation(location)
  {
    NormalizeLocationIsNormalized(location);
    NormalizedIffFixedPoint(NormalizeLocation(location));
  }

  /** Trimming upper-cased text is upper-casing trimmed text: upper-casing never creates or removes trimmable characters. */
  lemma {:induction false} TrimStartCommutesWithUpper(s: string)
    ensures TrimStart(ToUpper(s)) == ToUpper(TrimStart(s))
    decreases |s|
  {
    if s != [] {
      assert ToUpper(s)[1..] == ToUpper(s[1..]);
      if IsTrimmable(s[0]) {
        TrimStartCommutesWithUpper(s[1..]);
      }
    }
  }

  lemma {:induction false} TrimEndCommutesWithUpper(s: string)
    ensures TrimEnd(ToUpper(s)) == ToUpper(TrimEnd(s))
    decreases |s|
  {
    if s != [] {
      UpperOfPrefix(s);
      ToUpperAt(s);
      UpperCharFacts(s[|s| - 1]);
      if IsTrimmable(s[|s| - 1]) {
        TrimEndCommutesWithUpper(s[..|s| - 1]);
      }
    }
  }

  /** Upper-casing all but the last character is all but the last character of the upper-cased text. */
  lemma UpperOfPrefix(s: string)
    requires s != []
    ensures |ToUpper(s)| == |s| && ToUpper(s)[..|s| - 1] == ToUpper(s[..|s| - 1])
  {
    ToUpperAt(s);
    ToUpperAt(s[..|s| - 1]);
  }

  /** Case does not matter: a location and its upper-cased spelling share one cache slot. */
  lemma NormalizeIgnoresCase(location: string)
    ensures NormalizeLocation(ToUpper(location)) == NormalizeLocation(location)
  {
    TrimStartCommutesWithUpper(location);
    TrimEndCommutesWithUpper(TrimStart(location));
    UpperHasNoLowerCase(Trim(location));
    UpperOfUpper(ToUpper(Trim(location)));
  }

  /** Surrounding blanks do not matter: padding a location on either side leaves its cache slot unchanged. */
  lemma {:induction false} NormalizeIgnoresPadding(before: string, location: string, after: string)
    requires forall i :: 0 <= i < |before| ==> IsTrimmable(before[i])
    requires forall i :: 0 <= i < |after| ==> IsTrimmable(after[i])
    ensures NormalizeLocation(before + location + after) == NormalizeLocation(location)
  {
    TrimStartSkipsPadding(before, location + after);
    assert before + location + after == before + (location + after);
    TrimEndSkipsPadding(TrimStart(location + after), after);
    TrimStartAppend(location, after);
  }

  lemma {:induction false} TrimStartSkipsPadding(pad: string, s: string)
    requires forall i :: 0 <= i < |pad| ==> IsTrimmable(pad[i])
    ensures TrimStart(pad + s) == TrimStart(s)
    decreases |pad|
  {
    if pad != [] {
      assert (pad + s)[1..] == pad[1..] + s;
      TrimStartSkipsPadding(pad[1..], s);
    } else {
      assert pad + s == s;
    }
  }

  lemma {:induction false} TrimEndSkipsPadding(s: string, pad: string)
    requires forall i :: 0 <= i < |pad| ==> IsTrimmable(pad[i])
    ensures TrimEnd(s + pad) == TrimEnd(s)
    decreases |pad|
  {
    if pad != [] {
      assert (s + pad)[..|s + pad| - 1] == s + pad[..|pad| - 1];
      TrimEndSkipsPadding(s, pad[..|pad| - 1]);
    } else {
      assert s + pad == s;
    }
  }

  /** Trailing padding does not change where the leading trim stops, unless everything is padding. */
  lemma {:induction false} TrimStartAppend(s: string, pad: string)
    requires forall i :: 0 <= i < |pad| ==> IsTrimmable(pad[i])
    ensures TrimEnd(TrimStart(s + pad)) == TrimEnd(TrimStart(s))
    decreases |s|
  {
    if s == [] {
      assert s + pad == pad;
      TrimStartSkipsPadding(pad, []);
      assert pad + [] == pad;
    } else if IsTrimmable(s[0]) {
      assert (s + pad)[1..] == s[1..] + pad;
      TrimStartAppend(s[1..], pad);
    } else {
      TrimEndSkipsPadding(s, pad);
    }
  }

  // ---------------------------------------------------------------------------
  // Eviction order.
  // ---------------------------------------------------------------------------

  /** `k` holds an entry whose observation time is the smallest in `m`. */
  ghost predicate IsOldest(m: map<string, WeatherResponse>, k: string) {
    k in m && forall j :: j in m ==> m[k].dt <= m[j].dt
  }

  /**
   * The minimum-by-dt scan over the entries (a stream `min` in the source):
   * finds an entry with the smallest `dt`, or nothing when the map is empty.
   * Among equal timestamps the first one visited is kept.
   */
  method OldestKey(m: map<string, WeatherResponse>) returns (oldest: Option<string>)
    ensures oldest.None? <==> m == map[]
    ensures oldest.Some? ==> IsOldest(m, oldest.value)
  {
    oldest := None;
    var unseen := m.Keys;
    while unseen != {}
      invariant unseen <= m.Keys
      invariant oldest.None? <==> unseen == m.Keys
      invariant oldest.Some? ==> oldest.value in m
      invariant oldest.Some? ==> forall j :: j in m && j !in unseen ==> m[oldest.value].dt <= m[j].dt
      decreases unseen
    {
      var k :| k in unseen;
      if oldest.None? || m[k].dt < m[oldest.value].dt {
        oldest := Some(k);
      }
      unseen := unseen - {k};
    }
    assert m.Keys == {} ==> m == map[];
  }

  /** The largest number of entries a cache of this configured size can hold: a size below one still admits a single entry. */
  function MaxOccupancy(cacheSize: int): (n: nat)
    ensures n >= 1 && n >= cacheSize
  {
    if cacheSize >= 1 then cacheSize else 1
  }

  /** Stores `value` under `key`; a null value (None) stores nothing. */
  function Insert(m: map<string, WeatherResponse>, key: string, value: Option<WeatherResponse>): map<string, WeatherResponse> {
    if value.Some? then m[key := value.value] else m
  }

  /** Whether putting a location absent from `m` into a cache of this size evicts first. */
  predicate Evicts(m: map<string, WeatherResponse>, cacheSize: int, location: string) {
    NormalizeLocation(location) !in m && |m| >= cacheSize && m != map[]
  }

  /**
   * The effect of Cache.put on the entries: store under the normalised key,
   * after evicting one oldest entry when the key is new and the cache is full.
   */
  ghost predicate PutOutcome(before: map<string, WeatherResponse>, after: map<string, WeatherResponse>,
                             cacheSize: int, location: string, value: Option<WeatherResponse>)
  {
    var key := NormalizeLocation(location);
    if Evicts(before, cacheSize, location) then
      exists e :: IsOldest(before, e) && after == Insert(before - {e}, key, value)
    else
      after == Insert(before, key, value)
  }

  /** PutOutcome from its two stages: the optional eviction, then the store. */
  lemma PutOutcomeIntro(before: map<string, WeatherResponse>, kept: map<string, WeatherResponse>,
                        after: map<string, WeatherResponse>, cacheSize: int, location: string,
                        value: Option<WeatherResponse>)
    requires Evicts(before, cacheSize, location) ==> exists e :: IsOldest(before, e) && kept == before - {e}
    requires !Evicts(before, cacheSize, location) ==> kept == before
    requires after == Insert(kept, NormalizeLocation(location), value)
    ensures PutOutcome(before, after, cacheSize, location, value)
  {
    if Evicts(before, cacheSize, location) {
      var e :| IsOldest(before, e) && kept == before - {e};
      assert after == Insert(before - {e}, NormalizeLocation(location), value);
    }
  }

  lemma RemoveOneSize(m: map<string, WeatherResponse>, e: string)
    requires e in m
    ensures |m - {e}| == |m| - 1
  {
    assert (m - {e}).Keys == m.Keys - {e};
  }

  /** A put never takes the cache beyond its bound, whatever the key and value. */
  lemma PutKeepsBound(before: map<string, WeatherResponse>, after: map<string, WeatherResponse>,
                      cacheSize: int, location: string, value: Option<WeatherResponse>)
    requires PutOutcome(before, after, cacheSize, location, value)
    requires |before| <= MaxOccupancy(cacheSize)
    ensures |after| <= MaxOccupancy(cacheSize)
  {
    if Evicts(before, cacheSize, location) {
      var e :| IsOldest(before, e) && after == Insert(before - {e}, NormalizeLocation(location), value);
      RemoveOneSize(before, e);
    }
  }

  /** Re-putting a key already present overwrites its value only: no eviction, same keys, same size. */
  lemma UpdateDoesNotEvict(before: map<string, WeatherResponse>, after: map<string, WeatherResponse>,
                           cacheSize: int, location: string, value: WeatherResponse)
    requires PutOutcome(before, after, cacheSize, location, Some(value))
    requires NormalizeLocation(location) in before
    ensures after.Keys == before.Keys && |after| == |before|
    ensures after[NormalizeLocation(location)] == value
    ensures forall k :: k in before && k != NormalizeLocation(location) ==> after[k] == before[k]
  {
    assert !Evicts(before, cacheSize, location);
  }

  /** Putting a key the cache already holds stores under that very key and evicts nothing. */
  lemma PutOfCachedKey(before: map<string, WeatherResponse>, after: map<string, WeatherResponse>,
                       cacheSize: int, k: string, value: Option<WeatherResponse>)
    requires PutOutcome(before, after, cacheSize, k, value)
    requires k in before && IsNormalized(k)
    ensures after == Insert(before, k, value)
  {
    NormalizedIffFixedPoint(k);
    assert !Evicts(before, cacheSize, k);
  }

  /** For a key that already has the shape of a cache key, PutOutcome reads with that key itself. */
  lemma PutUnderOwnKey(before: map<string, WeatherResponse>, after: map<string, WeatherResponse>,
                       cacheSize: int, k: string, value: Option<WeatherResponse>)
    requires PutOutcome(before, after, cacheSize, k, value)
    requires IsNormalized(k)
    ensures k !in before && |before| >= cacheSize && before != map[] ==>
              exists e :: IsOldest(before, e) && after == Insert(before - {e}, k, value)
    ensures !(k !in before && |before| >= cacheSize && before != map[]) ==> after == Insert(before, k, value)
  {
    NormalizedIffFixedPoint(k);
  }

  /** Putting a new key below capacity removes nothing: every earlier entry stays with its value. */
  lemma BelowCapacityKeepsAll(before: map<string, WeatherResponse>, after: map<string, WeatherResponse>,
                              cacheSize: int, location: string, value: WeatherResponse)
    requires PutOutcome(before, after, cacheSize, location, Some(value))
    requires |before| < cacheSize
    ensures after.Keys == before.Keys + {NormalizeLocation(location)}
    ensures forall k :: k in before && k != NormalizeLocation(location) ==> after[k] == before[k]
  {
  }

  /**
   * Putting a new key into a full cache removes exactly one earlier entry, one
   * with the smallest `dt`, so the size stays the same.
   */
  lemma FullCacheEvictsOneOldest(before: map<string, WeatherResponse>, after: map<string, WeatherResponse>,
                                 cacheSize: int, location: string, value: WeatherResponse)
    requires PutOutcome(before, after, cacheSize, location, Some(value))
    requires NormalizeLocation(location) !in before && |before| >= cacheSize && before != map[]
    ensures |after| == |before|
    ensures exists e :: IsOldest(before, e) && after.Keys == before.Keys - {e} + {NormalizeLocation(location)}
    ensures forall k :: k in before && k in after ==> after[k] == before[k]
  {
    var e :| IsOldest(before, e) && after == Insert(before - {e}, NormalizeLocation(location), Some(value));
    RemoveOneSize(before, e);
    assert after.Keys == before.Keys - {e} + {NormalizeLocation(location)};
  }

  // ---------------------------------------------------------------------------
  // The cache object.
  // ---------------------------------------------------------------------------

  class Cache {
    /** The underlying map, keyed by normalised location. */
    var entries: map<string, WeatherResponse>
    /** The configured capacity. */
    const cacheSize: int

    /** Every key is normalised, and the occupancy stays within the bound. */
    ghost predicate Valid()
      reads this
    {
      && (forall k {:trigger IsNormalized(k)} :: k in entries ==> IsNormalized(k))
      && |entries| <= MaxOccupancy(cacheSize)
    }

    /** A new, empty cache; a null capacity means DEFAULT_CACHE_SIZE. */
    constructor (cacheSize: Option<int>)
      ensures Valid() && entries == map[]
      ensures this.cacheSize == (if cacheSize.None? then DEFAULT_CACHE_SIZE else cacheSize.value)
    {
      this.cacheSize := cacheSize.GetOr(DEFAULT_CACHE_SIZE);
      entries := map[];
    }

    /** The response stored for the location, or null (None). */
    function Get(location: string): Option<WeatherResponse>
      reads this
    {
      var key := NormalizeLocation(location);
      if key in entries then Some(entries[key]) else None
    }

    /**
     * Stores the response under the normalised location, evicting an oldest
     * entry first when the location is new and the cache is full. A null
     * response is refused by the underlying map (a NullPointerException,
     * `ok == false`) after any eviction has already happened.
     */
    method Put(location: string, value: Option<WeatherResponse>) returns (ok: bool)
      requires Valid()
      modifies this
      ensures Valid()
      ensures ok <==> value.Some?
      ensures PutOutcome(old(entries), entries, cacheSize, location, value)
      ensures ok ==> Get(location) == value
    {
      var key := NormalizeLocation(location);
      NormalizeLocationIsNormalized(location);
      ghost var before := entries;
      if IsCacheFull() && key !in entries {
        RemoveOldestEntry();
      }
      ghost var kept := entries;
      assert Evicts(before, cacheSize, location) ==> exists e :: IsOldest(before, e) && kept == before - {e};
      assert !Evicts(before, cacheSize, location) ==> kept == before;
      if value.None? {
        ok := false;
      } else {
        entries := entries[key := value.value];
        ok := true;
      }
      PutOutcomeIntro(before, kept, entries, cacheSize, location, value);
      PutKeepsBound(before, entries, cacheSize, location, value);
    }

    /** Removes one entry with the smallest `dt`; does nothing on an empty cache. */
    method RemoveOldestEntry()
      requires Valid()
      modifies this
      ensures Valid()
      ensures old(entries) == map[] ==> entries == map[]
      ensures old(entries) != map[] ==> exists e :: IsOldest(old(entries), e) && entries == old(entries) - {e}
      ensures |entries| == if old(entries) == map[] then 0 else |old(entries)| - 1
    {
      var oldest := OldestKey(entries);
      if oldest.Some? {
        RemoveOneSize(entries, oldest.value);
        entries := entries - {oldest.value};
      }
    }

    /** The cached locations, all of them normalised. */
    function Locations(): (locations: set<string>)
      requires Valid()
      reads this
      ensures forall k :: k in locations ==> IsNormalized(k)
      ensures |locations| == Size() <= MaxOccupancy(cacheSize)
    {
      entries.Keys
    }

    /** Removes every entry. */
    method Clear()
      modifies this
      ensures Valid() && entries == map[]
    {
      entries := map[];
    }

    /** The number of cached entries. */
    function Size(): nat
      reads this
    {
      |entries|
    }

    predicate IsCacheFull()
      reads this
    {
      |entries| >= cacheSize
    }
  }
}
