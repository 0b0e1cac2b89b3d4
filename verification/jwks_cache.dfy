/** The single-slot key-set cache of supertokens.go, run sequentially. The cache holds at
    most one fetched key set with the millisecond time it was stored; a lookup returns it
    while it is younger than the maximum age, and otherwise the key set is fetched again.
    The fetch (`keyfunc.Get`) and the clock are oracles: a call receives the time of its
    freshness check, the outcome the fetch would have, and the time read after the fetch.
    `K` stands for the key set. */
module JwksCache {
  import opened Outcomes

  /** The maximum age an authenticator starts with, in milliseconds. */
  const DefaultMaxAgeMillis: int := 60000

  /** A cached key set and the time, in milliseconds, at which it was stored. */
  datatype Entry<K> = Entry(jwks: K, lastFetched: int)

  /** The cache: an empty or occupied slot, and the maximum age of its entry. */
  datatype Cache<K> = Cache(slot: Option<Entry<K>>, maxAgeMillis: int)

  datatype FetchError = FetchError(reason: string)

  /** One call of `getJWKS`: the cache after it, what it returned, and whether it called
      the fetcher. */
  datatype Step<K> = Step(cache: Cache<K>, result: Result<K, FetchError>, fetched: bool)

  /** An entry is fresh while strictly less than the maximum age has elapsed. */
  predicate Fresh<K>(e: Entry<K>, now: int, maxAgeMillis: int) {
    now - e.lastFetched < maxAgeMillis
  }

  /** `getJWKSFromCacheIfPresent`: the cached entry when there is one and it is fresh at
      `now`, and nothing otherwise. */
  function CachedIfFresh<K>(c: Cache<K>, now: int): (r: Option<Entry<K>>)
    ensures c.slot.None? ==> r.None?
    ensures r.Some? <==> c.slot.Some? && Fresh(c.slot.value, now, c.maxAgeMillis)
    ensures r.Some? ==> r == c.slot
  {
    match c.slot
    case None => None
    case Some(e) => if now - e.lastFetched < c.maxAgeMillis then Some(e) else None
  }

  /** The exclusive half of `getJWKS`: fetch without looking at the slot again; a success
      stores the key set with the time read after the fetch, a failure leaves the cache
      as it was. */
  function Refresh<K>(c: Cache<K>, fetch: Result<K, FetchError>, doneAt: int): (s: Step<K>)
    ensures s.fetched
    ensures s.cache.maxAgeMillis == c.maxAgeMillis
    ensures fetch.Err? ==> s.cache == c && s.result == Err(fetch.error)
    ensures fetch.Ok? ==> s.cache.slot == Some(Entry(fetch.value, doneAt)) && s.result == Ok(fetch.value)
  {
    match fetch
    case Err(e) => Step(c, Err(e), true)
    case Ok(jwks) => Step(Cache(Some(Entry(jwks, doneAt)), c.maxAgeMillis), Ok(jwks), true)
  }

  /** `getJWKS`: a fresh entry is returned without fetching and without touching the
      cache; anything else (an empty slot or a stale entry) fetches exactly once. */
  function GetJwks<K>(c: Cache<K>, now: int, fetch: Result<K, FetchError>, doneAt: int): (s: Step<K>)
    ensures s.fetched <==> c.slot.None? || !Fresh(c.slot.value, now, c.maxAgeMillis)
    ensures !s.fetched ==> s.cache == c && s.result == Ok(c.slot.value.jwks)
    ensures s.fetched ==> s == Refresh(c, fetch, doneAt)
  {
    match CachedIfFresh(c, now)
    case Some(e) => Step(c, Ok(e.jwks), false)
    case None => Refresh(c, fetch, doneAt)
  }

  /** The freshness test is strict: an entry exactly the maximum age old is stale, and
      the call that sees it fetches. */
  lemma StaleAtMaxAge<K>(c: Cache<K>, now: int, fetch: Result<K, FetchError>, doneAt: int)
    requires c.slot.Some? && now - c.slot.value.lastFetched == c.maxAgeMillis
    ensures CachedIfFresh(c, now).None?
    ensures GetJwks(c, now, fetch, doneAt).fetched
  {
  }

  /** After a successful fetch whose clock read `doneAt`, every call at a time less than
      the maximum age later is served from the cache with the fetched key set. */
  lemma HitAfterRefresh<K>(c: Cache<K>, now: int, fetch: Result<K, FetchError>, doneAt: int,
                           later: int, fetch': Result<K, FetchError>, doneAt': int)
    requires fetch.Ok?
    requires later - doneAt < c.maxAgeMillis
    ensures var s := GetJwks(c, now, fetch, doneAt);
            s.fetched ==> GetJwks(s.cache, later, fetch', doneAt') == Step(s.cache, Ok(fetch.value), false)
  {
  }

  /** There is no second freshness check under the write lock. Two callers A and B both
      found the entry stale at `now`; A refreshes first and stores a key set that is fresh
      at B's clock `t`, yet B, already past its check, fetches again and overwrites it,
      whereas a call that checked at `t` would have been served from the cache. */
  lemma NoRecheckUnderWriteLock<K>(c: Cache<K>, now: int,
                                   fetchA: Result<K, FetchError>, doneA: int,
                                   fetchB: Result<K, FetchError>, doneB: int, t: int)
    requires CachedIfFresh(c, now).None?
    requires fetchA.Ok? && fetchB.Ok?
    requires t - doneA < c.maxAgeMillis
    ensures GetJwks(c, now, fetchA, doneA).fetched && GetJwks(c, now, fetchB, doneB).fetched
    ensures var a := Refresh(c, fetchA, doneA);
            var b := Refresh(a.cache, fetchB, doneB);
            && CachedIfFresh(a.cache, t) == Some(Entry(fetchA.value, doneA))
            && !GetJwks(a.cache, t, fetchB, doneB).fetched
            && b.fetched
            && b.cache.slot == Some(Entry(fetchB.value, doneB))
  {
  }

  /** One call of a sequential run: the time of the freshness check, the outcome the fetch
      would have, and the time read after the fetch. */
  datatype Call<K> = Call(now: int, fetch: Result<K, FetchError>, doneAt: int)

  /** The cache after a run, what each call returned, and how many calls fetched. */
  datatype Trace<K> = Trace(cache: Cache<K>, results: seq<Result<K, FetchError>>, fetches: nat)

  /** Calls of `getJWKS` one after the other, each on the cache the previous left. */
  function Run<K>(c: Cache<K>, calls: seq<Call<K>>): (t: Trace<K>)
    ensures |t.results| == |calls|
    ensures t.fetches <= |calls|
    ensures t.cache.maxAgeMillis == c.maxAgeMillis
    decreases |calls|
  {
    if calls == [] then Trace(c, [], 0)
    else
      var s := GetJwks(c, calls[0].now, calls[0].fetch, calls[0].doneAt);
      var rest := Run(s.cache, calls[1..]);
      Trace(rest.cache, [s.result] + rest.results, rest.fetches + if s.fetched then 1 else 0)
  }

  /** Within the freshness window of the cached entry nothing is fetched: every call
      returns the cached key set and the cache is left as it was. */
  lemma {:induction false} QuietWindow<K>(c: Cache<K>, calls: seq<Call<K>>)
    requires c.slot.Some?
    requires forall i :: 0 <= i < |calls| ==> Fresh(c.slot.value, calls[i].now, c.maxAgeMillis)
    ensures Run(c, calls).fetches == 0
    ensures Run(c, calls).cache == c
    ensures forall i :: 0 <= i < |calls| ==> Run(c, calls).results[i] == Ok(c.slot.value.jwks)
    decreases |calls|
  {
    if calls != [] {
      QuietWindow(c, calls[1..]);
      var rest := Run(c, calls[1..]);
      forall i | 1 <= i < |calls|
        ensures Run(c, calls).results[i] == Ok(c.slot.value.jwks)
      {
        assert Run(c, calls).results[i] == rest.results[i - 1];
      }
    }
  }

  /** Failures are not cached: starting from an empty slot, when every fetch fails every
      call fetches, every call returns its fetch error, and the slot stays empty. */
  lemma {:induction false} FailuresAlwaysRefetch<K>(c: Cache<K>, calls: seq<Call<K>>)
    requires c.slot.None?
    requires forall i :: 0 <= i < |calls| ==> calls[i].fetch.Err?
    ensures Run(c, calls).fetches == |calls|
    ensures Run(c, calls).cache == c
    ensures forall i :: 0 <= i < |calls| ==> Run(c, calls).results[i] == calls[i].fetch
    decreases |calls|
  {
    if calls != [] {
      FailuresAlwaysRefetch(c, calls[1..]);
      var rest := Run(c, calls[1..]);
      forall i | 1 <= i < |calls|
        ensures Run(c, calls).results[i] == calls[i].fetch
      {
        assert Run(c, calls).results[i] == rest.results[i - 1];
        assert calls[1..][i - 1] == calls[i];
      }
    }
  }

  /** The cache only ever holds what a fetch delivered: after a run the slot is either the
      one the run started with, or the key set of a call that found the slot empty or
      stale (and so called the fetcher) and whose fetch succeeded, stamped with that
      call's post-fetch time. */
  lemma {:induction false} SlotFromFetch<K>(c: Cache<K>, calls: seq<Call<K>>)
    ensures var t := Run(c, calls);
            t.cache.slot == c.slot ||
            exists i :: 0 <= i < |calls| &&
                        CachedIfFresh(Run(c, calls[..i]).cache, calls[i].now).None? &&
                        calls[i].fetch.Ok? &&
                        t.cache.slot == Some(Entry(calls[i].fetch.value, calls[i].doneAt))
    decreases |calls|
  {
    if calls != [] {
      var s := GetJwks(c, calls[0].now, calls[0].fetch, calls[0].doneAt);
      SlotFromFetch(s.cache, calls[1..]);
      var t := Run(s.cache, calls[1..]);
      assert calls[..0] == [];
      if t.cache.slot != s.cache.slot {
        var tail := calls[1..];
        var j :| 0 <= j < |tail| &&
                 CachedIfFresh(Run(s.cache, tail[..j]).cache, tail[j].now).None? &&
                 tail[j].fetch.Ok? &&
                 t.cache.slot == Some(Entry(tail[j].fetch.value, tail[j].doneAt));
        assert tail[j] == calls[j + 1];
        var prefix := calls[..j + 1];
        assert prefix[0] == calls[0];
        assert prefix[1..] == tail[..j];
        assert Run(c, prefix).cache == Run(s.cache, tail[..j]).cache;
      } else if s.cache.slot != c.slot {
        assert calls[0].fetch.Ok?;
      }
    }
  }
}
