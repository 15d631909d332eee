/**
 * YTKRequest: a YTKBaseRequest with a local cache. Reading the cache (at
 * `start`, unless `ignoreCache`) and writing it (after every successful
 * response) are governed separately.
 */
module CachedRequests {
  import opened Common
  import opened RequestSpec
  import opened Lifecycle
  import opened Requests
  import opened CachePolicy

  /** The location a request's cache files live at; how it is derived is not modelled. */
  type CacheKey = string

  /** The cache directory: one entry per key, shared by every request. */
  class CacheStore {
    var entries: map<CacheKey, CacheEntry>

    constructor ()
      ensures entries == map[]
    {
      entries := map[];
    }

    function Lookup(key: CacheKey): Option<CacheEntry>
      reads this
    {
      if key in entries then Some(entries[key]) else None
    }

    /** Replaces the metadata and data stored under `key`. */
    method Write(key: CacheKey, entry: CacheEntry)
      modifies this
      ensures entries == old(entries)[key := entry]
    {
      entries := entries[key := entry];
    }
  }

  class Request {
    const base: BaseRequest
    const store: CacheStore
    const key: CacheKey
    /** The values of `cacheTimeInSeconds`, `cacheVersion` and `cacheSensitiveData`. */
    const cache: CacheConfig

    var ignoreCache: bool
    var dataFromCache: bool
    /** The bytes the last successful load read. */
    var cacheData: Option<Bytes>
    /** How many times a load went past the cache-time check to the stored files. */
    ghost var cacheReads: nat

    ghost predicate Valid()
      reads this, base
    {
      && base.Valid()
      && (dataFromCache ==> base.phase == Succeeded && Occurrences(base.trace, IsTransportStart) == 0)
    }

    constructor (config: RequestConfig, cache: CacheConfig, key: CacheKey, store: CacheStore)
      ensures Valid() && fresh(base)
      ensures base.config == config && base.State() == Initial()
      ensures this.cache == cache && this.key == key && this.store == store
      ensures !ignoreCache && !dataFromCache && cacheData.None? && cacheReads == 0
    {
      base := new BaseRequest(config);
      this.store := store;
      this.key := key;
      this.cache := cache;
      ignoreCache := false;
      dataFromCache := false;
      cacheData := None;
      cacheReads := 0;
    }

    /** `isDataFromCache`: the response came from the cache, and the transport was never called. */
    predicate IsDataFromCache(): (r: bool)
      reads this, base
      ensures r && Valid() ==> base.phase == Succeeded && base.error.None?
                               && Occurrences(base.trace, IsTransportStart) == 0
    {
      dataFromCache
    }

    /** `loadCacheWithError:`: YES with no error when the cache loaded, otherwise NO with its error. */
    method LoadCacheWithError(now: int, appVersion: string) returns (ok: bool, error: Option<CacheError>)
      modifies this`cacheData, this`cacheReads
      ensures var v := Verdict(cache, appVersion, now, store.Lookup(key));
              && (ok <==> v.Success?)
              && (ok <==> error.None?)
              && (!ok ==> error == Some(v.error))
              && cacheData == (if ok then Some(v.value) else old(cacheData))
      ensures cacheReads == old(cacheReads) + (if cache.cacheTimeInSeconds > 0 then 1 else 0)
    {
      if cache.cacheTimeInSeconds <= 0 {
        return false, Some(InvalidCacheTime);
      }
      cacheReads := cacheReads + 1;
      var v := Verdict(cache, appVersion, now, store.Lookup(key));
      match v
      case Success(data) =>
        cacheData := Some(data);
        ok, error := true, None;
      case Failure(e) =>
        ok, error := false, Some(e);
    }

    /** `startWithoutCache`: the network request, without reading the cache. */
    method StartWithoutCache()
      requires Valid()
      modifies this, base
      ensures Valid()
      ensures base.State() == Started(old(base.State()), Effective(base.config))
      ensures dataFromCache == old(dataFromCache) && cacheReads == old(cacheReads)
      ensures ignoreCache == old(ignoreCache) && cacheData == old(cacheData)
    {
      base.Start();
    }

    /**
     * `start`: an idle request reads the cache unless `ignoreCache` is set; a
     * cache that loads is the response, anything else goes to the network.
     */
    method Start(now: int, appVersion: string)
      requires Valid()
      modifies this, base
      ensures Valid()
      ensures ignoreCache == old(ignoreCache)
      ensures var v := Verdict(cache, appVersion, now, store.Lookup(key));
              if old(base.phase) != Idle then
                base.State() == old(base.State()) && dataFromCache == old(dataFromCache)
              else if old(ignoreCache) || v.Failure? then
                base.State() == Started(old(base.State()), Effective(base.config)) && !dataFromCache
              else
                base.State() == LoadedFromCache(old(base.State()), v.value) && dataFromCache
      ensures cacheReads == old(cacheReads) + (if old(base.phase) == Idle && !old(ignoreCache)
                                                  && cache.cacheTimeInSeconds > 0 then 1 else 0)
      ensures var v := Verdict(cache, appVersion, now, store.Lookup(key));
              cacheData == if old(base.phase) == Idle && !old(ignoreCache) && v.Success? then Some(v.value)
                           else old(cacheData)
    {
      if base.phase != Idle {
        return;
      }
      if ignoreCache {
        StartWithoutCache();
        return;
      }
      var ok, _ := LoadCacheWithError(now, appVersion);
      if !ok {
        StartWithoutCache();
        return;
      }
      ghost var before := base.State();
      dataFromCache := true;
      base.StartWithCachedResponse(cacheData.value);
      LoadedFromCachePreservesValid(before, cacheData.value);
    }

    /**
     * `startWithCompletionBlockWithSuccess:failure:` on a YTKRequest: set the
     * two blocks, then this class's `start`, which reads the cache.
     */
    method StartWithCompletionBlock(success: Option<BlockId>, failure: Option<BlockId>,
                                    now: int, appVersion: string)
      requires Valid()
      modifies this, base
      ensures Valid()
      ensures ignoreCache == old(ignoreCache)
      ensures var s := old(base.State()).(successCompletionBlock := success, failureCompletionBlock := failure);
              var v := Verdict(cache, appVersion, now, store.Lookup(key));
              if s.phase != Idle then
                base.State() == s && dataFromCache == old(dataFromCache)
              else if old(ignoreCache) || v.Failure? then
                base.State() == Started(s, Effective(base.config)) && !dataFromCache
              else
                base.State() == LoadedFromCache(s, v.value) && dataFromCache
      ensures cacheReads == old(cacheReads) + (if old(base.phase) == Idle && !old(ignoreCache)
                                                  && cache.cacheTimeInSeconds > 0 then 1 else 0)
    {
      base.SetCompletionBlock(success, failure);
      Start(now, appVersion);
    }

    /**
     * `saveResponseDataToCacheFile:`: with a positive cache time, the entry
     * under this request's key now holds `data`; otherwise nothing is saved.
     */
    method SaveResponseDataToCacheFile(data: Bytes, now: int, appVersion: string)
      modifies store
      ensures store.entries == if cache.cacheTimeInSeconds > 0
                               then old(store.entries)[key := Written(cache, appVersion, now, data)]
                               else old(store.entries)
    {
      if cache.cacheTimeInSeconds > 0 {
        store.Write(key, Written(cache, appVersion, now, data));
      }
    }

    /**
     * The network agent hands the request its result; a successful response
     * is saved whatever `ignoreCache` says, when the cache time is positive.
     */
    method Deliver(result: TransportResult, now: int, appVersion: string)
      requires Valid()
      modifies this, base, store
      ensures Valid()
      ensures base.State() == Delivered(old(base.State()), result)
      ensures dataFromCache == old(dataFromCache) && ignoreCache == old(ignoreCache)
      ensures cacheData == old(cacheData) && cacheReads == old(cacheReads)
      ensures store.entries == if old(base.phase) == Running && Classify(result).None?
                                  && cache.cacheTimeInSeconds > 0
                               then old(store.entries)[key := Written(cache, appVersion, now, result.data)]
                               else old(store.entries)
    {
      var wasRunning := base.phase == Running;
      base.Deliver(result);
      if wasRunning && base.phase == Succeeded {
        SaveResponseDataToCacheFile(result.data, now, appVersion);
      }
    }
  }

  /**
   * A request with a cache time of 60 seconds and an empty store misses at
   * t=0, goes to the network, and saves the response it receives.
   */
  method MissScenario(config: RequestConfig, payload: Bytes, appVersion: string)
  {
    var cache := CacheConfig(60, 1, None);
    var store := new CacheStore();
    var request := new Request(config, cache, "key", store);
    request.Start(0, appVersion);
    assert request.base.phase == Running && !request.IsDataFromCache();
    request.Deliver(Response(true, true, payload), 0, appVersion);
    assert request.base.phase == Succeeded && request.base.responseData == Some(payload);
    assert store.Lookup("key") == Some(Written(cache, appVersion, 0, payload));
  }

  /**
   * A response one request saves is the response of the next request for the
   * same key, while the cache time has not passed: no transport call, no
   * completion callback besides the success pipeline.
   */
  method SaveThenLoad(config: RequestConfig, cache: CacheConfig, key: CacheKey, store: CacheStore,
                      data: Bytes, saved: int, now: int, appVersion: string) returns (request: Request)
    requires cache.cacheTimeInSeconds > 0 && now - saved <= cache.cacheTimeInSeconds
    modifies store
    ensures request.Valid() && request.IsDataFromCache()
    ensures request.base.responseData == Some(data)
    ensures request.base.trace == CompletionTrace(true, [], None, None)
  {
    var writer := new Request(config, cache, key, store);
    writer.SaveResponseDataToCacheFile(data, saved, appVersion);
    request := new Request(config, cache, key, store);
    SavedEntryLoads(cache, appVersion, saved, now, data);
    request.Start(now, appVersion);
  }

  /** The entry saved at t=0 has expired at t=90: the request goes to the network. */
  method ExpiryScenario(config: RequestConfig, payload: Bytes, appVersion: string)
  {
    var cache := CacheConfig(60, 1, None);
    var store := new CacheStore();
    store.Write("key", Written(cache, appVersion, 0, payload));
    var request := new Request(config, cache, "key", store);
    SavedEntryExpires(cache, appVersion, 0, 90, payload);
    request.Start(90, appVersion);
    assert request.base.phase == Running && !request.IsDataFromCache();
  }

  /** With the default cache time of -1 a successful response is not saved. */
  method DefaultCacheScenario(config: RequestConfig, payload: Bytes, appVersion: string)
  {
    var store := new CacheStore();
    var request := new Request(config, DefaultCacheConfig(), "key", store);
    request.Start(0, appVersion);
    assert request.base.phase == Running && request.cacheReads == 0;
    request.Deliver(Response(true, true, payload), 0, appVersion);
    assert request.base.phase == Succeeded && store.entries == map[];
  }

  /**
   * With `ignoreCache` set, a fresh entry is not read: the request goes to
   * the network, and its successful response replaces the entry.
   */
  method IgnoreCacheScenario(config: RequestConfig, stale: Bytes, latest: Bytes, appVersion: string)
  {
    var cache := CacheConfig(60, 1, None);
    var store := new CacheStore();
    store.Write("key", Written(cache, appVersion, 0, stale));

    var request := new Request(config, cache, "key", store);
    request.ignoreCache := true;
    request.Start(30, appVersion);
    assert request.base.phase == Running && request.cacheReads == 0;
    request.Deliver(Response(true, true, latest), 30, appVersion);
    assert store.Lookup("key") == Some(Written(cache, appVersion, 30, latest));
  }
}
