/**
 * The verdict YTKRequest's `loadCacheWithError:` reaches about a stored
 * cache entry: the cached bytes, or the first check that fails.
 *
 * Checks, in this order: the cache time must be positive; the metadata must
 * exist; the cache version, the sensitive-data description and the app
 * version must match; the entry must not be older than the cache time; the
 * data must exist.
 */
module CachePolicy {
  import opened Common

  /** The codes of `YTKRequestCacheErrorDomain`. */
  datatype CacheError =
    | Expired
    | VersionMismatch
    | SensitiveDataMismatch
    | AppVersionMismatch
    | InvalidCacheTime
    | InvalidMetadata
    | InvalidCacheData

  function ErrorCode(e: CacheError): (c: int)
    ensures -7 <= c <= -1
  {
    match e
    case Expired => -1
    case VersionMismatch => -2
    case SensitiveDataMismatch => -3
    case AppVersionMismatch => -4
    case InvalidCacheTime => -5
    case InvalidMetadata => -6
    case InvalidCacheData => -7
  }

  /** The error kind an `NSError` code of the cache domain stands for. */
  function ErrorFromCode(c: int): Option<CacheError> {
    if c == -1 then Some(Expired)
    else if c == -2 then Some(VersionMismatch)
    else if c == -3 then Some(SensitiveDataMismatch)
    else if c == -4 then Some(AppVersionMismatch)
    else if c == -5 then Some(InvalidCacheTime)
    else if c == -6 then Some(InvalidMetadata)
    else if c == -7 then Some(InvalidCacheData)
    else None
  }

  /** Each kind's code identifies it. */
  lemma ErrorCodeRoundTrip(e: CacheError)
    ensures ErrorFromCode(ErrorCode(e)) == Some(e)
  {
  }

  /** Exactly the codes -1..-7 are cache error codes. */
  lemma ErrorFromCodeInverse(c: int)
    ensures ErrorFromCode(c).Some? <==> -7 <= c <= -1
    ensures ErrorFromCode(c).Some? ==> ErrorCode(ErrorFromCode(c).value) == c
  {
  }

  /** The seven kinds have seven distinct codes. */
  lemma ErrorCodesDistinct(e1: CacheError, e2: CacheError)
    requires e1 != e2
    ensures ErrorCode(e1) != ErrorCode(e2)
  {
    ErrorCodeRoundTrip(e1);
    ErrorCodeRoundTrip(e2);
  }

  /**
   * The cache overrides of a YTKRequest subclass; `cacheSensitiveData` is
   * held as its `description` string.
   */
  datatype CacheConfig = CacheConfig(cacheTimeInSeconds: int, cacheVersion: int,
                                     cacheSensitiveData: Option<string>)

  /** `cacheTimeInSeconds` -1, `cacheVersion` 0, no sensitive data. */
  function DefaultCacheConfig(): (c: CacheConfig)
    ensures c.cacheTimeInSeconds == -1 && c.cacheVersion == 0 && c.cacheSensitiveData.None?
  {
    CacheConfig(-1, 0, None)
  }

  /** What is written beside the data; times are whole seconds. */
  datatype CacheMetadata = CacheMetadata(version: int, sensitiveDataString: Option<string>,
                                         appVersionString: string, creationDate: int)

  /** A stored entry: metadata and data, each missing when it cannot be read back. */
  datatype CacheEntry = CacheEntry(metadata: Option<CacheMetadata>, data: Option<Bytes>)

  /** The entry can serve as the response: every check passes. */
  predicate Usable(config: CacheConfig, appVersion: string, now: int, stored: Option<CacheEntry>) {
    && config.cacheTimeInSeconds > 0
    && stored.Some?
    && stored.value.metadata.Some?
    && stored.value.metadata.value.version == config.cacheVersion
    && stored.value.metadata.value.sensitiveDataString == config.cacheSensitiveData
    && stored.value.metadata.value.appVersionString == appVersion
    && now - stored.value.metadata.value.creationDate <= config.cacheTimeInSeconds
    && stored.value.data.Some?
  }

  /** The outcome of loading `stored` at time `now` under `config`, checks in the order above. */
  function Verdict(config: CacheConfig, appVersion: string, now: int, stored: Option<CacheEntry>)
    : (r: Result<Bytes, CacheError>)
    ensures r.Success? <==> Usable(config, appVersion, now, stored)
    ensures r.Success? ==> r.value == stored.value.data.value
    ensures config.cacheTimeInSeconds <= 0 ==> r == Failure(InvalidCacheTime)
  {
    if config.cacheTimeInSeconds <= 0 then Failure(InvalidCacheTime)
    else if stored.None? || stored.value.metadata.None? then Failure(InvalidMetadata)
    else
      var m := stored.value.metadata.value;
      if m.version != config.cacheVersion then Failure(VersionMismatch)
      else if m.sensitiveDataString != config.cacheSensitiveData then Failure(SensitiveDataMismatch)
      else if m.appVersionString != appVersion then Failure(AppVersionMismatch)
      else if now - m.creationDate > config.cacheTimeInSeconds then Failure(Expired)
      else if stored.value.data.None? then Failure(InvalidCacheData)
      else Success(stored.value.data.value)
  }

  /** The entry saved for a response `data` at time `now`. */
  function Written(config: CacheConfig, appVersion: string, now: int, data: Bytes): CacheEntry {
    CacheEntry(Some(CacheMetadata(config.cacheVersion, config.cacheSensitiveData, appVersion, now)), Some(data))
  }

  /** A saved entry loads back the same bytes within the cache time. */
  lemma SavedEntryLoads(config: CacheConfig, appVersion: string, saved: int, now: int, data: Bytes)
    requires config.cacheTimeInSeconds > 0
    requires now - saved <= config.cacheTimeInSeconds
    ensures Verdict(config, appVersion, now, Some(Written(config, appVersion, saved, data))) == Success(data)
  {
  }

  /** After the cache time has passed the same entry is expired. */
  lemma SavedEntryExpires(config: CacheConfig, appVersion: string, saved: int, now: int, data: Bytes)
    requires config.cacheTimeInSeconds > 0
    requires now - saved > config.cacheTimeInSeconds
    ensures Verdict(config, appVersion, now, Some(Written(config, appVersion, saved, data))) == Failure(Expired)
  {
  }

  /** A new `cacheVersion` invalidates every entry saved under the old one. */
  lemma VersionChangeInvalidates(config: CacheConfig, appVersion: string, saved: int, now: int, data: Bytes,
                                 newVersion: int)
    requires config.cacheTimeInSeconds > 0 && newVersion != config.cacheVersion
    ensures Verdict(config.(cacheVersion := newVersion), appVersion, now,
                    Some(Written(config, appVersion, saved, data))) == Failure(VersionMismatch)
  {
  }

  /** A different sensitive-data description invalidates the entry, nil counting as a value of its own. */
  lemma SensitiveDataChangeInvalidates(config: CacheConfig, appVersion: string, saved: int, now: int,
                                       data: Bytes, newSensitiveData: Option<string>)
    requires config.cacheTimeInSeconds > 0 && newSensitiveData != config.cacheSensitiveData
    ensures Verdict(config.(cacheSensitiveData := newSensitiveData), appVersion, now,
                    Some(Written(config, appVersion, saved, data))) == Failure(SensitiveDataMismatch)
  {
  }

  /** An app update invalidates every entry saved by the previous version. */
  lemma AppVersionChangeInvalidates(config: CacheConfig, appVersion: string, saved: int, now: int,
                                    data: Bytes, newAppVersion: string)
    requires config.cacheTimeInSeconds > 0 && newAppVersion != appVersion
    ensures Verdict(config, newAppVersion, now, Some(Written(config, appVersion, saved, data)))
            == Failure(AppVersionMismatch)
  {
  }

  /** Without an entry, or with unreadable metadata, the load fails with InvalidMetadata. */
  lemma MissingMetadataInvalid(config: CacheConfig, appVersion: string, now: int, stored: Option<CacheEntry>)
    requires config.cacheTimeInSeconds > 0
    requires stored.None? || stored.value.metadata.None?
    ensures Verdict(config, appVersion, now, stored) == Failure(InvalidMetadata)
  {
  }

  /** Metadata that passes every check over missing data fails with InvalidCacheData. */
  lemma MissingDataInvalid(config: CacheConfig, appVersion: string, saved: int, now: int)
    requires config.cacheTimeInSeconds > 0
    requires now - saved <= config.cacheTimeInSeconds
    ensures Verdict(config, appVersion, now,
                    Some(CacheEntry(Some(CacheMetadata(config.cacheVersion, config.cacheSensitiveData,
                                                       appVersion, saved)), None)))
            == Failure(InvalidCacheData)
  {
  }
}
