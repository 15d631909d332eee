# YTKNetwork request core in Dafny

This project models the request objects of YTKNetwork, an Objective-C networking
library. Two classes are covered:

- `YTKBaseRequest` describes one HTTP request through subclass overrides. It is
  started and stopped, and it reports its outcome to request accessories, a
  delegate and completion blocks.
- `YTKRequest` adds a local response cache to it. The cache is read at `start`
  and written after each successful response.

The model has six modules:

- `Common` (`common.dfy`): `Option`, `Result` and `Bytes`.
- `RequestSpec` (`request_spec.dfy`): the overrides of a request subclass, and
  the request the transport is asked to send. A custom URL request supersedes
  the overrides it covers. An absolute `requestUrl` supersedes `baseUrl`.
- `Lifecycle` (`lifecycle.dfy`): the lifecycle of a request as a value.
  - `RequestState` is the request's observable state. Its `trace` field is the
    ordered list of the notifications sent so far: accessory hooks, transport
    start and cancel, the preprocessor and filter hooks, delegate callbacks and
    completion blocks.
  - `Started`, `Stopped`, `Completed`, `Delivered` and `LoadedFromCache` are the pure
    transitions.
  - `ValidState` is the invariant they keep.
  - The lemmas state the promised order and counts of the callbacks.
- `Requests` (`base_request.dfy`): `class BaseRequest`. Its properties are
  mutable fields. Each method the header declares keeps `ValidState`, and its
  contract gives the whole new state:
  - `Start`, `Stop`, `StartWithCompletionBlock` and `Deliver` change the object
    exactly as the matching `Lifecycle` transition does;
  - `SetCompletionBlock`, `ClearCompletionBlock` and `AddAccessory` replace
    only the fields they name.

  Two internal steps, `NotifyAccessories` and
  `RunCompletionPipeline`, are proved only to append their notifications to
  the trace. The methods that call them re-establish `ValidState`.
- `CachePolicy` (`cache_policy.dfy`): the verdict `loadCacheWithError:` reaches
  about a stored entry, and the error codes of the cache error domain. Lemmas
  cover the round trip from save to load and each way an entry becomes invalid.
- `CachedRequests` (`cached_request.dfy`): `class CacheStore`, the cache
  directory shared by requests, and `class Request`, which models `YTKRequest`
  and holds a `BaseRequest`. `SaveThenLoad` shows, for all inputs, that a
  response saved by one request is the response of the next request for the
  same key while the cache time has not passed. Four scenario methods use a
  60-second cache unless noted:
  - `MissScenario`: a request at t=0 misses, fetches and saves;
  - `ExpiryScenario`: the entry saved at t=0 has expired at t=90;
  - `IgnoreCacheScenario`: with `ignoreCache` set, a fresh entry is not read
    and the new response overwrites it;
  - `DefaultCacheScenario`: with the default cache time of -1, nothing is saved.

The request's behaviour in the model. The header says only that `start`
starts the request and `stop` cancels it (YTKBaseRequest.h:309-315). Where the
header leaves an order or a condition open, the item says "(modelling decision)".

- `start` only acts on an idle request. On a request that has already started
  it does nothing (modelling decision).
- `stop` only acts on an executing request (modelling decision).
- `stop` sends `requestWillStop`, then cancels the transport, then sends
  `requestDidStop` (modelling decision).
- `stop` calls neither the delegate nor a completion block (modelling decision).
- A transport result that arrives after `stop` is dropped (modelling decision).
- When a request finishes, its completion pipeline runs these steps in order:
  1. the preprocessor;
  2. the filter;
  3. `requestWillStop` to each accessory, in the order the accessories were added;
  4. the delegate, if it implements the callback;
  5. the completion block, if it is set;
  6. `requestDidStop` to each accessory.

  The header fixes only some of this order:
  - `requestWillStop` comes before the delegate and the block, and
    `requestDidStop` after them (YTKBaseRequest.h:121-133);
  - the delegate comes before the block (:227-237);
  - the preprocessor runs before the switch to the main thread where the
    filter runs (:328-345).

  Putting the filter before `requestWillStop` is a modelling decision.
- A response that fails both validators is reported as a bad status code: the
  status code is checked before the JSON (modelling decision).
- A cache hit sends `requestWillStart` and then runs the success pipeline. It
  makes no transport call.
- The cache checks run in this order: cache time, metadata, cache version,
  sensitive data, app version, expiry, data. The first check that fails gives
  the error (modelling decision).
- A successful response is saved when `cacheTimeInSeconds` is positive, and
  not otherwise (modelling decision). The header says `ignoreCache` does not
  affect saving, and that the response is always saved (YTKRequest.h:63-64).
  It also says the default of -1 means nothing is saved (:97-100). It says
  nothing of a cache time of 0. The model reads the two passages together and
  treats every cache time of 0 or less like -1.

## Model

| member | source | states |
|---|---|---|
| RequestSpec.DefaultConfig | YTKNetwork/YTKBaseRequest.h:371-378 | By default the timeout is 60 seconds, cellular access is allowed, there is no request argument and there is no custom URL request. |
| RequestSpec.Effective | YTKNetwork/YTKBaseRequest.h:347-365 | The request is a custom request exactly when `buildCustomUrlRequest` returns one. Otherwise its URL is absolute exactly when `requestUrl` is a URL on its own, and the timeout, argument, cellular flag, method and serializer come from the overrides. |
| RequestSpec.CustomRequestIgnoresOverrides | YTKNetwork/YTKBaseRequest.h:408-412 | With a custom URL request, changing `requestUrl`, `requestTimeoutInterval`, `requestArgument`, `allowsCellularAccess`, `requestMethod` or `requestSerializerType` does not change the request sent. |
| RequestSpec.AbsoluteUrlIgnoresBaseUrl | YTKNetwork/YTKBaseRequest.h:359-360 | An absolute `requestUrl` is used as the URL, and no choice of `baseUrl` changes the request. |
| RequestSpec.RelativeUrlUsesBaseUrl | YTKNetwork/YTKBaseRequest.h:352-357 | A `requestUrl` that is not a URL on its own is a path to resolve against `baseUrl`: the request keeps `baseUrl` and the path, so `baseUrl` is not ignored. |
| RequestSpec.IsAbsoluteUrl | YTKNetwork/YTKBaseRequest.h:359-360 | A URL on its own begins with a letter, the first character of its scheme, and is longer than "a://". A path starting with '/', like the documented `/v1/user`, never is. |
| RequestSpec.UrlShapes | YTKNetwork/YTKBaseRequest.h:347-352 | The documented host `http://www.example.com` is an absolute URL, and the documented path `/v1/user` is not. |
| Lifecycle.ValidationCode | YTKNetwork/YTKBaseRequest.h:29-34 | A bad status code has code -8 and a malformed JSON response has code -9; no other code is used. |
| Lifecycle.Classify | YTKNetwork/YTKBaseRequest.h:422-428 | A result succeeds exactly when it is a response that passes both the status-code validator and the JSON validator. A network error keeps its own code. Checking the status code first is a modelling decision. |
| Lifecycle.CallbacksExactlyOnce | YTKNetwork/YTKBaseRequest.h:227-237 | In one completion, the preprocessor and the filter run exactly once each. The delegate runs once if it is set and implements the callback. The block runs once if it is set. The transport is neither started nor cancelled. |
| Lifecycle.CompletionTraceOrdered | YTKNetwork/YTKBaseRequest.h:121-133 | The completion steps never run out of order: preprocessor, filter, `requestWillStop`, delegate, block, `requestDidStop`. The header fixes the order of the last four. The place of the filter is a modelling decision. |
| Lifecycle.DelegateBeforeCompletionBlock | YTKNetwork/YTKBaseRequest.h:227-237 | When both are present, the delegate callback runs before the completion block. |
| Lifecycle.AccessoriesBracketCallbacks | YTKNetwork/YTKBaseRequest.h:121-133 | Every `requestWillStop` runs before the delegate and the block, and every `requestDidStop` runs after both. |
| Lifecycle.PreprocessorBeforeFilter | YTKNetwork/YTKBaseRequest.h:328-345 | The preprocessor hook runs before the filter hook. |
| Lifecycle.CompletionReportsOneOutcome | YTKNetwork/YTKBaseRequest.h:85-100 | A completion calls only the success hooks or only the failure hooks, matching the outcome. |
| Lifecycle.BroadcastAppend | YTKNetwork/YTKBaseRequest.h:239-242 | An accessory added last is notified last. The accessories added before it keep their notifications and their order. |
| Lifecycle.BroadcastReachesAll | YTKNetwork/YTKBaseRequest.h:104-119 | Every accessory that implements a hook is sent it. |
| Lifecycle.Started | YTKNetwork/YTKBaseRequest.h:309-311 | An idle request becomes executing, and its last notification is the transport call, after the accessories' `requestWillStart`. Any other request is unchanged. Only the phase and the trace change, and the trace only grows. |
| Lifecycle.Stopped | YTKNetwork/YTKBaseRequest.h:313-315 | An executing request becomes cancelled, and any other request is unchanged. Only the phase and the trace change, and the trace only grows. |
| Lifecycle.Completed | YTKNetwork/YTKBaseRequest.h:197-199 | The request succeeds exactly when there is no error, and otherwise fails. It keeps the error and the data. Nothing besides the phase, error, data and trace changes, and the trace only grows. |
| Lifecycle.Delivered | YTKNetwork/YTKBaseRequest.h:197-199 | A request that is not executing ignores the result. An executing one finishes with the classification of the result as its error, and with a response's data. |
| Lifecycle.LoadedFromCache | YTKNetwork/YTKRequest.h:58-61 | An idle request succeeds with no error and the cached data as its response. Any other request is unchanged. The trace only grows. |
| Lifecycle.StartedPreservesValid | YTKNetwork/YTKBaseRequest.h:309-311 | `start` keeps the lifecycle invariant: at most one transport call, and exactly one while executing. |
| Lifecycle.StoppedPreservesValid | YTKNetwork/YTKBaseRequest.h:313-315 | `stop` keeps the lifecycle invariant. A stopped request is cancelled, with exactly one transport cancel. |
| Lifecycle.CompletedPreservesValid | YTKNetwork/YTKBaseRequest.h:197-206 | Finishing an executing request keeps the invariant. Success has a nil error, failure has an error, and the filter has run once. |
| Lifecycle.DeliveredPreservesValid | YTKNetwork/YTKBaseRequest.h:197-206 | Delivering a transport result keeps the invariant. |
| Lifecycle.LoadedFromCachePreservesValid | YTKNetwork/YTKRequest.h:58-61 | A cache hit keeps the invariant, and an idle request that loads from the cache makes no transport call. |
| Lifecycle.DeliveredOutcome | YTKNetwork/YTKBaseRequest.h:197-199 | An executing request ends in success exactly when the result passes both validators, and then its error is nil. Otherwise it fails with the result's error. |
| Lifecycle.StartTwiceCallsTransportOnce | YTKNetwork/YTKBaseRequest.h:309-311 | A second `start` changes nothing, so the transport is called once. |
| Lifecycle.StopIdempotent | YTKNetwork/YTKBaseRequest.h:313-315 | A second `stop` changes nothing, so the request is cancelled once. |
| Lifecycle.StopNotifiesNoCallbacks | YTKNetwork/YTKBaseRequest.h:313-315 | `stop` calls neither the delegate nor a completion block, and a result delivered after it leaves the request unchanged. |
| Requests.BaseRequest.constructor | YTKNetwork/YTKBaseRequest.h:214-242 | A new request has tag 0, no delegate, no blocks and no accessories. It is neither executing nor cancelled, and it has no error. |
| Requests.BaseRequest.IsExecuting | YTKNetwork/YTKBaseRequest.h:204-206 | An executing request has handed its request to the transport exactly once. It has been neither cancelled nor finished. |
| Requests.BaseRequest.IsCancelled | YTKNetwork/YTKBaseRequest.h:201-202 | A cancelled request was started once and cancelled once. No filter, delegate callback or completion block ran. |
| Requests.BaseRequest.SetCompletionBlock | YTKNetwork/YTKBaseRequest.h:292-294 | Sets both blocks and changes nothing else. |
| Requests.BaseRequest.ClearCompletionBlock | YTKNetwork/YTKBaseRequest.h:296-297 | Sets both blocks to nil and changes nothing else. |
| Requests.BaseRequest.AddAccessory | YTKNetwork/YTKBaseRequest.h:299-301 | Creates the list if it is nil and appends the accessory. Every hook then reaches the new accessory after all the earlier ones. |
| Requests.BaseRequest.NotifyAccessories | YTKNetwork/YTKBaseRequest.h:104-133 | The loop sends the hook to each accessory that implements it, in the order of the list. |
| Requests.BaseRequest.Start | YTKNetwork/YTKBaseRequest.h:309-311 | The new state is `Started` of the old one. An idle request sends `requestWillStart` and then hands its effective request to the transport. |
| Requests.BaseRequest.Stop | YTKNetwork/YTKBaseRequest.h:313-315 | The new state is `Stopped` of the old one. |
| Requests.BaseRequest.StartWithCompletionBlock | YTKNetwork/YTKBaseRequest.h:317-320 | Sets the two blocks and then starts. |
| Requests.BaseRequest.RunCompletionPipeline | YTKNetwork/YTKBaseRequest.h:121-133 | Appends exactly the completion trace for the request's accessories, delegate and the block for the outcome. |
| Requests.BaseRequest.Deliver | YTKNetwork/YTKBaseRequest.h:197-199 | The new state is `Delivered` of the old one. The error is the classification of the result. |
| Requests.BaseRequest.StartWithCachedResponse | YTKNetwork/YTKBaseRequest.h:328-332 | The new state is `LoadedFromCache` of the old one: `requestWillStart`, then the success pipeline, with no transport call. |
| CachePolicy.ErrorCode | YTKNetwork/YTKRequest.h:39-47 | Every cache error code lies between -7 and -1. |
| CachePolicy.ErrorCodeRoundTrip | YTKNetwork/YTKRequest.h:39-47 | Each error kind can be recovered from its code. |
| CachePolicy.ErrorFromCodeInverse | YTKNetwork/YTKRequest.h:39-47 | Exactly the codes -7 to -1 are cache error codes, and each maps back to itself. |
| CachePolicy.ErrorCodesDistinct | YTKNetwork/YTKRequest.h:39-47 | Different error kinds have different codes. |
| CachePolicy.DefaultCacheConfig | YTKNetwork/YTKRequest.h:97-105 | By default the cache time is -1, the cache version is 0 and there is no sensitive data. |
| CachePolicy.Verdict | YTKNetwork/YTKRequest.h:75-85 | The load succeeds exactly when every check passes, and then it returns the stored bytes. A cache time that is not positive fails with InvalidCacheTime whatever is stored. |
| CachePolicy.SavedEntryLoads | YTKNetwork/YTKRequest.h:91-93 | A saved response loads back the same bytes until the cache time has passed. |
| CachePolicy.SavedEntryExpires | YTKNetwork/YTKRequest.h:97-98 | Once the cache time has passed, the same entry fails with Expired. |
| CachePolicy.VersionChangeInvalidates | YTKNetwork/YTKRequest.h:103-105 | A new `cacheVersion` invalidates every entry saved under the old one, with VersionMismatch. |
| CachePolicy.SensitiveDataChangeInvalidates | YTKNetwork/YTKRequest.h:107-116 | A different `description` of `cacheSensitiveData` invalidates the entry, with SensitiveDataMismatch. |
| CachePolicy.AppVersionChangeInvalidates | YTKNetwork/YTKRequest.h:43 | An entry saved by another app version fails with AppVersionMismatch. |
| CachePolicy.MissingMetadataInvalid | YTKNetwork/YTKRequest.h:45 | With no entry, or metadata that cannot be read, the load fails with InvalidMetadata. |
| CachePolicy.MissingDataInvalid | YTKNetwork/YTKRequest.h:46 | Metadata that passes every check, with no data beside it, fails with InvalidCacheData. |
| CachedRequests.CacheStore.Write | YTKNetwork/YTKRequest.h:91-93 | The entry under the key is replaced, and all other keys are unchanged. |
| CachedRequests.Request.constructor | YTKNetwork/YTKRequest.h:58-69 | A new request has `ignoreCache` set to NO, is not from the cache, and starts from the initial lifecycle state. |
| CachedRequests.Request.IsDataFromCache | YTKNetwork/YTKRequest.h:71-73 | A response from the cache means the request succeeded with no error and never called the transport. |
| CachedRequests.Request.LoadCacheWithError | YTKNetwork/YTKRequest.h:75-85 | Returns YES exactly when the verdict is success, and then sets no error and keeps the bytes. Otherwise it returns NO with the verdict's error. The stored files are read only when the cache time is positive. |
| CachedRequests.Request.StartWithoutCache | YTKNetwork/YTKRequest.h:87-89 | Starts the network request without reading the cache. |
| CachedRequests.Request.Start | YTKNetwork/YTKRequest.h:58-64 | An idle request with `ignoreCache` or a failed verdict goes to the network. A usable cache becomes the response, with no transport call, and `isDataFromCache` is set. A request that has already started is left unchanged. The loaded bytes are kept exactly on a hit. |
| CachedRequests.Request.StartWithCompletionBlock | YTKNetwork/YTKBaseRequest.h:317-320 | On a YTKRequest it sets the two blocks, then runs this class's `start`, which reads the cache. The new state is what `Start` gives from the old state with both blocks set. |
| CachedRequests.SaveThenLoad | YTKNetwork/YTKRequest.h:91-93 | A response saved by one request is the response of the next request for the same key while the cache time has not passed. That request succeeds with the saved bytes, makes no transport call, and runs only the success pipeline. |
| CachedRequests.Request.SaveResponseDataToCacheFile | YTKNetwork/YTKRequest.h:91-100 | With a positive cache time, the entry under this request's key holds the data, with the current version, sensitive data, app version and time. Otherwise nothing is saved. |
| CachedRequests.Request.Deliver | YTKNetwork/YTKRequest.h:63-64 | A successful response is saved to the cache even when `ignoreCache` is YES, provided the cache time is positive. A failed or dropped result leaves the cache unchanged, and so does a cache time of 0 or less. |

## Left out

- The transport is a parameter. The model leaves out AFNetworking,
  `NSURLSession`, the request queue, the agent's URL building, headers,
  authorization, the body-constructing block, CDN and priority. A request hands
  its effective request to the transport and later receives a `TransportResult`.
- Resumable downloads (`resumableDownloadPath`, progress blocks) are not
  modelled. They run on a different kind of task and are never cached.
- Validators are booleans in the result. The model does no JSON parsing, and it
  leaves out `responseObject`, `responseString`, `responseJSONObject` and
  `responseSerializerType`.
- Threads and queues are not modelled, nor is `writeCacheAsynchronously`. Every
  hook runs in one sequential order. Whether a hook runs on the main thread or
  in the background is not recorded.
- The delegate is a weak reference in the source. The model keeps it as a value
  and does not model it becoming nil.
- `userInfo` is not modelled; no operation reads it.
- Times are whole seconds (`int`). `NSTimeInterval` is a double, and its
  fractions are not modelled.
- The cache key and file layout are not modelled: how a key is derived from the
  URL, the method and the argument (`cacheFileNameFilterForRequestArgument:`),
  and the paths of the data file and the metadata file. A `CacheStore` maps a
  key to one entry.
- Unreadable cache files are modelled as a missing metadata or a missing data
  field. File system errors are not modelled.
- `cacheSensitiveData` is held as its `description` string. The model does not
  render arbitrary objects to strings.
- Absolute URL detection is a syntactic shape: a scheme, "://", then a host.
  The model does not reproduce Foundation's URL parser or `URLWithString:relativeToURL:`.
- Completion blocks and the delegate are identities. The model records which
  ones were called and in what order, not what they do.
