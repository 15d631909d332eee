/**
 * YTKBaseRequest as an object: its properties are fields, and each method
 * is proved to move the object's state exactly as the matching transition of
 * module Lifecycle does, keeping the lifecycle invariant.
 */
module Requests {
  import opened Common
  import opened RequestSpec
  import opened Lifecycle

  class BaseRequest {
    /** The values of the subclass override hooks (`baseUrl`, `requestUrl`, ...). */
    const config: RequestConfig

    var phase: Phase
    var tag: int
    var delegate: Option<Delegate>
    var successCompletionBlock: Option<BlockId>
    var failureCompletionBlock: Option<BlockId>
    var requestAccessories: Option<seq<Accessory>>
    var error: Option<RequestError>
    var responseData: Option<Bytes>
    /** The notifications sent so far, in order. */
    var trace: seq<Event>

    function State(): RequestState
      reads this
    {
      RequestState(phase, tag, delegate, successCompletionBlock, failureCompletionBlock,
                   requestAccessories, error, responseData, trace)
    }

    ghost predicate Valid()
      reads this
    {
      ValidState(State())
    }

    /** `isExecuting`: the transport has been handed the request, and nothing has ended it yet. */
    predicate IsExecuting(): (r: bool)
      reads this
      ensures r && Valid() ==> Occurrences(trace, IsTransportStart) == 1
                               && Occurrences(trace, IsTransportCancel) == 0
                               && Occurrences(trace, IsFilter) == 0
    {
      phase == Running
    }

    /** `isCancelled`: started once, cancelled once, and no callback of an outcome ran. */
    predicate IsCancelled(): (r: bool)
      reads this
      ensures r && Valid() ==> Occurrences(trace, IsTransportStart) == 1
                               && Occurrences(trace, IsTransportCancel) == 1
                               && Occurrences(trace, IsFilter) == 0
                               && Occurrences(trace, IsDelegateCallback) == 0
                               && Occurrences(trace, IsCompletionBlock) == 0
    {
      phase == Cancelled
    }

    constructor (config: RequestConfig)
      ensures Valid() && this.config == config
      ensures tag == 0 && delegate.None? && requestAccessories.None?
      ensures successCompletionBlock.None? && failureCompletionBlock.None?
      ensures !IsExecuting() && !IsCancelled() && error.None? && trace == []
      ensures State() == Initial()
    {
      this.config := config;
      phase := Idle;
      tag := 0;
      delegate := None;
      successCompletionBlock := None;
      failureCompletionBlock := None;
      requestAccessories := None;
      error := None;
      responseData := None;
      trace := [];
    }

    /** `setCompletionBlockWithSuccess:failure:` */
    method SetCompletionBlock(success: Option<BlockId>, failure: Option<BlockId>)
      requires Valid()
      modifies this
      ensures Valid()
      ensures successCompletionBlock == success && failureCompletionBlock == failure
      ensures State() == old(State()).(successCompletionBlock := success, failureCompletionBlock := failure)
    {
      successCompletionBlock := success;
      failureCompletionBlock := failure;
    }

    /** `clearCompletionBlock` */
    method ClearCompletionBlock()
      requires Valid()
      modifies this
      ensures Valid()
      ensures successCompletionBlock.None? && failureCompletionBlock.None?
      ensures State() == old(State()).(successCompletionBlock := None, failureCompletionBlock := None)
    {
      successCompletionBlock := None;
      failureCompletionBlock := None;
    }

    /** `addAccessory:` */
    method AddAccessory(accessory: Accessory)
      requires Valid()
      modifies this
      ensures Valid()
      ensures requestAccessories == Some(old(Accessories(State())) + [accessory])
      ensures State() == old(State()).(requestAccessories := requestAccessories)
      ensures forall hook :: Broadcast(hook, Accessories(State()))
                             == Broadcast(hook, old(Accessories(State()))) + Notify(hook, accessory)
    {
      if requestAccessories.None? {
        requestAccessories := Some([]);
      }
      requestAccessories := Some(requestAccessories.value + [accessory]);
      forall hook {
        BroadcastAppend(hook, old(Accessories(State())), accessory);
      }
    }

    /** Sends `hook` to the accessories one by one, in the order they were added. */
    method NotifyAccessories(hook: Hook)
      modifies this`trace
      ensures trace == old(trace) + Broadcast(hook, requestAccessories.GetOr([]))
    {
      var accessories := requestAccessories.GetOr([]);
      var i := 0;
      while i < |accessories|
        invariant 0 <= i <= |accessories|
        invariant trace == old(trace) + Broadcast(hook, accessories[..i])
      {
        var a := accessories[i];
        if hook in a.implements {
          trace := trace + [AccessoryHook(hook, a.id)];
        }
        BroadcastAppend(hook, accessories[..i], a);
        assert accessories[..i + 1] == accessories[..i] + [a];
        i := i + 1;
      }
      assert accessories[..i] == accessories;
    }

    /** `start` */
    method Start()
      requires Valid()
      modifies this
      ensures Valid()
      ensures State() == Started(old(State()), Effective(config))
    {
      if phase != Idle {
        return;
      }
      NotifyAccessories(WillStart);
      trace := trace + [TransportStarted(Effective(config))];
      phase := Running;
      StartedPreservesValid(old(State()), Effective(config));
    }

    /** `stop` */
    method Stop()
      requires Valid()
      modifies this
      ensures Valid()
      ensures State() == Stopped(old(State()))
    {
      if phase != Running {
        return;
      }
      NotifyAccessories(WillStop);
      trace := trace + [TransportCancelled];
      phase := Cancelled;
      NotifyAccessories(DidStop);
      StoppedPreservesValid(old(State()));
    }

    /** `startWithCompletionBlockWithSuccess:failure:`: set the two blocks, then `start`. */
    method StartWithCompletionBlock(success: Option<BlockId>, failure: Option<BlockId>)
      requires Valid()
      modifies this
      ensures Valid()
      ensures State() == Started(old(State()).(successCompletionBlock := success,
                                               failureCompletionBlock := failure),
                                 Effective(config))
    {
      SetCompletionBlock(success, failure);
      Start();
    }

    /** The completion pipeline of one terminal event. */
    method RunCompletionPipeline(succeeded: bool)
      modifies this`trace
      ensures trace == old(trace) + CompletionTrace(succeeded, Accessories(State()), delegate,
                                                    if succeeded then successCompletionBlock
                                                    else failureCompletionBlock)
    {
      ghost var accessories := requestAccessories.GetOr([]);
      var block := if succeeded then successCompletionBlock else failureCompletionBlock;
      ghost var w := Broadcast(WillStop, accessories);
      ghost var d := DelegateNotice(succeeded, delegate);
      ghost var b := BlockNotice(succeeded, block);
      ghost var ds := Broadcast(DidStop, accessories);
      trace := trace + [Preprocessor(succeeded)];
      trace := trace + [Filter(succeeded)];
      NotifyAccessories(WillStop);
      assert trace == old(trace) + [Preprocessor(succeeded), Filter(succeeded)] + w;
      if delegate.Some? && Implements(delegate.value, succeeded) {
        trace := trace + [DelegateCallback(succeeded, delegate.value.id)];
      }
      assert trace == old(trace) + [Preprocessor(succeeded), Filter(succeeded)] + w + d;
      if block.Some? {
        trace := trace + [CompletionBlock(succeeded, block.value)];
      }
      assert trace == old(trace) + [Preprocessor(succeeded), Filter(succeeded)] + w + d + b;
      NotifyAccessories(DidStop);
      assert trace == old(trace) + ([Preprocessor(succeeded), Filter(succeeded)] + w + d + b + ds);
    }

    /** The network agent hands the request its result. */
    method Deliver(result: TransportResult)
      requires Valid()
      modifies this
      ensures Valid()
      ensures State() == Delivered(old(State()), result)
    {
      if phase != Running {
        return;
      }
      var e := Classify(result);
      RunCompletionPipeline(e.None?);
      error := e;
      responseData := if result.Response? then Some(result.data) else None;
      phase := if e.None? then Succeeded else Failed;
      DeliveredPreservesValid(old(State()), result);
    }

    /** The cache-hit branch of YTKRequest's `start`: succeed with `data`, no transport call. */
    method StartWithCachedResponse(data: Bytes)
      requires Valid()
      modifies this
      ensures Valid()
      ensures State() == LoadedFromCache(old(State()), data)
    {
      if phase != Idle {
        return;
      }
      NotifyAccessories(WillStart);
      RunCompletionPipeline(true);
      error := None;
      responseData := Some(data);
      phase := Succeeded;
      LoadedFromCachePreservesValid(old(State()), data);
    }
  }
}
