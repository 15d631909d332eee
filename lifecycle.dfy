/**
 * The lifecycle of a YTKBaseRequest as a value: its observable state, the
 * trace of notifications it has sent, and the pure transitions that `start`,
 * `stop`, the network agent's completion and a cache hit apply to it.
 * The class `Requests.BaseRequest` is proved against these transitions.
 */
module Lifecycle {
  import opened Common
  import opened RequestSpec

  /** The three optional methods of the `YTKRequestAccessory` protocol. */
  datatype Hook = WillStart | WillStop | DidStop

  /** An accessory: its identity and the optional hooks it implements. */
  datatype Accessory = Accessory(id: nat, implements: set<Hook>)

  /** A `YTKRequestDelegate`: its identity and the optional methods it implements. */
  datatype Delegate = Delegate(id: nat, implementsFinished: bool, implementsFailed: bool)

  /** `requestFinished` on success, `requestFailed` on failure. */
  predicate Implements(d: Delegate, succeeded: bool) {
    if succeeded then d.implementsFinished else d.implementsFailed
  }

  /** The identity of a completion block. */
  type BlockId = nat

  /** The codes of `YTKRequestValidationErrorDomain`. */
  datatype ValidationError = InvalidStatusCode | InvalidJSONFormat

  function ValidationCode(v: ValidationError): (c: int)
    ensures c == -8 || c == -9
    ensures c == -8 <==> v == InvalidStatusCode
  {
    match v
    case InvalidStatusCode => -8
    case InvalidJSONFormat => -9
  }

  /** The `error` of a finished request: a validation error or the transport's own error. */
  datatype RequestError = Validation(kind: ValidationError) | TransportFailure(code: int)

  /**
   * What the network agent hands back: a response, already judged by the
   * request's `statusCodeValidator` and `jsonValidator`, or a network error.
   */
  datatype TransportResult =
    | Response(statusCodeValid: bool, jsonValid: bool, data: Bytes)
    | NetworkError(code: int)

  /** The error a result ends the request with; `None` is success. */
  function Classify(result: TransportResult): (e: Option<RequestError>)
    ensures e.None? <==> result.Response? && result.statusCodeValid && result.jsonValid
    ensures result.NetworkError? ==> e == Some(TransportFailure(result.code))
    ensures result.Response? && e.Some? ==> e.value.Validation?
    ensures result.Response? && !result.statusCodeValid ==> e == Some(Validation(InvalidStatusCode))
    ensures result.Response? && result.statusCodeValid && !result.jsonValid ==> e == Some(Validation(InvalidJSONFormat))
  {
    match result
    case NetworkError(code) => Some(TransportFailure(code))
    case Response(statusOk, jsonOk, _) =>
      if !statusOk then Some(Validation(InvalidStatusCode))
      else if !jsonOk then Some(Validation(InvalidJSONFormat))
      else None
  }

  /** One observable side effect of a request. */
  datatype Event =
    | AccessoryHook(hook: Hook, accessory: nat)
    | TransportStarted(request: EffectiveRequest)
    | TransportCancelled
    | Preprocessor(succeeded: bool)     // requestCompletePreprocessor / requestFailedPreprocessor
    | Filter(succeeded: bool)           // requestCompleteFilter / requestFailedFilter
    | DelegateCallback(succeeded: bool, delegate: nat)  // requestFinished / requestFailed
    | CompletionBlock(succeeded: bool, block: BlockId)

  predicate IsTransportStart(e: Event) { e.TransportStarted? }
  predicate IsTransportCancel(e: Event) { e.TransportCancelled? }
  predicate IsPreprocessor(e: Event) { e.Preprocessor? }
  predicate IsFilter(e: Event) { e.Filter? }
  predicate IsDelegateCallback(e: Event) { e.DelegateCallback? }
  predicate IsCompletionBlock(e: Event) { e.CompletionBlock? }

  /** Idle, then executing, then finished one way or the other, or cancelled. */
  datatype Phase = Idle | Running | Succeeded | Failed | Cancelled

  /** Everything about a YTKBaseRequest that its operations read or change. */
  datatype RequestState = RequestState(
    phase: Phase,
    tag: int,
    delegate: Option<Delegate>,
    successCompletionBlock: Option<BlockId>,
    failureCompletionBlock: Option<BlockId>,
    requestAccessories: Option<seq<Accessory>>,
    error: Option<RequestError>,
    responseData: Option<Bytes>,
    trace: seq<Event>)

  /** The accessories, a nil array read as an empty one. */
  function Accessories(s: RequestState): seq<Accessory> {
    s.requestAccessories.GetOr([])
  }

  /** The notification one accessory receives for `hook`, if it implements it. */
  function Notify(hook: Hook, a: Accessory): seq<Event> {
    if hook in a.implements then [AccessoryHook(hook, a.id)] else []
  }

  /** `hook` sent to every accessory, in the order they were added. */
  function Broadcast(hook: Hook, accessories: seq<Accessory>): seq<Event> {
    if accessories == [] then []
    else Notify(hook, accessories[0]) + Broadcast(hook, accessories[1..])
  }

  /** The number of events of `t` that satisfy `p`. */
  function Occurrences(t: seq<Event>, p: Event -> bool): nat {
    if t == [] then 0 else (if p(t[0]) then 1 else 0) + Occurrences(t[1..], p)
  }

  function DelegateNotice(succeeded: bool, delegate: Option<Delegate>): seq<Event> {
    if delegate.Some? && Implements(delegate.value, succeeded)
    then [DelegateCallback(succeeded, delegate.value.id)] else []
  }

  function BlockNotice(succeeded: bool, block: Option<BlockId>): seq<Event> {
    if block.Some? then [CompletionBlock(succeeded, block.value)] else []
  }

  /**
   * The notifications of one terminal event: preprocessor, filter, every
   * accessory's `requestWillStop`, the delegate, the completion block, every
   * accessory's `requestDidStop`.
   */
  function CompletionTrace(succeeded: bool, accessories: seq<Accessory>, delegate: Option<Delegate>,
                           block: Option<BlockId>): seq<Event>
  {
    [Preprocessor(succeeded), Filter(succeeded)]
    + Broadcast(WillStop, accessories)
    + DelegateNotice(succeeded, delegate)
    + BlockNotice(succeeded, block)
    + Broadcast(DidStop, accessories)
  }

  // ---------------------------------------------------------------------------
  // Transitions

  /** `u` is `t` with events appended: notifications are never taken back. */
  predicate Extends(t: seq<Event>, u: seq<Event>) {
    |t| <= |u| && u[..|t|] == t
  }

  /** A new request: idle, tag 0, no delegate, no blocks, no accessories array. */
  function Initial(): RequestState {
    RequestState(Idle, 0, None, None, None, None, None, None, [])
  }

  /** `start`: accessories hear `requestWillStart`, then the transport is handed the request. */
  function Started(s: RequestState, request: EffectiveRequest): (r: RequestState)
    ensures s.phase == Idle ==> r.phase == Running
    ensures s.phase != Idle ==> r == s
    ensures r.(phase := s.phase, trace := s.trace) == s
    ensures Extends(s.trace, r.trace)
    ensures s.phase == Idle ==> |r.trace| > 0 && r.trace[|r.trace| - 1] == TransportStarted(request)
  {
    if s.phase != Idle then s
    else s.(phase := Running,
            trace := s.trace + Broadcast(WillStart, Accessories(s)) + [TransportStarted(request)])
  }

  /** `stop`: an executing request is cancelled, bracketed by the accessories' stop hooks. */
  function Stopped(s: RequestState): (r: RequestState)
    ensures s.phase == Running ==> r.phase == Cancelled
    ensures s.phase != Running ==> r == s
    ensures r.(phase := s.phase, trace := s.trace) == s
    ensures Extends(s.trace, r.trace)
  {
    if s.phase != Running then s
    else s.(phase := Cancelled,
            trace := s.trace + Broadcast(WillStop, Accessories(s)) + [TransportCancelled]
                     + Broadcast(DidStop, Accessories(s)))
  }

  /** The terminal event itself: outcome, error, data, and the completion notifications. */
  function Completed(s: RequestState, error: Option<RequestError>, data: Option<Bytes>): (r: RequestState)
    ensures r.phase == Succeeded <==> error.None?
    ensures r.phase == Succeeded || r.phase == Failed
    ensures r.error == error && r.responseData == data
    ensures r.(phase := s.phase, error := s.error, responseData := s.responseData, trace := s.trace) == s
    ensures Extends(s.trace, r.trace)
  {
    var succeeded := error.None?;
    s.(phase := if succeeded then Succeeded else Failed,
       error := error,
       responseData := data,
       trace := s.trace + CompletionTrace(succeeded, Accessories(s), s.delegate,
                                          if succeeded then s.successCompletionBlock
                                          else s.failureCompletionBlock))
  }

  /** The network agent hands an executing request its result; a late result is dropped. */
  function Delivered(s: RequestState, result: TransportResult): (r: RequestState)
    ensures s.phase != Running ==> r == s
    ensures s.phase == Running ==> r.error == Classify(result) && (r.phase == Succeeded || r.phase == Failed)
    ensures s.phase == Running && result.Response? ==> r.responseData == Some(result.data)
    ensures Extends(s.trace, r.trace)
  {
    if s.phase != Running then s
    else Completed(s, Classify(result), if result.Response? then Some(result.data) else None)
  }

  /** `start` of a YTKRequest whose cache loaded: it succeeds with the cached data, no transport. */
  function LoadedFromCache(s: RequestState, data: Bytes): (r: RequestState)
    ensures s.phase != Idle ==> r == s
    ensures s.phase == Idle ==> r.phase == Succeeded && r.error.None? && r.responseData == Some(data)
    ensures Extends(s.trace, r.trace)
  {
    if s.phase != Idle then s
    else Completed(s.(trace := s.trace + Broadcast(WillStart, Accessories(s))), None, Some(data))
  }

  /**
   * The invariant of a request: nothing has happened before `start`; the
   * transport is called at most once; a finished request ran exactly one
   * completion pipeline, calling the delegate and a completion block at most
   * once each; a cancelled one was started once, cancelled once and called
   * back nobody; the error is nil exactly on success.
   */
  ghost predicate ValidState(s: RequestState) {
    && (s.phase == Idle ==> s.trace == [])
    && Occurrences(s.trace, IsTransportStart) <= 1
    && (s.phase == Running || s.phase == Cancelled ==> Occurrences(s.trace, IsTransportStart) == 1)
    && Occurrences(s.trace, IsFilter) == (if s.phase == Succeeded || s.phase == Failed then 1 else 0)
    && Occurrences(s.trace, IsTransportCancel) == (if s.phase == Cancelled then 1 else 0)
    && Occurrences(s.trace, IsDelegateCallback) <= (if s.phase == Succeeded || s.phase == Failed then 1 else 0)
    && Occurrences(s.trace, IsCompletionBlock) <= (if s.phase == Succeeded || s.phase == Failed then 1 else 0)
    && (s.phase == Succeeded ==> s.error.None?)
    && (s.phase == Failed ==> s.error.Some?)
  }

  // ---------------------------------------------------------------------------
  // Counting events

  lemma {:induction false} OccurrencesAppend(a: seq<Event>, b: seq<Event>, p: Event -> bool)
    ensures Occurrences(a + b, p) == Occurrences(a, p) + Occurrences(b, p)
  {
    if a == [] {
      assert a + b == b;
    } else {
      assert (a + b)[1..] == a[1..] + b;
      OccurrencesAppend(a[1..], b, p);
    }
  }

  /** Accessory notifications are invisible to any count that ignores accessory hooks. */
  lemma {:induction false} BroadcastInvisible(hook: Hook, accessories: seq<Accessory>, p: Event -> bool)
    requires forall h, id :: !p(AccessoryHook(h, id))
    ensures Occurrences(Broadcast(hook, accessories), p) == 0
  {
    if accessories != [] {
      var n := Notify(hook, accessories[0]);
      assert Occurrences(n, p) == 0 by {
        if n != [] {
          assert n[1..] == [];
        }
      }
      BroadcastInvisible(hook, accessories[1..], p);
      OccurrencesAppend(n, Broadcast(hook, accessories[1..]), p);
    }
  }

  lemma OccurrencesSingle(e: Event, p: Event -> bool)
    ensures Occurrences([e], p) == if p(e) then 1 else 0
  {
    assert [e][1..] == [];
  }

  /** How often the completion pipeline produces an event that is not an accessory hook. */
  lemma CompletionTraceCount(succeeded: bool, accessories: seq<Accessory>, delegate: Option<Delegate>,
                             block: Option<BlockId>, p: Event -> bool)
    requires forall h, id :: !p(AccessoryHook(h, id))
    ensures Occurrences(CompletionTrace(succeeded, accessories, delegate, block), p)
            == (if p(Preprocessor(succeeded)) then 1 else 0) + (if p(Filter(succeeded)) then 1 else 0)
               + Occurrences(DelegateNotice(succeeded, delegate), p)
               + Occurrences(BlockNotice(succeeded, block), p)
  {
    var pf := [Preprocessor(succeeded), Filter(succeeded)];
    var w := Broadcast(WillStop, accessories);
    var d := DelegateNotice(succeeded, delegate);
    var b := BlockNotice(succeeded, block);
    var ds := Broadcast(DidStop, accessories);
    BroadcastInvisible(WillStop, accessories, p);
    BroadcastInvisible(DidStop, accessories, p);
    OccurrencesAppend(pf + w + d + b, ds, p);
    OccurrencesAppend(pf + w + d, b, p);
    OccurrencesAppend(pf + w, d, p);
    OccurrencesAppend(pf, w, p);
    OccurrencesAppend([Preprocessor(succeeded)], [Filter(succeeded)], p);
    assert pf == [Preprocessor(succeeded)] + [Filter(succeeded)];
    OccurrencesSingle(Preprocessor(succeeded), p);
    OccurrencesSingle(Filter(succeeded), p);
  }

  /**
   * In one terminal event the preprocessor and the filter run exactly once,
   * the delegate exactly once when it is set and implements the hook, the
   * completion block exactly once when it is set; and no transport call is
   * made or cancelled.
   */
  lemma CallbacksExactlyOnce(succeeded: bool, accessories: seq<Accessory>, delegate: Option<Delegate>,
                             block: Option<BlockId>)
    ensures var t := CompletionTrace(succeeded, accessories, delegate, block);
            && Occurrences(t, IsPreprocessor) == 1
            && Occurrences(t, IsFilter) == 1
            && Occurrences(t, IsDelegateCallback)
               == (if delegate.Some? && Implements(delegate.value, succeeded) then 1 else 0)
            && Occurrences(t, IsCompletionBlock) == (if block.Some? then 1 else 0)
            && Occurrences(t, IsTransportStart) == 0
            && Occurrences(t, IsTransportCancel) == 0
  {
    var d := DelegateNotice(succeeded, delegate);
    var b := BlockNotice(succeeded, block);
    if d != [] { OccurrencesSingle(d[0], IsDelegateCallback); assert d == [d[0]]; }
    if b != [] { OccurrencesSingle(b[0], IsCompletionBlock); assert b == [b[0]]; }
    if d != [] {
      assert d == [d[0]];
      OccurrencesSingle(d[0], IsPreprocessor);
      OccurrencesSingle(d[0], IsFilter);
      OccurrencesSingle(d[0], IsCompletionBlock);
      OccurrencesSingle(d[0], IsTransportStart);
      OccurrencesSingle(d[0], IsTransportCancel);
    }
    if b != [] {
      assert b == [b[0]];
      OccurrencesSingle(b[0], IsPreprocessor);
      OccurrencesSingle(b[0], IsFilter);
      OccurrencesSingle(b[0], IsDelegateCallback);
      OccurrencesSingle(b[0], IsTransportStart);
      OccurrencesSingle(b[0], IsTransportCancel);
    }
    CompletionTraceCount(succeeded, accessories, delegate, block, IsPreprocessor);
    CompletionTraceCount(succeeded, accessories, delegate, block, IsFilter);
    CompletionTraceCount(succeeded, accessories, delegate, block, IsDelegateCallback);
    CompletionTraceCount(succeeded, accessories, delegate, block, IsCompletionBlock);
    CompletionTraceCount(succeeded, accessories, delegate, block, IsTransportStart);
    CompletionTraceCount(succeeded, accessories, delegate, block, IsTransportCancel);
  }

  // ---------------------------------------------------------------------------
  // Order of notifications

  /** The position of an event in the completion pipeline (events outside it: 0). */
  function Step(e: Event): nat {
    match e
    case Preprocessor(_) => 0
    case Filter(_) => 1
    case AccessoryHook(h, _) => if h == DidStop then 5 else 2
    case DelegateCallback(_, _) => 3
    case CompletionBlock(_, _) => 4
    case TransportStarted(_) => 0
    case TransportCancelled => 0
  }

  ghost predicate Ordered(t: seq<Event>) {
    forall i, j :: 0 <= i <= j < |t| ==> Step(t[i]) <= Step(t[j])
  }

  lemma {:induction false} BroadcastOnlyHooks(hook: Hook, accessories: seq<Accessory>)
    ensures forall e :: e in Broadcast(hook, accessories) ==> e.AccessoryHook? && e.hook == hook
  {
    if accessories != [] {
      BroadcastOnlyHooks(hook, accessories[1..]);
    }
  }

  /** Appending a segment of step `k` to an ordered trace whose steps are at most `k`. */
  lemma Extend(a: seq<Event>, b: seq<Event>, k: nat)
    requires Ordered(a)
    requires forall x :: x in a ==> Step(x) <= k
    requires forall y :: y in b ==> Step(y) == k
    ensures Ordered(a + b)
    ensures forall x :: x in a + b ==> Step(x) <= k
  {
    var t := a + b;
    forall i, j | 0 <= i <= j < |t|
      ensures Step(t[i]) <= Step(t[j])
    {
      if j < |a| {
        assert t[i] == a[i] && t[j] == a[j];
      } else if i < |a| {
        assert t[i] == a[i] && a[i] in a;
        assert t[j] == b[j - |a|] && b[j - |a|] in b;
      } else {
        assert t[i] == b[i - |a|] && b[i - |a|] in b;
        assert t[j] == b[j - |a|] && b[j - |a|] in b;
      }
    }
  }

  /** The completion pipeline never runs a step before an earlier one. */
  lemma CompletionTraceOrdered(succeeded: bool, accessories: seq<Accessory>, delegate: Option<Delegate>,
                               block: Option<BlockId>)
    ensures var t := CompletionTrace(succeeded, accessories, delegate, block);
            forall i, j :: 0 <= i < |t| && 0 <= j < |t| && Step(t[i]) < Step(t[j]) ==> i < j
  {
    var pf := [Preprocessor(succeeded), Filter(succeeded)];
    var w := Broadcast(WillStop, accessories);
    var d := DelegateNotice(succeeded, delegate);
    var b := BlockNotice(succeeded, block);
    var ds := Broadcast(DidStop, accessories);
    BroadcastOnlyHooks(WillStop, accessories);
    BroadcastOnlyHooks(DidStop, accessories);
    assert Ordered(pf);
    Extend(pf, w, 2);
    Extend(pf + w, d, 3);
    Extend(pf + w + d, b, 4);
    Extend(pf + w + d + b, ds, 5);
  }

  /** The delegate's `requestFinished`/`requestFailed` runs before the completion block. */
  lemma DelegateBeforeCompletionBlock(succeeded: bool, accessories: seq<Accessory>, delegate: Option<Delegate>,
                                     block: Option<BlockId>)
    ensures var t := CompletionTrace(succeeded, accessories, delegate, block);
            forall i, j :: 0 <= i < |t| && 0 <= j < |t| && t[i].DelegateCallback? && t[j].CompletionBlock?
                           ==> i < j
  {
    CompletionTraceOrdered(succeeded, accessories, delegate, block);
  }

  /**
   * Every `requestWillStop` runs before the delegate and the completion block,
   * and every `requestDidStop` after both.
   */
  lemma AccessoriesBracketCallbacks(succeeded: bool, accessories: seq<Accessory>, delegate: Option<Delegate>,
                                    block: Option<BlockId>)
    ensures var t := CompletionTrace(succeeded, accessories, delegate, block);
            forall i, j :: 0 <= i < |t| && 0 <= j < |t| && (t[j].DelegateCallback? || t[j].CompletionBlock?)
                           ==> (t[i].AccessoryHook? && t[i].hook == WillStop ==> i < j)
                               && (t[i].AccessoryHook? && t[i].hook == DidStop ==> j < i)
  {
    CompletionTraceOrdered(succeeded, accessories, delegate, block);
  }

  /** The preprocessor runs before the filter. */
  lemma PreprocessorBeforeFilter(succeeded: bool, accessories: seq<Accessory>, delegate: Option<Delegate>,
                                 block: Option<BlockId>)
    ensures var t := CompletionTrace(succeeded, accessories, delegate, block);
            forall i, j :: 0 <= i < |t| && 0 <= j < |t| && t[i].Preprocessor? && t[j].Filter? ==> i < j
  {
    CompletionTraceOrdered(succeeded, accessories, delegate, block);
  }

  /** A success notifies only success hooks, a failure only failure hooks. */
  lemma CompletionReportsOneOutcome(succeeded: bool, accessories: seq<Accessory>, delegate: Option<Delegate>,
                                    block: Option<BlockId>)
    ensures forall e :: e in CompletionTrace(succeeded, accessories, delegate, block) && !e.AccessoryHook?
                        ==> (e.Preprocessor? || e.Filter? || e.DelegateCallback? || e.CompletionBlock?)
                            && e.succeeded == succeeded
  {
    BroadcastOnlyHooks(WillStop, accessories);
    BroadcastOnlyHooks(DidStop, accessories);
  }

  // ---------------------------------------------------------------------------
  // Accessories

  /**
   * An accessory added last is notified last; the accessories added before
   * it keep their notifications and their order.
   */
  lemma {:induction false} BroadcastAppend(hook: Hook, accessories: seq<Accessory>, a: Accessory)
    ensures Broadcast(hook, accessories + [a]) == Broadcast(hook, accessories) + Notify(hook, a)
  {
    if accessories == [] {
      assert accessories + [a] == [a];
      assert [a][1..] == [];
    } else {
      assert (accessories + [a])[0] == accessories[0];
      assert (accessories + [a])[1..] == accessories[1..] + [a];
      BroadcastAppend(hook, accessories[1..], a);
    }
  }

  /** Every accessory that implements a hook hears it. */
  lemma {:induction false} BroadcastReachesAll(hook: Hook, accessories: seq<Accessory>)
    ensures forall i :: 0 <= i < |accessories| && hook in accessories[i].implements
                        ==> AccessoryHook(hook, accessories[i].id) in Broadcast(hook, accessories)
  {
    if accessories != [] {
      BroadcastReachesAll(hook, accessories[1..]);
      forall i | 0 <= i < |accessories| && hook in accessories[i].implements
        ensures AccessoryHook(hook, accessories[i].id) in Broadcast(hook, accessories)
      {
        if i > 0 {
          assert accessories[i] == accessories[1..][i - 1];
        }
      }
    }
  }

  // ---------------------------------------------------------------------------
  // The invariant and the transitions

  lemma StartedPreservesValid(s: RequestState, request: EffectiveRequest)
    requires ValidState(s)
    ensures ValidState(Started(s, request))
    ensures s.phase == Idle ==> Started(s, request).phase == Running
  {
    if s.phase == Idle {
      var w := Broadcast(WillStart, Accessories(s));
      var t := Started(s, request).trace;
      assert t == w + [TransportStarted(request)];
      BroadcastInvisible(WillStart, Accessories(s), IsTransportStart);
      BroadcastInvisible(WillStart, Accessories(s), IsFilter);
      BroadcastInvisible(WillStart, Accessories(s), IsTransportCancel);
      OccurrencesAppend(w, [TransportStarted(request)], IsTransportStart);
      OccurrencesAppend(w, [TransportStarted(request)], IsFilter);
      OccurrencesAppend(w, [TransportStarted(request)], IsTransportCancel);
      OccurrencesSingle(TransportStarted(request), IsTransportStart);
      OccurrencesSingle(TransportStarted(request), IsFilter);
      OccurrencesSingle(TransportStarted(request), IsTransportCancel);
      BroadcastInvisible(WillStart, Accessories(s), IsDelegateCallback);
      BroadcastInvisible(WillStart, Accessories(s), IsCompletionBlock);
      OccurrencesAppend(w, [TransportStarted(request)], IsDelegateCallback);
      OccurrencesAppend(w, [TransportStarted(request)], IsCompletionBlock);
      OccurrencesSingle(TransportStarted(request), IsDelegateCallback);
      OccurrencesSingle(TransportStarted(request), IsCompletionBlock);
    }
  }

  lemma StoppedPreservesValid(s: RequestState)
    requires ValidState(s)
    ensures ValidState(Stopped(s))
  {
    if s.phase == Running {
      var w := Broadcast(WillStop, Accessories(s));
      var ds := Broadcast(DidStop, Accessories(s));
      var c := [TransportCancelled];
      assert Stopped(s).trace == s.trace + w + c + ds;
      StopAddsOnlyCancel(s.trace, w, ds, IsTransportStart, Accessories(s));
      StopAddsOnlyCancel(s.trace, w, ds, IsFilter, Accessories(s));
      StopAddsOnlyCancel(s.trace, w, ds, IsTransportCancel, Accessories(s));
      StopAddsOnlyCancel(s.trace, w, ds, IsDelegateCallback, Accessories(s));
      StopAddsOnlyCancel(s.trace, w, ds, IsCompletionBlock, Accessories(s));
    }
  }

  /** The events `stop` appends count only where they are a cancellation. */
  lemma StopAddsOnlyCancel(t: seq<Event>, w: seq<Event>, ds: seq<Event>, p: Event -> bool,
                           accessories: seq<Accessory>)
    requires w == Broadcast(WillStop, accessories) && ds == Broadcast(DidStop, accessories)
    requires forall h, id :: !p(AccessoryHook(h, id))
    ensures Occurrences(t + w + [TransportCancelled] + ds, p)
            == Occurrences(t, p) + (if p(TransportCancelled) then 1 else 0)
  {
    BroadcastInvisible(WillStop, accessories, p);
    BroadcastInvisible(DidStop, accessories, p);
    OccurrencesAppend(t + w + [TransportCancelled], ds, p);
    OccurrencesAppend(t + w, [TransportCancelled], p);
    OccurrencesAppend(t, w, p);
    OccurrencesSingle(TransportCancelled, p);
  }

  lemma CompletedPreservesValid(s: RequestState, error: Option<RequestError>, data: Option<Bytes>)
    requires ValidState(s) && s.phase == Running
    ensures ValidState(Completed(s, error, data))
  {
    var succeeded := error.None?;
    var block := if succeeded then s.successCompletionBlock else s.failureCompletionBlock;
    var c := CompletionTrace(succeeded, Accessories(s), s.delegate, block);
    CallbacksExactlyOnce(succeeded, Accessories(s), s.delegate, block);
    OccurrencesAppend(s.trace, c, IsTransportStart);
    OccurrencesAppend(s.trace, c, IsFilter);
    OccurrencesAppend(s.trace, c, IsTransportCancel);
    OccurrencesAppend(s.trace, c, IsDelegateCallback);
    OccurrencesAppend(s.trace, c, IsCompletionBlock);
  }

  lemma DeliveredPreservesValid(s: RequestState, result: TransportResult)
    requires ValidState(s)
    ensures ValidState(Delivered(s, result))
  {
    if s.phase == Running {
      CompletedPreservesValid(s, Classify(result), if result.Response? then Some(result.data) else None);
    }
  }

  lemma LoadedFromCachePreservesValid(s: RequestState, data: Bytes)
    requires ValidState(s)
    ensures ValidState(LoadedFromCache(s, data))
    ensures s.phase == Idle ==> Occurrences(LoadedFromCache(s, data).trace, IsTransportStart) == 0
  {
    if s.phase == Idle {
      var w := Broadcast(WillStart, Accessories(s));
      var c := CompletionTrace(true, Accessories(s), s.delegate, s.successCompletionBlock);
      assert LoadedFromCache(s, data).trace == w + c;
      CallbacksExactlyOnce(true, Accessories(s), s.delegate, s.successCompletionBlock);
      BroadcastInvisible(WillStart, Accessories(s), IsTransportStart);
      BroadcastInvisible(WillStart, Accessories(s), IsFilter);
      BroadcastInvisible(WillStart, Accessories(s), IsTransportCancel);
      OccurrencesAppend(w, c, IsTransportStart);
      OccurrencesAppend(w, c, IsFilter);
      OccurrencesAppend(w, c, IsTransportCancel);
      BroadcastInvisible(WillStart, Accessories(s), IsDelegateCallback);
      BroadcastInvisible(WillStart, Accessories(s), IsCompletionBlock);
      OccurrencesAppend(w, c, IsDelegateCallback);
      OccurrencesAppend(w, c, IsCompletionBlock);
    }
  }

  /**
   * A delivered result ends an executing request: success exactly when the
   * result passes both validators, with a nil error; otherwise failure with
   * the error the result carries.
   */
  lemma DeliveredOutcome(s: RequestState, result: TransportResult)
    requires s.phase == Running
    ensures var r := Delivered(s, result);
            && (r.phase == Succeeded || r.phase == Failed)
            && (r.phase == Succeeded <==> result.Response? && result.statusCodeValid && result.jsonValid)
            && (r.phase == Succeeded <==> r.error.None?)
            && r.error == Classify(result)
  {
  }

  /** `start` while executing, finished or cancelled changes nothing: no second transport call. */
  lemma StartTwiceCallsTransportOnce(s: RequestState, first: EffectiveRequest, second: EffectiveRequest)
    requires ValidState(s) && s.phase == Idle
    ensures Started(Started(s, first), second) == Started(s, first)
    ensures Occurrences(Started(Started(s, first), second).trace, IsTransportStart) == 1
  {
    StartedPreservesValid(s, first);
  }

  /** A second `stop` is a no-op: the request is cancelled once and the bracket fires once. */
  lemma StopIdempotent(s: RequestState)
    requires ValidState(s) && s.phase == Running
    ensures Stopped(Stopped(s)) == Stopped(s)
    ensures Stopped(s).phase == Cancelled
    ensures Occurrences(Stopped(Stopped(s)).trace, IsTransportCancel) == 1
  {
    StoppedPreservesValid(s);
  }

  /** Cancelling calls neither the delegate nor a completion block, and a late result is dropped. */
  lemma StopNotifiesNoCallbacks(s: RequestState, late: TransportResult)
    requires s.phase == Running
    ensures Occurrences(Stopped(s).trace, IsDelegateCallback) == Occurrences(s.trace, IsDelegateCallback)
    ensures Occurrences(Stopped(s).trace, IsCompletionBlock) == Occurrences(s.trace, IsCompletionBlock)
    ensures Delivered(Stopped(s), late) == Stopped(s)
  {
    var w := Broadcast(WillStop, Accessories(s));
    var ds := Broadcast(DidStop, Accessories(s));
    StopAddsOnlyCancel(s.trace, w, ds, IsDelegateCallback, Accessories(s));
    StopAddsOnlyCancel(s.trace, w, ds, IsCompletionBlock, Accessories(s));
  }
}
