/**
 * The request registry and one dispatch step (lib/zookeeper/common.rb).
 *
 * A client keeps a request-id counter and two maps from request id to entry: the pending
 * completions and the registered watchers. `setup_call` hands out the next id and records
 * the entries the call asks for; `dispatch_next_callback` takes one event, classifies it as a
 * completion (it carries a result code) or a watch event, resolves the entry (consuming it,
 * except for the global watcher and for session events, which re-arm it) and names the
 * handler that would be called with the event and the entry's context attached.
 *
 * The registry is modelled twice over: `Registry` is its value, with one pure function per
 * operation, and `RequestRegistry` is the object whose methods update the two maps and the
 * counter in place and are proved to follow those functions.
 */
module Common {
  import opened Wrappers
  import opened Constants
  import opened Exceptions
  import opened EventQueue

  /** The opaque context a caller attaches to a callback or watcher; None is nil. */
  type Context = Option<int>

  /** What a registry entry holds as `:callback` or `:watcher`. */
  datatype Handler =
    | Proc(id: nat)                                 // a Proc (a block or a lambda)
    | Convertible(id: nat, callable: bool)          // not a Proc, but has `to_proc` (a Method
                                                    // responds to `call`, a Symbol does not)
    | Callable(id: nat)                             // responds to `call` and has no `to_proc`
    | Inert(id: nat)                                // has neither `call` nor `to_proc`
    | GlobalLogger                                  // the default global watcher proc
    | StripChrootThen(host: string, inner: Handler) // the chroot-stripping create wrapper

  predicate RespondsToCall(h: Handler)
  {
    !h.Inert? && !(h.Convertible? && !h.callable)
  }

  /** Whether `h` is a Proc already, which `&h` passes on as it is. */
  predicate IsProc(h: Handler)
  {
    h.Proc? || h.GlobalLogger? || h.StripChrootThen?
  }

  /** The block that `&h` passes: a Proc as it is; for any other object, what its `to_proc`
      returns (a Proc, identified here by the object's id); None where Ruby raises TypeError
      because the object has no `to_proc`. */
  function AsBlock(h: Handler): (r: Option<Handler>)
    ensures r.None? <==> h.Callable? || h.Inert?
    ensures r.Some? ==> IsProc(r.value) && RespondsToCall(r.value)
    ensures IsProc(h) ==> r == Some(h)
  {
    match h
    case Convertible(id, _) => Some(Proc(id))
    case Callable(_) => None
    case Inert(_) => None
    case _ => Some(h)
  }

  /** A stored entry: the handler and the `:context` key (nil when absent). */
  datatype Entry = Entry(handler: Option<Handler>, context: Context)

  /** The options of a call that matter to the registry; a missing key is None. */
  datatype CallOpts = CallOpts(
    callback: Option<Handler>,
    callbackContext: Context,
    watcher: Option<Handler>,
    watcherContext: Context)

  /** An event hash. A completion carries a result code (`:rc`), a watch event does not. */
  datatype Event =
    | Completion(reqId: int, rc: int, completionType: Option<int>, path: Option<string>,
                 str: Option<string>, context: Context)
    | Watch(reqId: int, eventType: int, state: int, path: Option<string>, context: Context)

  /** `hash[:type]`: nil for a completion that carries no type. */
  function TypeOf(ev: Event): Option<int>
  {
    match ev
    case Completion(_, _, t, _, _, _) => t
    case Watch(_, t, _, _, _) => Some(t)
  }

  /** The event with `:context` set, as dispatch attaches the entry's context. */
  function WithContext(ev: Event, c: Context): Event
  {
    match ev
    case Completion(id, rc, t, p, str, _) => Completion(id, rc, t, p, str, c)
    case Watch(id, t, st, p, _) => Watch(id, t, st, p, c)
  }

  predicate IsSessionEvent(ev: Event)
  {
    TypeOf(ev) == Some(ZOO_SESSION_EVENT)
  }

  /** What the event queue carries: event hashes and the shutdown token. */
  datatype QueueItem = EventItem(ev: Event) | KillToken

  /** The value of `get_next_event`. */
  datatype NextEvent =
    | NoNext                        // nil
    | Next(ev: Event)
    | NextRaised(error: ErrorClass)
    | NextBlocks                    // a blocking pop on an empty queue waits for a push

  /** The call `dispatch_next_callback` makes: which handler, with which hash. */
  datatype Invocation = Invocation(handler: Handler, arg: Event)

  /** The outcome of one `dispatch_next_callback`. */
  datatype DispatchOutcome =
    | NoEvent                                          // returns nil
    | Orphan(ev: Event)                                // no entry: warns, returns true
    | Delivered(ev: Event, call: Option<Invocation>)   // returns true
    | DispatchRaised(error: ErrorClass)
    | WaitsForEvent

  // ---------------------------------------------------------------------------
  // The registry as a value.

  datatype Registry = Registry(nextReqId: int, watchers: map<int, Entry>, completions: map<int, Entry>)

  /** Ids in use were handed out by the counter; the global watcher id is the one exception. */
  ghost predicate WellFormed(r: Registry)
  {
    && r.nextReqId >= 0
    && (forall id :: id in r.completions ==> 0 <= id < r.nextReqId)
    && (forall id :: id in r.watchers ==> id == ZKRB_GLOBAL_CB_REQ || 0 <= id < r.nextReqId)
  }

  /** setup_watcher: `@watcher_reqs[req_id] = { :watcher => .., :context => opts[:watcher_context] }`. */
  function StoreWatcher(r: Registry, reqId: int, opts: CallOpts): (r': Registry)
    ensures r'.nextReqId == r.nextReqId && r'.completions == r.completions
    ensures r'.watchers.Keys == r.watchers.Keys + {reqId}
    ensures r'.watchers[reqId] == Entry(opts.watcher, opts.watcherContext)
    ensures forall id :: id in r.watchers && id != reqId ==> r'.watchers[id] == r.watchers[id]
  {
    r.(watchers := r.watchers[reqId := Entry(opts.watcher, opts.watcherContext)])
  }

  /** setup_completion: `@completion_reqs[req_id] = { :callback => .., :context => opts[:callback_context] }`. */
  function StoreCompletion(r: Registry, reqId: int, opts: CallOpts): (r': Registry)
    ensures r'.nextReqId == r.nextReqId && r'.watchers == r.watchers
    ensures r'.completions.Keys == r.completions.Keys + {reqId}
    ensures r'.completions[reqId] == Entry(opts.callback, opts.callbackContext)
    ensures forall id :: id in r.completions && id != reqId ==> r'.completions[id] == r.completions[id]
  {
    r.(completions := r.completions[reqId := Entry(opts.callback, opts.callbackContext)])
  }

  /** setup_call: the current counter value becomes the request id, the counter moves on, and
      the completion and watcher entries the options ask for are stored under that id. */
  function Allocate(r: Registry, opts: CallOpts): (p: (Registry, int))
    ensures p.1 == r.nextReqId && p.0.nextReqId == p.1 + 1
    ensures opts.callback.Some? ==> p.0.completions == r.completions[p.1 := Entry(opts.callback, opts.callbackContext)]
    ensures opts.callback.None? ==> p.0.completions == r.completions
    ensures opts.watcher.Some? ==> p.0.watchers == r.watchers[p.1 := Entry(opts.watcher, opts.watcherContext)]
    ensures opts.watcher.None? ==> p.0.watchers == r.watchers
  {
    var reqId := r.nextReqId;
    var r1 := r.(nextReqId := reqId + 1);
    var r2 := if opts.callback.Some? then StoreCompletion(r1, reqId, opts) else r1;
    var r3 := if opts.watcher.Some? then StoreWatcher(r2, reqId, opts) else r2;
    (r3, reqId)
  }

  /** get_watcher: the global entry and any entry looked up for a session event stay; any other
      entry is removed as it is returned. */
  function LookupWatcher(r: Registry, reqId: int, eventType: Option<int>): (p: (Registry, Option<Entry>))
    ensures p.1.Some? <==> reqId in r.watchers
    ensures p.1.Some? ==> p.1.value == r.watchers[reqId]
    ensures p.0.nextReqId == r.nextReqId && p.0.completions == r.completions
    ensures reqId == ZKRB_GLOBAL_CB_REQ || eventType == Some(ZOO_SESSION_EVENT) ==> p.0 == r
    ensures reqId != ZKRB_GLOBAL_CB_REQ && eventType != Some(ZOO_SESSION_EVENT) ==> p.0.watchers == r.watchers - {reqId}
  {
    var found := if reqId in r.watchers then Some(r.watchers[reqId]) else None;
    if reqId == ZKRB_GLOBAL_CB_REQ || eventType == Some(ZOO_SESSION_EVENT) then (r, found)
    else (r.(watchers := r.watchers - {reqId}), found)
  }

  /** get_completion: `@completion_reqs.delete(req_id)`. */
  function TakeCompletion(r: Registry, reqId: int): (p: (Registry, Option<Entry>))
    ensures p.1.Some? <==> reqId in r.completions
    ensures p.1.Some? ==> p.1.value == r.completions[reqId]
    ensures p.0.nextReqId == r.nextReqId && p.0.watchers == r.watchers
    ensures p.0.completions == r.completions - {reqId}
  {
    var found := if reqId in r.completions then Some(r.completions[reqId]) else None;
    (r.(completions := r.completions - {reqId}), found)
  }

  /** A stored watcher entry read back as call options, as the session re-store does: it has
      `:watcher` but no `:watcher_context` key. */
  function WatcherEntryAsOpts(e: Entry): CallOpts
  {
    CallOpts(None, None, e.handler, None)
  }

  /** A stored completion entry read back as call options: `:callback` but no `:callback_context`. */
  function CompletionEntryAsOpts(e: Entry): CallOpts
  {
    CallOpts(e.handler, None, None, None)
  }

  /** dispatch_next_callback, given the value `get_next_event` returned (None for nil). */
  function Step(r: Registry, ev: Option<Event>): (p: (Registry, DispatchOutcome))
    ensures p.0.nextReqId == r.nextReqId
    ensures ev.None? ==> p == (r, NoEvent)
    ensures ev.Some? && ev.value.Completion? ==> p.0.watchers == r.watchers
    ensures ev.Some? && ev.value.Watch? ==> p.0.completions == r.completions
    ensures p.1.Delivered? ==> ev.Some? && p.1.ev.reqId == ev.value.reqId
                               && p.1.ev.Completion? == ev.value.Completion?
    ensures p.1.Orphan? ==> ev == Some(p.1.ev)
  {
    match ev
    case None => (r, NoEvent)
    case Some(e) =>
      var isCompletion := e.Completion?;
      var (r1, found) := if isCompletion then TakeCompletion(r, e.reqId)
                         else LookupWatcher(r, e.reqId, TypeOf(e));
      if IsSessionEvent(e) && found.None? then
        // setup_completion / setup_watcher dereference the missing entry
        (r1, DispatchRaised(NoMethodError))
      else
        var r2 :=
          if !IsSessionEvent(e) then r1
          else if isCompletion then StoreCompletion(r1, e.reqId, CompletionEntryAsOpts(found.value))
          else StoreWatcher(r1, e.reqId, WatcherEntryAsOpts(found.value));
        match found
        case None => (r2, Orphan(e))
        case Some(entry) =>
          var delivered := WithContext(e, entry.context);
          var call := if entry.handler.Some? && RespondsToCall(entry.handler.value)
                      then Some(Invocation(entry.handler.value, delivered)) else None;
          (r2, Delivered(delivered, call))
  }

  /** One dispatch after `get_next_event` returned `ne`; a raised exception leaves the registry
      as it was and reaches the caller of dispatch_next_callback. */
  function StepAfter(r: Registry, ne: NextEvent): (Registry, DispatchOutcome)
  {
    match ne
    case NoNext => Step(r, None)
    case Next(e) => Step(r, Some(e))
    case NextRaised(err) => (r, DispatchRaised(err))
    case NextBlocks => (r, WaitsForEvent)
  }

  /** The tail both client classes' `get_next_event` share, after the pop: the kill token raises
      DispatchShutdownException, the ThreadError of an empty non-blocking pop is rescued as nil,
      any other error propagates, and an event hash is returned as it is. */
  function NextFromPop(p: PopResult<QueueItem>): (ne: NextEvent)
    ensures ne.NoNext? <==> p == PopRaised(ThreadError)
    ensures ne.Next? <==> p.Popped? && p.item.EventItem?
    ensures ne.Next? ==> ne.ev == p.item.ev
    ensures p == Popped(KillToken) ==> ne == NextRaised(DispatchShutdownException)
    ensures p.PopRaised? && p.error != ThreadError ==> ne == NextRaised(p.error)
    ensures ne.NextBlocks? <==> p.PopBlocks?
  {
    match p
    case Popped(KillToken) => NextRaised(DispatchShutdownException)
    case Popped(EventItem(e)) => Next(e)
    case PopRaised(err) => if err == ThreadError then NoNext else NextRaised(err)
    case PopBlocks => NextBlocks
  }

  /** The base `get_next_event`: nil once closed, otherwise what the backend's pop gives. */
  function GuardedNextEvent(closed: bool, backend: NextEvent): (ne: NextEvent)
    ensures closed ==> ne == NoNext
    ensures !closed ==> ne == backend
  {
    if closed then NoNext else backend
  }

  // ---------------------------------------------------------------------------
  // The registry object.

  class RequestRegistry {
    var currentReqId: int
    var watcherReqs: map<int, Entry>
    var completionReqs: map<int, Entry>

    function Value(): Registry
      reads this
    {
      Registry(currentReqId, watcherReqs, completionReqs)
    }

    ghost predicate Valid()
      reads this
    {
      WellFormed(Value())
    }

    /** `@watcher_reqs = {}`, `@completion_reqs = {}`, `@current_req_id = first`. */
    constructor (first: nat)
      ensures Valid() && Value() == Registry(first, map[], map[])
    {
      currentReqId := first;
      watcherReqs := map[];
      completionReqs := map[];
    }

    method SetupWatcher(reqId: int, opts: CallOpts)
      modifies this
      ensures Value() == StoreWatcher(old(Value()), reqId, opts)
    {
      watcherReqs := watcherReqs[reqId := Entry(opts.watcher, opts.watcherContext)];
    }

    method SetupCompletion(reqId: int, opts: CallOpts)
      modifies this
      ensures Value() == StoreCompletion(old(Value()), reqId, opts)
    {
      completionReqs := completionReqs[reqId := Entry(opts.callback, opts.callbackContext)];
    }

    method SetupCall(opts: CallOpts) returns (reqId: int)
      requires Valid()
      modifies this
      ensures Valid()
      ensures (Value(), reqId) == Allocate(old(Value()), opts)
    {
      reqId := currentReqId;
      currentReqId := currentReqId + 1;
      if opts.callback.Some? {
        SetupCompletion(reqId, opts);
      }
      if opts.watcher.Some? {
        SetupWatcher(reqId, opts);
      }
    }

    method GetWatcher(reqId: int, eventType: Option<int>) returns (found: Option<Entry>)
      modifies this
      ensures (Value(), found) == LookupWatcher(old(Value()), reqId, eventType)
    {
      found := if reqId in watcherReqs then Some(watcherReqs[reqId]) else None;
      if !(reqId == ZKRB_GLOBAL_CB_REQ || eventType == Some(ZOO_SESSION_EVENT)) {
        watcherReqs := watcherReqs - {reqId};
      }
    }

    method GetCompletion(reqId: int) returns (found: Option<Entry>)
      modifies this
      ensures (Value(), found) == TakeCompletion(old(Value()), reqId)
    {
      found := if reqId in completionReqs then Some(completionReqs[reqId]) else None;
      completionReqs := completionReqs - {reqId};
    }

    /** `@watcher_reqs.clear`. */
    method ClearWatchers()
      modifies this
      ensures Value() == old(Value()).(watchers := map[])
    {
      watcherReqs := map[];
    }

    /** The registry half of set_default_global_watcher:
        `@watcher_reqs[ZKRB_GLOBAL_CB_REQ] = { :watcher => w, :watcher_context => nil }`. */
    method SetGlobalWatcher(w: Option<Handler>)
      modifies this
      ensures Value() == InstallGlobal(old(Value()), w)
    {
      watcherReqs := watcherReqs[ZKRB_GLOBAL_CB_REQ := Entry(w, None)];
    }

    /** dispatch_next_callback after `get_next_event` returned `ev`. */
    method Dispatch(ev: Option<Event>) returns (out: DispatchOutcome)
      requires Valid()
      modifies this
      ensures Valid()
      ensures (Value(), out) == Step(old(Value()), ev)
    {
      if ev.None? {
        return NoEvent;
      }
      var e := ev.value;
      var isCompletion := e.Completion?;
      var found: Option<Entry>;
      if isCompletion {
        found := GetCompletion(e.reqId);
      } else {
        found := GetWatcher(e.reqId, TypeOf(e));
      }
      if IsSessionEvent(e) {
        if found.None? {
          return DispatchRaised(NoMethodError);
        }
        if isCompletion {
          SetupCompletion(e.reqId, CompletionEntryAsOpts(found.value));
        } else {
          SetupWatcher(e.reqId, WatcherEntryAsOpts(found.value));
        }
      }
      if found.Some? {
        var entry := found.value;
        var delivered := WithContext(e, entry.context);
        if entry.handler.Some? && RespondsToCall(entry.handler.value) {
          out := Delivered(delivered, Some(Invocation(entry.handler.value, delivered)));
        } else {
          out := Delivered(delivered, None);
        }
      } else {
        out := Orphan(e);
      }
    }
  }

  /** The registry half of set_default_global_watcher, as a value. */
  function InstallGlobal(r: Registry, w: Option<Handler>): (r': Registry)
    ensures r'.nextReqId == r.nextReqId && r'.completions == r.completions
    ensures r'.watchers.Keys == r.watchers.Keys + {ZKRB_GLOBAL_CB_REQ}
    ensures r'.watchers[ZKRB_GLOBAL_CB_REQ] == Entry(w, None)
    ensures forall id :: id in r.watchers && id != ZKRB_GLOBAL_CB_REQ ==> r'.watchers[id] == r.watchers[id]
  {
    r.(watchers := r.watchers[ZKRB_GLOBAL_CB_REQ := Entry(w, None)])
  }

  /** The registry half of reopen: flush every watcher, then reinstall the global one. */
  function ResetWatchers(r: Registry, w: Option<Handler>): (r': Registry)
    ensures r'.watchers == map[ZKRB_GLOBAL_CB_REQ := Entry(w, None)]
    ensures r'.completions == r.completions && r'.nextReqId == r.nextReqId
  {
    InstallGlobal(r.(watchers := map[]), w)
  }

  // ---------------------------------------------------------------------------
  // Properties of allocation.

  /** setup_call hands out the counter value, which no entry uses yet, moves the counter on by
      one, and stores a completion entry iff a callback is given and a watcher entry iff a
      watcher is given, both under that id; every other entry stays as it was. */
  lemma AllocateFresh(r: Registry, opts: CallOpts)
    requires WellFormed(r)
    ensures var (r', id) := Allocate(r, opts);
      && id == r.nextReqId && r'.nextReqId == id + 1
      && id !in r.completions && id !in r.watchers
      && WellFormed(r')
      && (id in r'.completions <==> opts.callback.Some?)
      && (id in r'.watchers <==> opts.watcher.Some?)
      && (opts.callback.Some? ==> r'.completions[id] == Entry(opts.callback, opts.callbackContext))
      && (opts.watcher.Some? ==> r'.watchers[id] == Entry(opts.watcher, opts.watcherContext))
      && r'.completions.Keys - {id} == r.completions.Keys
      && r'.watchers.Keys - {id} == r.watchers.Keys
      && (forall k :: k in r.completions ==> r'.completions[k] == r.completions[k])
      && (forall k :: k in r.watchers ==> r'.watchers[k] == r.watchers[k])
  {
  }

  /** A run of setup_calls. */
  function AllocateAll(r: Registry, calls: seq<CallOpts>): (Registry, seq<int>)
    decreases |calls|
  {
    if calls == [] then (r, [])
    else
      var (r1, id) := Allocate(r, calls[0]);
      var (r2, ids) := AllocateAll(r1, calls[1..]);
      (r2, [id] + ids)
  }

  /** Over any run of calls the ids handed out are consecutive from the counter, so strictly
      increasing, and none of them was in use before the run. */
  lemma {:induction false} IdsNeverReused(r: Registry, calls: seq<CallOpts>)
    requires WellFormed(r)
    decreases |calls|
    ensures var (r', ids) := AllocateAll(r, calls);
      && |ids| == |calls|
      && (forall i :: 0 <= i < |ids| ==> ids[i] == r.nextReqId + i)
      && (forall i, j :: 0 <= i < j < |ids| ==> ids[i] < ids[j])
      && (forall i :: 0 <= i < |ids| ==> ids[i] !in r.completions && ids[i] !in r.watchers)
      && r'.nextReqId == r.nextReqId + |calls|
      && WellFormed(r')
  {
    if calls != [] {
      AllocateFresh(r, calls[0]);
      var (r1, id) := Allocate(r, calls[0]);
      IdsNeverReused(r1, calls[1..]);
    }
  }

  // ---------------------------------------------------------------------------
  // Properties of one dispatch step.

  /** Dispatch never moves the counter, touches only the map its event kind selects and keeps
      the registry well formed; with no event it touches nothing. */
  lemma StepRoutes(r: Registry, ev: Option<Event>)
    requires WellFormed(r)
    ensures var (r', out) := Step(r, ev);
      && WellFormed(r') && r'.nextReqId == r.nextReqId
      && (ev.None? ==> r' == r && out == NoEvent)
      && (ev.Some? && ev.value.Completion? ==> r'.watchers == r.watchers)
      && (ev.Some? && ev.value.Watch? ==> r'.completions == r.completions)
      && (ev.Some? ==> out != NoEvent)
  {
  }

  /** Round trip: a completion registered by setup_call is delivered to its callback exactly
      once, with the caller's context attached; a second identical event is an orphan. */
  lemma CompletionRoundTrip(r: Registry, opts: CallOpts, rc: int, path: Option<string>, str: Option<string>)
    requires WellFormed(r) && opts.callback.Some? && RespondsToCall(opts.callback.value)
    ensures var (r1, id) := Allocate(r, opts);
      var ev := Completion(id, rc, None, path, str, None);
      var delivered := WithContext(ev, opts.callbackContext);
      var (r2, first) := Step(r1, Some(ev));
      var (r3, second) := Step(r2, Some(ev));
      && first == Delivered(delivered, Some(Invocation(opts.callback.value, delivered)))
      && id !in r2.completions
      && second == Orphan(ev) && r3 == r2
  {
    AllocateFresh(r, opts);
  }

  /** A watcher armed for one request fires on the first non-session event for it, with its
      context attached, and is removed; a further event for the id is an orphan. */
  lemma WatcherSingleFire(r: Registry, reqId: int, eventType: int, state: int, path: Option<string>)
    requires reqId != ZKRB_GLOBAL_CB_REQ && eventType != ZOO_SESSION_EVENT
    requires reqId in r.watchers
    ensures var entry := r.watchers[reqId];
      var ev := Watch(reqId, eventType, state, path, None);
      var (r1, first) := Step(r, Some(ev));
      var (r2, second) := Step(r1, Some(ev));
      && first.Delivered? && first.ev == WithContext(ev, entry.context)
      && (first.call.Some? <==> entry.handler.Some? && RespondsToCall(entry.handler.value))
      && (first.call.Some? ==> first.call.value.handler == entry.handler.value)
      && r1.watchers == r.watchers - {reqId}
      && second == Orphan(ev) && r2 == r1
  {
  }

  /** A session event delivers the entry it resolves with the entry's context and re-arms it
      under the same id with the same handler; the re-armed context is nil, because the
      re-store reads `:watcher_context` / `:callback_context`, keys a stored entry lacks. */
  lemma SessionEventRearms(r: Registry, ev: Event)
    requires IsSessionEvent(ev)
    requires ev.Completion? ==> ev.reqId in r.completions
    requires ev.Watch? ==> ev.reqId in r.watchers
    ensures var entry := if ev.Completion? then r.completions[ev.reqId] else r.watchers[ev.reqId];
      var (r', out) := Step(r, Some(ev));
      && out.Delivered? && out.ev == WithContext(ev, entry.context)
      && (ev.Completion? ==> r' == r.(completions := r.completions[ev.reqId := Entry(entry.handler, None)]))
      && (ev.Watch? ==> r' == r.(watchers := r.watchers[ev.reqId := Entry(entry.handler, None)]))
  {
  }

  /** A session event for an id with no entry raises from the re-store's nil dereference and
      leaves the registry as it was. */
  lemma SessionEventWithoutEntryRaises(r: Registry, ev: Event)
    requires IsSessionEvent(ev)
    requires ev.Completion? ==> ev.reqId !in r.completions
    requires ev.Watch? ==> ev.reqId !in r.watchers
    ensures Step(r, Some(ev)) == (r, DispatchRaised(NoMethodError))
  {
    if ev.Completion? {
      assert r.completions - {ev.reqId} == r.completions;
    }
  }

  /** A non-session event with no entry is an orphan: a warning, no handler, nothing changes. */
  lemma OrphanEventChangesNothing(r: Registry, ev: Event)
    requires !IsSessionEvent(ev)
    requires ev.Completion? ==> ev.reqId !in r.completions
    requires ev.Watch? ==> ev.reqId !in r.watchers
    ensures Step(r, Some(ev)) == (r, Orphan(ev))
  {
    if ev.Completion? {
      assert r.completions - {ev.reqId} == r.completions;
    } else {
      assert r.watchers - {ev.reqId} == r.watchers;
    }
  }

  /** How the code treats a watcher across a session disruption: the session event is delivered
      to the watcher with its context and leaves it armed (context now nil); the next real event
      for the request is delivered again, with nil context, and removes the entry. */
  lemma WatcherAcrossSessionEvent(r: Registry, opts: CallOpts, state: int, eventType: int, path: Option<string>)
    requires WellFormed(r) && opts.watcher.Some? && RespondsToCall(opts.watcher.value)
    requires eventType != ZOO_SESSION_EVENT
    ensures var (r1, id) := Allocate(r, opts);
      var h := opts.watcher.value;
      var session := Watch(id, ZOO_SESSION_EVENT, state, None, None);
      var later := Watch(id, eventType, state, path, None);
      var (r2, first) := Step(r1, Some(session));
      var (r3, second) := Step(r2, Some(later));
      && first == Delivered(WithContext(session, opts.watcherContext),
                            Some(Invocation(h, WithContext(session, opts.watcherContext))))
      && r2.watchers[id] == Entry(Some(h), None)
      && second == Delivered(later, Some(Invocation(h, later)))
      && id !in r3.watchers
  {
    AllocateFresh(r, opts);
  }

  /** A watcher across a session event for the global id: the global watcher receives the
      session event and the request's watcher is untouched; the next real event for the
      request fires the watcher once, with its context, and removes it; a repeat is an orphan. */
  lemma WatcherFiresOnceAfterGlobalSessionEvent(r: Registry, opts: CallOpts, state: int, eventType: int,
                                                path: Option<string>)
    requires WellFormed(r) && ZKRB_GLOBAL_CB_REQ in r.watchers
    requires opts.watcher.Some? && RespondsToCall(opts.watcher.value)
    requires eventType != ZOO_SESSION_EVENT
    ensures var (r1, id) := Allocate(r, opts);
      var global := r.watchers[ZKRB_GLOBAL_CB_REQ];
      var session := Watch(ZKRB_GLOBAL_CB_REQ, ZOO_SESSION_EVENT, state, None, None);
      var later := Watch(id, eventType, state, path, None);
      var (r2, first) := Step(r1, Some(session));
      var (r3, second) := Step(r2, Some(later));
      var (r4, third) := Step(r3, Some(later));
      && first.Delivered? && first.ev == WithContext(session, global.context)
      && (first.call.Some? ==> first.call.value.handler == global.handler.value)
      && r2.watchers[id] == Entry(opts.watcher, opts.watcherContext)
      && second == Delivered(WithContext(later, opts.watcherContext),
                             Some(Invocation(opts.watcher.value, WithContext(later, opts.watcherContext))))
      && id !in r3.watchers
      && third == Orphan(later) && r4 == r3
  {
    AllocateFresh(r, opts);
  }

  /** Dispatching a run of `get_next_event` results; the dispatch loop rescues what a step
      raises and goes on with the registry as that step left it. */
  function StepAll(r: Registry, evs: seq<Option<Event>>): Registry
    decreases |evs|
  {
    if evs == [] then r else StepAll(Step(r, evs[0]).0, evs[1..])
  }

  /** One step never removes the global watcher, nor changes its handler. */
  lemma StepKeepsGlobal(r: Registry, ev: Option<Event>)
    requires ZKRB_GLOBAL_CB_REQ in r.watchers
    ensures var r' := Step(r, ev).0;
      ZKRB_GLOBAL_CB_REQ in r'.watchers
      && r'.watchers[ZKRB_GLOBAL_CB_REQ].handler == r.watchers[ZKRB_GLOBAL_CB_REQ].handler
  {
  }

  /** The global watcher entry survives any number of dispatched events, handler unchanged. */
  lemma {:induction false} GlobalWatcherPermanent(r: Registry, evs: seq<Option<Event>>)
    requires ZKRB_GLOBAL_CB_REQ in r.watchers
    decreases |evs|
    ensures var r' := StepAll(r, evs);
      ZKRB_GLOBAL_CB_REQ in r'.watchers
      && r'.watchers[ZKRB_GLOBAL_CB_REQ].handler == r.watchers[ZKRB_GLOBAL_CB_REQ].handler
  {
    if evs != [] {
      StepKeepsGlobal(r, evs[0]);
      GlobalWatcherPermanent(Step(r, evs[0]).0, evs[1..]);
    }
  }

  /** The outcomes of dispatching a run of `get_next_event` results, one per result. */
  function Outcomes(r: Registry, evs: seq<Option<Event>>): (outs: seq<DispatchOutcome>)
    decreases |evs|
    ensures |outs| == |evs|
  {
    if evs == [] then [] else [Step(r, evs[0]).1] + Outcomes(Step(r, evs[0]).0, evs[1..])
  }

  /** No outcome of `outs` delivers a completion for `id`. */
  predicate NoCompletionDelivered(outs: seq<DispatchOutcome>, id: int)
  {
    forall i :: 0 <= i < |outs| && outs[i].Delivered? ==> !(outs[i].ev.Completion? && outs[i].ev.reqId == id)
  }

  /** No outcome of `outs` delivers a watch event for `id`. */
  predicate NoWatchDelivered(outs: seq<DispatchOutcome>, id: int)
  {
    forall i :: 0 <= i < |outs| && outs[i].Delivered? ==> !(outs[i].ev.Watch? && outs[i].ev.reqId == id)
  }

  /** An event for one id leaves every other id's entries, and whether it has any, alone. */
  lemma StepFrame(r: Registry, e: Event, id: int)
    requires id != e.reqId
    ensures var r' := Step(r, Some(e)).0;
      && (id in r'.completions <==> id in r.completions)
      && (id in r.completions ==> r'.completions[id] == r.completions[id])
      && (id in r'.watchers <==> id in r.watchers)
      && (id in r.watchers ==> r'.watchers[id] == r.watchers[id])
  {
  }

  /** One step for an id with no completion entry delivers no completion for it and stores
      none. */
  lemma StepKeepsCompletionConsumed(r: Registry, ev: Option<Event>, id: int)
    requires id !in r.completions
    ensures var (r', out) := Step(r, ev);
      id !in r'.completions && !(out.Delivered? && out.ev.Completion? && out.ev.reqId == id)
  {
  }

  /** One step for a non-global id with no watcher entry delivers no watch event for it and
      stores none. */
  lemma StepKeepsWatcherConsumed(r: Registry, ev: Option<Event>, id: int)
    requires id !in r.watchers && id != ZKRB_GLOBAL_CB_REQ
    ensures var (r', out) := Step(r, ev);
      id !in r'.watchers && !(out.Delivered? && out.ev.Watch? && out.ev.reqId == id)
  {
  }

  /** A completion, once consumed, stays consumed: over any run of dispatched events no
      completion entry reappears under its id and none is delivered for it. */
  lemma {:induction false} ConsumedCompletionStaysConsumed(r: Registry, id: int, evs: seq<Option<Event>>)
    requires id !in r.completions
    decreases |evs|
    ensures id !in StepAll(r, evs).completions
    ensures NoCompletionDelivered(Outcomes(r, evs), id)
  {
    if evs != [] {
      StepKeepsCompletionConsumed(r, evs[0], id);
      var (r1, out) := Step(r, evs[0]);
      ConsumedCompletionStaysConsumed(r1, id, evs[1..]);
      var outs := Outcomes(r, evs);
      forall i | 0 <= i < |outs| && outs[i].Delivered?
        ensures !(outs[i].ev.Completion? && outs[i].ev.reqId == id)
      {
        if i > 0 {
          assert outs[i] == Outcomes(r1, evs[1..])[i - 1];
        }
      }
    }
  }

  /** A request's watcher, once removed, stays removed: over any run of dispatched events no
      watcher entry reappears under its id and no watch event is delivered for it. */
  lemma {:induction false} ConsumedWatcherStaysConsumed(r: Registry, id: int, evs: seq<Option<Event>>)
    requires id !in r.watchers && id != ZKRB_GLOBAL_CB_REQ
    decreases |evs|
    ensures id !in StepAll(r, evs).watchers
    ensures NoWatchDelivered(Outcomes(r, evs), id)
  {
    if evs != [] {
      StepKeepsWatcherConsumed(r, evs[0], id);
      var (r1, out) := Step(r, evs[0]);
      ConsumedWatcherStaysConsumed(r1, id, evs[1..]);
      var outs := Outcomes(r, evs);
      forall i | 0 <= i < |outs| && outs[i].Delivered?
        ensures !(outs[i].ev.Watch? && outs[i].ev.reqId == id)
      {
        if i > 0 {
          assert outs[i] == Outcomes(r1, evs[1..])[i - 1];
        }
      }
    }
  }

  /** A completion registered by setup_call is resolved at most once: after the delivery of
      its result, no later run of events delivers another completion for that request. */
  lemma CompletionResolvedAtMostOnce(r: Registry, opts: CallOpts, rc: int, path: Option<string>,
                                     str: Option<string>, later: seq<Option<Event>>)
    requires WellFormed(r) && opts.callback.Some?
    ensures var (r1, id) := Allocate(r, opts);
      var (r2, first) := Step(r1, Some(Completion(id, rc, None, path, str, None)));
      && first.Delivered?
      && NoCompletionDelivered(Outcomes(r2, later), id)
      && id !in StepAll(r2, later).completions
  {
    var (r1, id) := Allocate(r, opts);
    var (r2, first) := Step(r1, Some(Completion(id, rc, None, path, str, None)));
    ConsumedCompletionStaysConsumed(r2, id, later);
  }

  /** A request's watcher fires at most once on a non-session event: after that delivery, no
      later run of events delivers another watch event for the request. */
  lemma WatcherFiresAtMostOnce(r: Registry, reqId: int, eventType: int, state: int,
                               path: Option<string>, later: seq<Option<Event>>)
    requires reqId != ZKRB_GLOBAL_CB_REQ && eventType != ZOO_SESSION_EVENT
    requires reqId in r.watchers
    ensures var (r1, first) := Step(r, Some(Watch(reqId, eventType, state, path, None)));
      && first.Delivered?
      && NoWatchDelivered(Outcomes(r1, later), reqId)
      && reqId !in StepAll(r1, later).watchers
  {
    var (r1, first) := Step(r, Some(Watch(reqId, eventType, state, path, None)));
    ConsumedWatcherStaysConsumed(r1, reqId, later);
  }

  /** Reopen's registry reset leaves exactly the global watcher, with the default handler and a
      nil context, and leaves the completions and the counter alone. */
  lemma ResetWatchersLeavesOnlyGlobal(r: Registry, w: Option<Handler>)
    requires WellFormed(r)
    ensures var r' := ResetWatchers(r, w);
      && r'.watchers == map[ZKRB_GLOBAL_CB_REQ := Entry(w, None)]
      && r'.completions == r.completions && r'.nextReqId == r.nextReqId
      && WellFormed(r')
  {
  }

  // ---------------------------------------------------------------------------
  // Argument checks.

  /** Ruby's `Array#-`: the elements of `a` that are not in `b`, in order. */
  function Difference(a: seq<string>, b: seq<string>): (r: seq<string>)
    ensures forall x :: x in r <==> x in a && x !in b
  {
    if a == [] then []
    else if a[0] in b then Difference(a[1..], b)
    else [a[0]] + Difference(a[1..], b)
  }

  /** assert_supported_keys: BadArguments unless every given key is supported. */
  function AssertSupportedKeys(keys: seq<string>, supported: seq<string>): (r: Option<ErrorClass>)
    ensures r.None? <==> forall k :: k in keys ==> k in supported
    ensures r.Some? ==> r.value == BadArguments
  {
    var extra := Difference(keys, supported);
    if extra == [] then None else assert extra[0] in extra; Some(BadArguments)
  }

  /** assert_required_keys: BadArguments unless every required key is given. */
  function AssertRequiredKeys(keys: seq<string>, required: seq<string>): (r: Option<ErrorClass>)
    ensures r.None? <==> forall k :: k in required ==> k in keys
    ensures r.Some? ==> r.value == BadArguments
  {
    var missing := Difference(required, keys);
    if missing == [] then None else assert missing[0] in missing; Some(BadArguments)
  }

  /** Checking one list as both the supported and the required keys accepts exactly the
      argument hashes whose keys are that list's elements. */
  lemma SupportedAndRequiredMeansExactly(keys: seq<string>, list: seq<string>)
    ensures AssertSupportedKeys(keys, list).None? && AssertRequiredKeys(keys, list).None?
            <==> (set x | x in keys) == (set x | x in list)
  {
    var given, listed := set x | x in keys, set x | x in list;
    if given == listed {
      forall k | k in keys ensures k in list {
        assert k in given;
      }
      forall k | k in list ensures k in keys {
        assert k in listed;
      }
    }
  }
}
