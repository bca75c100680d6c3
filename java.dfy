/**
 * The client over the Java library (class JavaBase, java/zookeeper_base.rb).
 *
 * The Java client keeps the same registry and the same queue as the C one, but the Java
 * library itself pushes the event hashes: one callback object per asynchronous call builds a
 * completion hash (it always has `:rc`), and the session watcher and the per-call watchers
 * build watch hashes (they never do). Dispatch tells the two apart by that key alone.
 *
 * Two places where the code as written departs from what it evidently means are modelled
 * twice: `reopen` assigns a misspelt instance variable and so keeps every watcher, and
 * `close` never forgets its dispatcher, so a second close writes to a closed pipe. The class
 * follows the corrected definitions.
 */
module Java {
  import opened Wrappers
  import opened Constants
  import opened Exceptions
  import opened EventQueue
  import opened Common

  // ---------------------------------------------------------------------------
  // call_type.

  datatype CallKind = Sync | SyncWatch | Async | AsyncWatch

  /** call_type: asynchronous iff a callback is given, watching iff a watcher is given. */
  function CallType(callback: bool, watcher: bool): (k: CallKind)
    ensures (k.Async? || k.AsyncWatch?) <==> callback
    ensures (k.SyncWatch? || k.AsyncWatch?) <==> watcher
  {
    if callback then (if watcher then AsyncWatch else Async)
    else (if watcher then SyncWatch else Sync)
  }

  /** The four combinations of callback and watcher give the four kinds, one each. */
  lemma CallTypeIsBijective(k: CallKind)
    ensures exists callback, watcher :: CallType(callback, watcher) == k
    ensures forall c1, w1, c2, w2 :: CallType(c1, w1) == CallType(c2, w2) ==> c1 == c2 && w1 == w2
  {
    match k
    case Sync => assert CallType(false, false) == k;
    case SyncWatch => assert CallType(false, true) == k;
    case Async => assert CallType(true, false) == k;
    case AsyncWatch => assert CallType(true, true) == k;
  }

  // ---------------------------------------------------------------------------
  // The hashes pushed onto the event queue.

  datatype Key = RcKey | ReqIdKey | PathKey | DataKey | StatKey | StringKey | StringsKey | AclKey | TypeKey | StateKey

  /** A hash value: an integer, a string, nil, or a payload (bytes, stat, children, ACLs)
      whose contents dispatch does not look at. */
  datatype Value = IntValue(i: int) | StrValue(s: string) | NilValue | Payload

  type Hash = map<Key, Value>

  function StrOrNil(s: Option<string>): Value
  {
    if s.Some? then StrValue(s.value) else NilValue
  }

  function PayloadOrNil(present: bool): Value
  {
    if present then Payload else NilValue
  }

  /** DataCallback#processResult. */
  function DataHash(rc: int, reqId: int, path: Option<string>, data: Option<string>, stat: bool): (h: Hash)
    ensures RcKey in h && h[RcKey] == IntValue(rc) && ReqIdKey in h && h[ReqIdKey] == IntValue(reqId)
    ensures PathKey in h && h[PathKey] == StrOrNil(path)
  {
    map[RcKey := IntValue(rc), ReqIdKey := IntValue(reqId), PathKey := StrOrNil(path),
        DataKey := StrOrNil(data), StatKey := PayloadOrNil(stat)]
  }

  /** StringCallback#processResult: `:string` is the created path. */
  function StringHash(rc: int, reqId: int, path: Option<string>, str: Option<string>): (h: Hash)
    ensures RcKey in h && h[RcKey] == IntValue(rc) && ReqIdKey in h && h[ReqIdKey] == IntValue(reqId)
    ensures PathKey in h && h[PathKey] == StrOrNil(path)
  {
    map[RcKey := IntValue(rc), ReqIdKey := IntValue(reqId), PathKey := StrOrNil(path), StringKey := StrOrNil(str)]
  }

  /** StatCallback#processResult. */
  function StatHash(rc: int, reqId: int, path: Option<string>, stat: bool): (h: Hash)
    ensures RcKey in h && h[RcKey] == IntValue(rc) && ReqIdKey in h && h[ReqIdKey] == IntValue(reqId)
    ensures PathKey in h && h[PathKey] == StrOrNil(path)
  {
    map[RcKey := IntValue(rc), ReqIdKey := IntValue(reqId), StatKey := PayloadOrNil(stat), PathKey := StrOrNil(path)]
  }

  /** Children2Callback#processResult. */
  function Children2Hash(rc: int, reqId: int, path: Option<string>, children: bool, stat: bool): (h: Hash)
    ensures RcKey in h && h[RcKey] == IntValue(rc) && ReqIdKey in h && h[ReqIdKey] == IntValue(reqId)
    ensures PathKey in h && h[PathKey] == StrOrNil(path)
  {
    map[RcKey := IntValue(rc), ReqIdKey := IntValue(reqId), PathKey := StrOrNil(path),
        StringsKey := PayloadOrNil(children), StatKey := PayloadOrNil(stat)]
  }

  /** ACLCallback#processResult: `:acl` is always an array, possibly empty. */
  function AclHash(rc: int, reqId: int, path: Option<string>, stat: bool): (h: Hash)
    ensures RcKey in h && h[RcKey] == IntValue(rc) && ReqIdKey in h && h[ReqIdKey] == IntValue(reqId)
    ensures PathKey in h && h[PathKey] == StrOrNil(path)
  {
    map[RcKey := IntValue(rc), ReqIdKey := IntValue(reqId), PathKey := StrOrNil(path),
        AclKey := Payload, StatKey := PayloadOrNil(stat)]
  }

  /** VoidCallback#processResult. */
  function VoidHash(rc: int, reqId: int, path: Option<string>): (h: Hash)
    ensures RcKey in h && h[RcKey] == IntValue(rc) && ReqIdKey in h && h[ReqIdKey] == IntValue(reqId)
    ensures PathKey in h && h[PathKey] == StrOrNil(path)
  {
    map[RcKey := IntValue(rc), ReqIdKey := IntValue(reqId), PathKey := StrOrNil(path)]
  }

  /** WatcherCallback#process: the event's type, state and path, under the global id. */
  function SessionWatchHash(eventType: int, state: int, path: Option<string>): (h: Hash)
    ensures RcKey !in h && ReqIdKey in h && h[ReqIdKey] == IntValue(ZKRB_GLOBAL_CB_REQ)
    ensures TypeKey in h && h[TypeKey] == IntValue(eventType) && StateKey in h && h[StateKey] == IntValue(state)
  {
    map[TypeKey := IntValue(eventType), StateKey := IntValue(state), PathKey := StrOrNil(path),
        ReqIdKey := IntValue(ZKRB_GLOBAL_CB_REQ)]
  }

  /** The lambda create_watcher builds: the caller's id and the watched path. */
  function CallWatchHash(reqId: int, eventType: int, state: int, path: string): (h: Hash)
    ensures RcKey !in h && ReqIdKey in h && h[ReqIdKey] == IntValue(reqId) && PathKey in h && h[PathKey] == StrValue(path)
    ensures TypeKey in h && h[TypeKey] == IntValue(eventType) && StateKey in h && h[StateKey] == IntValue(state)
  {
    map[ReqIdKey := IntValue(reqId), TypeKey := IntValue(eventType), StateKey := IntValue(state),
        PathKey := StrValue(path)]
  }

  function OptionalString(h: Hash, k: Key): Option<string>
  {
    if k in h && h[k].StrValue? then Some(h[k].s) else None
  }

  /** How dispatch reads a hash: a completion iff it has `:rc`; None when a field it reads is
      not an integer. */
  function ToEvent(h: Hash): (ev: Option<Event>)
    ensures ev.Some? ==> (ev.value.Completion? <==> RcKey in h)
    ensures ev.Some? ==> ReqIdKey in h && h[ReqIdKey] == IntValue(ev.value.reqId)
  {
    if ReqIdKey !in h || !h[ReqIdKey].IntValue? then None
    else if RcKey in h then
      if !h[RcKey].IntValue? then None
      else
        var t := if TypeKey in h && h[TypeKey].IntValue? then Some(h[TypeKey].i) else None;
        Some(Completion(h[ReqIdKey].i, h[RcKey].i, t, OptionalString(h, PathKey), OptionalString(h, StringKey), None))
    else if TypeKey !in h || !h[TypeKey].IntValue? || StateKey !in h || !h[StateKey].IntValue? then None
    else Some(Watch(h[ReqIdKey].i, h[TypeKey].i, h[StateKey].i, OptionalString(h, PathKey), None))
  }

  /** Every result callback's hash carries `:rc` and the request id, so dispatch reads it as
      the completion of that request; the created path reaches the event's string. */
  lemma ResultHashesAreCompletions(rc: int, reqId: int, path: Option<string>, s: Option<string>, b1: bool, b2: bool)
    ensures ToEvent(DataHash(rc, reqId, path, s, b1)) == Some(Completion(reqId, rc, None, path, None, None))
    ensures ToEvent(StringHash(rc, reqId, path, s)) == Some(Completion(reqId, rc, None, path, s, None))
    ensures ToEvent(StatHash(rc, reqId, path, b1)) == Some(Completion(reqId, rc, None, path, None, None))
    ensures ToEvent(Children2Hash(rc, reqId, path, b1, b2)) == Some(Completion(reqId, rc, None, path, None, None))
    ensures ToEvent(AclHash(rc, reqId, path, b1)) == Some(Completion(reqId, rc, None, path, None, None))
    ensures ToEvent(VoidHash(rc, reqId, path)) == Some(Completion(reqId, rc, None, path, None, None))
  {
  }

  /** Watch hashes never carry `:rc`: the session watcher's is a watch event for the global
      id, create_watcher's a watch event for the caller's id and path. */
  lemma WatchHashesAreWatches(reqId: int, eventType: int, state: int, path: Option<string>, watched: string)
    ensures RcKey !in SessionWatchHash(eventType, state, path) && RcKey !in CallWatchHash(reqId, eventType, state, watched)
    ensures ToEvent(SessionWatchHash(eventType, state, path)) == Some(Watch(ZKRB_GLOBAL_CB_REQ, eventType, state, path, None))
    ensures ToEvent(CallWatchHash(reqId, eventType, state, watched)) == Some(Watch(reqId, eventType, state, Some(watched), None))
  {
  }

  /** Whatever the session watcher reports, dispatching it resolves the global entry and never
      removes it. */
  lemma SessionWatchKeepsGlobalWatcher(r: Registry, eventType: int, state: int, path: Option<string>)
    requires ZKRB_GLOBAL_CB_REQ in r.watchers
    ensures var (r', out) := Step(r, ToEvent(SessionWatchHash(eventType, state, path)));
      && out.Delivered? && out.ev.reqId == ZKRB_GLOBAL_CB_REQ
      && out.ev.context == r.watchers[ZKRB_GLOBAL_CB_REQ].context
      && ZKRB_GLOBAL_CB_REQ in r'.watchers
      && r'.watchers[ZKRB_GLOBAL_CB_REQ].handler == r.watchers[ZKRB_GLOBAL_CB_REQ].handler
  {
    WatchHashesAreWatches(0, eventType, state, path, "");
    StepKeepsGlobal(r, ToEvent(SessionWatchHash(eventType, state, path)));
  }

  // ---------------------------------------------------------------------------
  // reopen, as written and as meant.

  /** The registry half of reopen as written: `@watcher_req = {}` sets an instance variable
      nothing reads, so only the global entry is overwritten. */
  function ReopenAsWritten(r: Registry, w: Option<Handler>): (r': Registry)
    ensures r'.watchers.Keys == r.watchers.Keys + {ZKRB_GLOBAL_CB_REQ}
    ensures r'.watchers[ZKRB_GLOBAL_CB_REQ] == Entry(w, None)
    ensures r'.completions == r.completions && r'.nextReqId == r.nextReqId
  {
    InstallGlobal(r, w)
  }

  /** As written, every non-global watcher survives reopen, entry unchanged. */
  lemma ReopenAsWrittenKeepsWatchers(r: Registry, w: Option<Handler>)
    ensures var r' := ReopenAsWritten(r, w);
      forall id :: id in r.watchers && id != ZKRB_GLOBAL_CB_REQ ==> id in r'.watchers && r'.watchers[id] == r.watchers[id]
  {
  }

  /** A watcher armed before reopen: as written it is still there afterwards, and a later
      event for it fires it; with the flush reopen means, it is gone. */
  lemma ReopenKeepsStaleWatcher()
    ensures var r := Registry(1, map[0 := Entry(Some(Proc(7)), None)], map[]);
      && 0 in ReopenAsWritten(r, Some(GlobalLogger)).watchers
      && Step(ReopenAsWritten(r, Some(GlobalLogger)), Some(Watch(0, ZOO_CHANGED_EVENT, ZOO_CONNECTED_STATE, None, None))).1.Delivered?
      && 0 !in ResetWatchers(r, Some(GlobalLogger)).watchers
  {
    var r := Registry(1, map[0 := Entry(Some(Proc(7)), None)], map[]);
    assert 0 in r.watchers;
    ResetWatchersLeavesOnlyGlobal(r, Some(GlobalLogger));
  }

  // ---------------------------------------------------------------------------
  // close, as written and as meant.

  /** The flags and the queue close works on. */
  datatype Lifecycle = Lifecycle(running: bool, closed: bool, hasDispatcher: bool, queue: QueueState<QueueItem>)

  /** The `unless @_closed` block: mark closed, close the handle, close the queue. */
  function FinishClose(s: Lifecycle): Lifecycle
  {
    if s.closed then s else s.(closed := true, queue := CloseStep(s.queue))
  }

  /** close as written: running goes false; a dispatcher gets a kill token pushed (the raise
      of a failed push ends close there) and is joined but never forgotten; then the first
      close closes. */
  function CloseAsWritten(s: Lifecycle): (p: (Lifecycle, Option<ErrorClass>))
    ensures !p.0.running && p.0.hasDispatcher == s.hasDispatcher
    ensures p.1.Some? <==> s.hasDispatcher && PushStep(s.queue, KillToken).1.Some?
    ensures p.1.None? ==> p.0.closed
  {
    var s1 := s.(running := false);
    if s.hasDispatcher then
      var (q, err) := PushStep(s1.queue, KillToken);
      if err.Some? then (s1.(queue := q), err) else (FinishClose(s1.(queue := q)), None)
    else (FinishClose(s1), None)
  }

  /** close as meant: as written, but the joined dispatcher is forgotten, as the C client's
      stop_dispatch_thread! does. */
  function CloseCorrected(s: Lifecycle): (p: (Lifecycle, Option<ErrorClass>))
    ensures !p.0.running
    ensures p.1.Some? <==> s.hasDispatcher && PushStep(s.queue, KillToken).1.Some?
    ensures p.1.None? ==> !p.0.hasDispatcher && p.0.closed
  {
    var s1 := s.(running := false);
    if s.hasDispatcher then
      var (q, err) := PushStep(s1.queue, KillToken);
      if err.Some? then (s1.(queue := q), err)
      else (FinishClose(s1.(queue := q, hasDispatcher := false)), None)
    else (FinishClose(s1), None)
  }

  /** The client's lifecycle invariant: an open client has an open queue and a closed one a
      closed queue, and a dispatcher runs only on an open client. */
  ghost predicate LifecycleOk(s: Lifecycle)
  {
    && (!s.closed ==> !s.queue.readClosed && !s.queue.writeClosed)
    && (s.closed ==> s.queue.readClosed && s.queue.writeClosed)
    && (s.hasDispatcher ==> !s.closed)
  }

  /** As written, a client that started its dispatcher closes once and then raises IOError on
      the second close, from the kill token written to the closed pipe. */
  lemma SecondCloseRaises(s: Lifecycle)
    requires LifecycleOk(s) && s.hasDispatcher
    ensures var (s1, e1) := CloseAsWritten(s);
      e1.None? && s1.closed && CloseAsWritten(s1).1 == Some(IOError)
  {
  }

  /** As meant, close never raises on a client in a consistent state, always leaves it not
      running and closed with its queue closed, and a second close changes nothing. */
  lemma CloseCorrectedIdempotent(s: Lifecycle)
    requires LifecycleOk(s)
    ensures var (s1, e1) := CloseCorrected(s);
      && e1.None? && !s1.running && s1.closed && !s1.hasDispatcher
      && s1.queue.readClosed && s1.queue.writeClosed
      && LifecycleOk(s1)
      && CloseCorrected(s1) == (s1, None)
  {
  }

  // ---------------------------------------------------------------------------
  // The client object.

  class JavaBase {
    const host: string
    var defaultWatcher: Option<Handler>
    const registry: RequestRegistry
    const eventQueue: QueueWithPipe<QueueItem>
    var running: bool
    var closed: bool
    var hasDispatcher: bool

    function Value(): Lifecycle
      reads this, eventQueue
    {
      Lifecycle(running, closed, hasDispatcher, eventQueue.Value())
    }

    ghost predicate Valid()
      reads this, registry, eventQueue
    {
      registry.Valid() && eventQueue.Valid() && LifecycleOk(Value())
    }

    /** The part of initialize before it reopens: a fresh queue, the counter at 0, empty maps,
        not running, not closed and no dispatcher. */
    constructor (host: string)
      ensures Valid() && fresh(registry) && fresh(eventQueue) && this.host == host
      ensures registry.Value() == Registry(0, map[], map[])
      ensures eventQueue.Value() == Fresh()
      ensures defaultWatcher.None? && !running && !closed && !hasDispatcher
    {
      this.host := host;
      registry := new RequestRegistry(0);
      eventQueue := new QueueWithPipe<QueueItem>();
      defaultWatcher := None;
      running := false;
      closed := false;
      hasDispatcher := false;
    }

    /** JavaBase.new: the block made of the given watcher or the logging default is installed
        by reopen; a watcher with no `to_proc` makes reopen, and so new, raise TypeError. The
        client runs, with a dispatcher, only if the connection came up. */
    static method New(host: string, watcher: Option<Handler>, connected: bool) returns (r: Result<JavaBase, ErrorClass>)
      ensures var w := if watcher.Some? then watcher.value else GlobalLogger;
        && (r.Err? <==> AsBlock(w).None?)
        && (r.Err? ==> r.error == TypeError)
        && (r.Ok? ==> var jb := r.value;
          && fresh(jb) && fresh(jb.registry) && fresh(jb.eventQueue) && jb.Valid() && jb.host == host
          && jb.defaultWatcher == AsBlock(w)
          && jb.registry.Value() == Registry(0, map[ZKRB_GLOBAL_CB_REQ := Entry(AsBlock(w), None)], map[])
          && jb.eventQueue.Value() == Fresh()
          && jb.running == connected && jb.hasDispatcher == connected && !jb.closed)
    {
      var jb := new JavaBase(host);
      var err := jb.Reopen(Some(if watcher.Some? then watcher.value else GlobalLogger));
      if err.Some? {
        return Err(err.value);
      }
      if connected {
        jb.running := true;
        jb.hasDispatcher := true;
      }
      return Ok(jb);
    }

    /** set_default_global_watcher: record the block as the default and install it as the
        global entry with a nil context. */
    method SetDefaultGlobalWatcher(w: Option<Handler>)
      requires Valid()
      modifies this, registry
      ensures Valid() && defaultWatcher == w
      ensures registry.Value() == InstallGlobal(old(registry.Value()), w)
      ensures Value() == old(Value())
    {
      defaultWatcher := w;
      registry.SetGlobalWatcher(w);
    }

    /** The registry half of reopen, with the flush it means: the given watcher, or else the
        default, is passed as a block, and that block becomes the default and the only watcher;
        completions stay. A watcher with no `to_proc` cannot be passed as a block: Ruby raises
        TypeError after the flush, before the default changes. */
    method Reopen(watcher: Option<Handler>) returns (err: Option<ErrorClass>)
      requires Valid()
      modifies this, registry
      ensures Valid() && Value() == old(Value())
      ensures var w := if watcher.Some? then watcher else old(defaultWatcher);
        var block := if w.Some? then AsBlock(w.value) else None;
        if w.Some? && block.None? then
          && err == Some(TypeError) && defaultWatcher == old(defaultWatcher)
          && registry.Value() == old(registry.Value()).(watchers := map[])
        else
          && err.None? && defaultWatcher == block
          && registry.Value() == ResetWatchers(old(registry.Value()), block)
    {
      var w := if watcher.Some? then watcher else defaultWatcher;
      registry.ClearWatchers();
      var block := if w.Some? then AsBlock(w.value) else None;
      if w.Some? && block.None? {
        return Some(TypeError);
      }
      SetDefaultGlobalWatcher(block);
      err := None;
    }

    /** close, as meant. */
    method Close() returns (err: Option<ErrorClass>)
      requires Valid()
      modifies this, eventQueue
      ensures Valid()
      ensures (Value(), err) == CloseCorrected(old(Value()))
    {
      if running {
        running := false;
      }
      if hasDispatcher {
        err := eventQueue.Push(KillToken);
        if err.Some? {
          return;
        }
        hasDispatcher := false;
      }
      if !closed {
        closed := true;
        eventQueue.Close();
      }
      err := None;
    }

    /** selectable_io: the caller takes over draining the pipe, so pops stop reading it. */
    method SelectableIo() returns (io: PipeEnd)
      requires Valid()
      modifies eventQueue
      ensures Valid() && io == ReadEnd
      ensures eventQueue.Value() == old(eventQueue.Value()).(clearReadsOnPop := false)
    {
      eventQueue.SetClearReadsOnPop(false);
      io := eventQueue.SelectableIo();
    }

    /** get_next_event: no running guard; pop, non-blocking when asked not to block. */
    method GetNextEvent(blocking: bool) returns (ne: NextEvent)
      requires Valid()
      modifies eventQueue
      ensures Valid()
      ensures var (q', p) := PopStep(old(eventQueue.Value()), !blocking);
        eventQueue.Value() == q' && ne == NextFromPop(p)
    {
      var p := eventQueue.Pop(!blocking);
      ne := NextFromPop(p);
    }

    /** dispatch_next_callback over this client's get_next_event. */
    method DispatchNextCallback(blocking: bool) returns (out: DispatchOutcome)
      requires Valid()
      modifies registry, eventQueue
      ensures Valid()
      ensures var (q', p) := PopStep(old(eventQueue.Value()), !blocking);
        && eventQueue.Value() == q'
        && (registry.Value(), out) == StepAfter(old(registry.Value()), NextFromPop(p))
    {
      var ne := GetNextEvent(blocking);
      match ne
      case NoNext => out := NoEvent;
      case Next(e) => out := registry.Dispatch(Some(e));
      case NextRaised(err) => out := DispatchRaised(err);
      case NextBlocks => out := WaitsForEvent;
    }
  }
}
