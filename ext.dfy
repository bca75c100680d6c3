/**
 * The client over the C extension (class ZookeeperBase, ext/zookeeper_base.rb).
 *
 * It owns the request registry, an event queue that exists only while the connection is open,
 * and two lifecycle flags shared with the C layer: running (set by the C `init`, cleared by
 * `stop_running!`) and closed (set once the C handle is destroyed). A host string may carry a
 * chroot suffix ("host:port/chroot"); the C library reports created paths with that chroot
 * still in front, so the client strips it off both for synchronous creates and, by wrapping
 * the callback, for asynchronous ones.
 */
module Ext {
  import opened Wrappers
  import opened Constants
  import opened Exceptions
  import opened EventQueue
  import opened Common

  // ---------------------------------------------------------------------------
  // Path handling.

  /** `String#index`: the position of the first occurrence of `c`, or nil. */
  function IndexOf(s: string, c: char): (r: Option<nat>)
    ensures r.None? <==> c !in s
    ensures r.Some? ==> r.value < |s| && s[r.value] == c && c !in s[..r.value]
  {
    if s == [] then None
    else if s[0] == c then Some(0)
    else
      match IndexOf(s[1..], c)
      case None => None
      case Some(i) =>
        assert s[..i + 1] == [s[0]] + s[1..][..i];
        Some(i + 1)
  }

  /** chroot_path: the host from its first '/' on, or '' when it has none. */
  function ChrootPath(host: string): (p: string)
    ensures p == "" <==> '/' !in host
    ensures p != "" ==> p[0] == '/'
    ensures |p| <= |host| && host[|host| - |p|..] == p
    ensures '/' !in host[..|host| - |p|]
  {
    match IndexOf(host, '/')
    case None => ""
    case Some(i) => host[i..]
  }

  predicate Chrooted(host: string)
  {
    ChrootPath(host) != ""
  }

  /** `String#start_with?`. */
  predicate StartsWith(s: string, prefix: string)
  {
    |prefix| <= |s| && s[..|prefix|] == prefix
  }

  predicate EndsWithSlash(host: string)
  {
    |host| > 0 && host[|host| - 1] == '/'
  }

  /** strip_chroot_from: a chrooted client drops the chroot from the front of a path that
      starts with it; any other path, and nil, comes back as it is. */
  function StripChrootFrom(host: string, path: Option<string>): (r: Option<string>)
    ensures path.None? ==> r.None?
    ensures path.Some? && Chrooted(host) && StartsWith(path.value, ChrootPath(host))
            ==> r.Some? && ChrootPath(host) + r.value == path.value
    ensures !(path.Some? && Chrooted(host) && StartsWith(path.value, ChrootPath(host))) ==> r == path
  {
    var chroot := ChrootPath(host);
    if path.Some? && chroot != "" && StartsWith(path.value, chroot) then
      assert chroot + path.value[|chroot|..] == path.value;
      Some(path.value[|chroot|..])
    else path
  }

  /** Stripping inverts prefixing with the chroot, for every path, chrooted or not. */
  lemma StripChrootRoundTrip(host: string, rel: string)
    ensures StripChrootFrom(host, Some(ChrootPath(host) + rel)) == Some(rel)
  {
    var chroot := ChrootPath(host);
    assert (chroot + rel)[..|chroot|] == chroot;
    if chroot != "" {
      var r := StripChrootFrom(host, Some(chroot + rel));
      assert chroot + r.value == chroot + rel;
      assert r.value == (chroot + r.value)[|chroot|..];
    }
  }

  /** A client is chrooted iff its host names a path. */
  lemma ChrootedIffHostHasSlash(host: string)
    ensures Chrooted(host) <==> '/' in host
    ensures Chrooted(host) ==> host == host[..|host| - |ChrootPath(host)|] + ChrootPath(host)
  {
  }

  /** The synchronous create: the C result code, and the new path with the chroot stripped. */
  function CreateResult(host: string, rc: int, newPath: Option<string>): (int, Option<string>)
  {
    (rc, StripChrootFrom(host, newPath))
  }

  /** A synchronous create keeps the result code and reports the created path relative to the
      chroot; a nil path stays nil. */
  lemma CreateReportsRelativePath(host: string, rc: int, rel: string)
    ensures CreateResult(host, rc, Some(ChrootPath(host) + rel)) == (rc, Some(rel))
    ensures CreateResult(host, rc, None) == (rc, None)
  {
    StripChrootRoundTrip(host, rel);
  }

  /** The ext setup_completion override: for `create` with a callback, the callback is replaced
      by a wrapper that strips the chroot from the event's `:string` before calling it. */
  function WrapCreateCallback(host: string, meth: string, opts: CallOpts): (o: CallOpts)
    ensures o.callbackContext == opts.callbackContext
    ensures o.watcher == opts.watcher && o.watcherContext == opts.watcherContext
    ensures meth == "create" && opts.callback.Some?
            ==> o.callback == Some(StripChrootThen(host, opts.callback.value))
    ensures !(meth == "create" && opts.callback.Some?) ==> o == opts
  {
    if meth == "create" && opts.callback.Some? then
      opts.(callback := Some(StripChrootThen(host, opts.callback.value)))
    else opts
  }

  /** `hash[:string] = strip_chroot_from(hash[:string])`; a watch event has no string. */
  function StripString(host: string, ev: Event): Event
  {
    match ev
    case Completion(id, rc, t, p, str, c) => Completion(id, rc, t, p, StripChrootFrom(host, str), c)
    case Watch(_, _, _, _, _) => ev
  }

  /** What calling a handler with an event comes down to: a plain handler is called with the
      event; the create wrapper strips the chroot and calls what it wraps, and calling an object
      that does not respond to `call` raises NoMethodError. */
  function Run(h: Handler, ev: Event): (r: Result<Invocation, ErrorClass>)
    ensures r.Ok? ==> !r.value.handler.StripChrootThen? && RespondsToCall(r.value.handler)
    ensures !h.StripChrootThen? && !RespondsToCall(h) ==> r == Err(NoMethodError)
    ensures !h.StripChrootThen? && RespondsToCall(h) ==> r == Ok(Invocation(h, ev))
  {
    match h
    case Proc(_) => Ok(Invocation(h, ev))
    case Convertible(_, callable) => if callable then Ok(Invocation(h, ev)) else Err(NoMethodError)
    case Callable(_) => Ok(Invocation(h, ev))
    case GlobalLogger => Ok(Invocation(h, ev))
    case Inert(_) => Err(NoMethodError)
    case StripChrootThen(host, inner) => Run(inner, StripString(host, ev))
  }

  /** Asynchronous create, end to end: the callback registered through the wrapper is
      dispatched the completion that carries the absolute path, and the original callback
      receives the path relative to the chroot, with the caller's context. */
  lemma AsyncCreateSeesRelativePath(r: Registry, host: string, n: nat, ctx: Context, rc: int,
                                    path: Option<string>, rel: string)
    requires WellFormed(r)
    ensures var opts := WrapCreateCallback(host, "create", CallOpts(Some(Proc(n)), ctx, None, None));
      var (r1, id) := Allocate(r, opts);
      var ev := Completion(id, rc, None, path, Some(ChrootPath(host) + rel), None);
      var out := Step(r1, Some(ev)).1;
      && out.Delivered? && out.call.Some?
      && Run(out.call.value.handler, out.call.value.arg)
         == Ok(Invocation(Proc(n), Completion(id, rc, None, path, Some(rel), ctx)))
  {
    var opts := WrapCreateCallback(host, "create", CallOpts(Some(Proc(n)), ctx, None, None));
    var wrapper := StripChrootThen(host, Proc(n));
    assert opts.callback == Some(wrapper);
    AllocateFresh(r, opts);
    var (r1, id) := Allocate(r, opts);
    assert r1.completions[id] == Entry(Some(wrapper), ctx);
    var ev := Completion(id, rc, None, path, Some(ChrootPath(host) + rel), None);
    var delivered := Completion(id, rc, None, path, Some(ChrootPath(host) + rel), ctx);
    assert Step(r1, Some(ev)).1 == Delivered(delivered, Some(Invocation(wrapper, delivered)));
    StripChrootRoundTrip(host, rel);
    assert StripString(host, delivered) == Completion(id, rc, None, path, Some(rel), ctx);
  }

  // ---------------------------------------------------------------------------
  // The client object.

  class ZookeeperBase {
    const host: string
    var defaultWatcher: Handler
    const registry: RequestRegistry
    var running: bool
    var closed: bool
    var hasData: bool
    var eventQueue: QueueWithPipe?<QueueItem>

    ghost predicate Valid()
      reads this, registry, eventQueue
    {
      && registry.Valid()
      && (running ==> eventQueue != null)
      && (eventQueue != null ==> eventQueue.Valid())
    }

    /** The state initialize sets up before it connects: empty maps, the counter at 1, no
        queue, neither running nor closed, and the given watcher or the logging default. */
    constructor (host: string, watcher: Option<Handler>)
      ensures Valid() && fresh(registry)
      ensures this.host == host && registry.Value() == Registry(1, map[], map[])
      ensures defaultWatcher == (if watcher.Some? then watcher.value else GlobalLogger)
      ensures !running && !closed && !hasData && eventQueue == null
    {
      this.host := host;
      registry := new RequestRegistry(1);
      defaultWatcher := if watcher.Some? then watcher.value else GlobalLogger;
      running := false;
      closed := false;
      hasData := false;
      eventQueue := null;
    }

    /** ZookeeperBase.new: a host ending in '/' raises ArgumentError; otherwise the client is
        set up and reopened, so it ends up running with a fresh queue and only the global
        watcher registered. */
    static method New(host: string, watcher: Option<Handler>) returns (r: Result<ZookeeperBase, ErrorClass>)
      ensures r.Err? <==> EndsWithSlash(host)
      ensures r.Err? ==> r.error == ArgumentError
      ensures r.Ok? ==> var zk := r.value;
        && fresh(zk) && fresh(zk.registry) && zk.Valid() && zk.host == host
        && zk.running && !zk.closed
        && zk.defaultWatcher == (if watcher.Some? then watcher.value else GlobalLogger)
        && zk.registry.Value() == Registry(1, map[ZKRB_GLOBAL_CB_REQ := Entry(Some(zk.defaultWatcher), None)], map[])
        && zk.eventQueue != null && fresh(zk.eventQueue) && zk.eventQueue.Value() == Fresh()
    {
      if EndsWithSlash(host) {
        return Err(ArgumentError);
      }
      var zk := new ZookeeperBase(host, watcher);
      // The first reopen finds no handle, so close leaves the client open whatever init
      // does to the closed flag.
      var err := zk.Reopen(None, false);
      return Ok(zk);
    }

    /** state: closed whenever closed? holds, otherwise what the C handle reports. */
    function State(backend: int): (s: int)
      reads this
      ensures closed ==> s == ZOO_CLOSED_STATE
      ensures !closed ==> s == backend
    {
      if closed then ZOO_CLOSED_STATE else backend
    }

    /** stop_running!: running becomes false, whatever it was; nothing else changes. */
    method StopRunning()
      requires Valid()
      modifies this
      ensures Valid() && !running
      ensures closed == old(closed) && hasData == old(hasData)
      ensures eventQueue == old(eventQueue) && defaultWatcher == old(defaultWatcher)
    {
      if running {
        running := false;
      }
    }

    /** barf_unless_running!: ShuttingDownException unless running and not closed; None means
        the block runs. */
    method BarfUnlessRunning() returns (err: Option<ErrorClass>)
      ensures err.None? <==> running && !closed
      ensures err.Some? ==> err.value == ShuttingDownException
    {
      if !(running && !closed) {
        return Some(ShuttingDownException);
      }
      return None;
    }

    /** set_default_global_watcher: the global entry gets the default watcher, nil context. */
    method SetDefaultGlobalWatcher()
      requires Valid()
      modifies registry
      ensures Valid()
      ensures registry.Value() == InstallGlobal(old(registry.Value()), Some(defaultWatcher))
    {
      registry.SetGlobalWatcher(Some(defaultWatcher));
    }

    /** close: stop running; destroy the C handle if it exists and is not destroyed yet, which
        marks the client closed; close the event queue, if any, and drop it. */
    method Close()
      requires Valid()
      modifies this, eventQueue
      ensures Valid() && !running && eventQueue == null
      ensures closed == (old(closed) || old(hasData))
      ensures hasData == old(hasData) && defaultWatcher == old(defaultWatcher)
      ensures old(eventQueue) != null ==> old(eventQueue).Value() == CloseStep(old(eventQueue.Value()))
    {
      StopRunning();
      if !closed && hasData {
        closed := true;
      }
      if eventQueue != null {
        eventQueue.Close();
        eventQueue := null;
      }
    }

    /** reopen: a watcher other than the default raises and changes nothing. Otherwise close,
        flush every watcher and reinstall the global one, let the C init start the connection
        (running, with a handle), and create a fresh event queue. Whether init also clears the
        closed flag that close set is not visible from the Ruby side, so it is a parameter. */
    method Reopen(watcher: Option<Handler>, initClearsClosed: bool) returns (err: Option<ErrorClass>)
      requires Valid()
      modifies this, registry, eventQueue
      ensures Valid()
      ensures watcher.Some? && watcher.value != old(defaultWatcher)
              ==> err == Some(RuntimeError) && unchanged(this, registry)
                  && (eventQueue != null ==> unchanged(eventQueue))
      ensures !(watcher.Some? && watcher.value != old(defaultWatcher)) ==>
        && err.None? && running && hasData
        && closed == (!initClearsClosed && (old(closed) || old(hasData)))
        && defaultWatcher == old(defaultWatcher)
        && registry.Value() == ResetWatchers(old(registry.Value()), Some(defaultWatcher))
        && eventQueue != null && fresh(eventQueue) && eventQueue.Value() == Fresh()
        && (old(eventQueue) != null ==> old(eventQueue).Value() == CloseStep(old(eventQueue.Value())))
    {
      if watcher.Some? && watcher.value != defaultWatcher {
        return Some(RuntimeError);
      }
      Close();
      registry.ClearWatchers();
      SetDefaultGlobalWatcher();
      running := true;
      if initClearsClosed {
        closed := false;
      }
      hasData := true;
      eventQueue := new QueueWithPipe<QueueItem>();
      err := None;
    }

    /** get_next_event: nil unless running; otherwise pop the queue, non-blocking when asked
        not to block, and read the pop as NextFromPop does. */
    method GetNextEvent(blocking: bool) returns (ne: NextEvent)
      requires Valid()
      modifies eventQueue
      ensures Valid()
      ensures !running ==> ne == NoNext && (eventQueue != null ==> unchanged(eventQueue))
      ensures running ==>
        && eventQueue.Value() == PopStep(old(eventQueue.Value()), !blocking).0
        && ne == NextFromPop(PopStep(old(eventQueue.Value()), !blocking).1)
    {
      if !running {
        return NoNext;
      }
      var p := eventQueue.Pop(!blocking);
      ne := NextFromPop(p);
    }

    /** dispatch_next_callback over this client's get_next_event. */
    method DispatchNextCallback(blocking: bool) returns (out: DispatchOutcome)
      requires Valid()
      modifies registry, eventQueue
      ensures Valid()
      ensures !running ==>
        && out == NoEvent && registry.Value() == old(registry.Value())
        && (eventQueue != null ==> eventQueue.Value() == old(eventQueue.Value()))
      ensures running ==>
        var (q', p) := PopStep(old(eventQueue.Value()), !blocking);
        && eventQueue.Value() == q'
        && (registry.Value(), out) == StepAfter(old(registry.Value()), NextFromPop(p))
    {
      var ne := GetNextEvent(blocking);
      match ne
      case NoNext => out := NoEvent;
      case Next(e) => out := registry.Dispatch(Some(e));
      case NextRaised(err) => out := DispatchRaised(err);
      case NextBlocks => out := WaitsForEvent;
    }
  }
}
