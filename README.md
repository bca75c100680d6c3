# A Dafny model of the zookeeper Ruby client's dispatch core

This project models the part of the Ruby ZooKeeper client that sits between the native
library and user callbacks. It is written in Dafny and every property below is proved.

- **Request registry** (`lib/zookeeper/common.rb`). `setup_call` hands out request ids from
  a counter and records a completion entry, a watcher entry or both under the new id.
  `dispatch_next_callback` takes one event hash. It classifies the hash as a completion when
  it has `:rc` and as a watch event otherwise. It then resolves the entry, re-arms it on a
  session event, attaches the entry's context and names the handler that runs.
- **Event queue** (`QueueWithPipe`, in `lib/zookeeper/common/queue_with_pipe.rb` and again in
  `java/zookeeper_base.rb`). A FIFO with a side pipe that gets one byte per push. A pop reads
  one byte back unless `clear_reads_on_pop` is off.
- **C-extension client** (`ext/zookeeper_base.rb`). It covers the running and closed flags,
  `state`, the shutdown guard, `close`, `reopen` (flush the watchers, reinstall the global
  one, create a fresh queue) and `get_next_event`. It also covers chroot handling: the chroot
  part of the host is stripped from paths returned by synchronous and asynchronous creates.
- **Java client** (`java/zookeeper_base.rb`). It covers `call_type`, the hashes each Java
  callback pushes (and how dispatch classifies them), `set_default_global_watcher`, `reopen`,
  `close`, `selectable_io` and `get_next_event`.
- **Result codes and constants** (`lib/zookeeper/exceptions.rb`, `lib/zookeeper/constants.rb`).
  `by_code` and `raise_on_error` map result codes to exception classes. `event_by_value` and
  `state_by_value` scan the constant table.

## Structure

The stateful parts follow one pattern. A datatype holds the state as a value (`Registry`,
`QueueState`, `Lifecycle`), and there is one pure function per operation (`Allocate`, `Step`,
`PushStep`, `PopStep`, `CloseStep`, `CloseCorrected`, ...). Each class (`RequestRegistry`,
`QueueWithPipe`, `ZookeeperBase`, `JavaBase`) updates its fields in place, and its methods are
proved to follow those functions. The lemmas state the promised properties about the
functions. Those properties are consume-once resolution, the re-arming on session events, the
permanence of the global watcher, FIFO order, and the pipe byte count.

| file | module | source |
|---|---|---|
| `wrappers.dfy` | `Wrappers` | `Option`, `Result` |
| `constants.dfy` | `Constants` | `lib/zookeeper/constants.rb` |
| `exceptions.dfy` | `Exceptions` | `lib/zookeeper/exceptions.rb` |
| `queue.dfy` | `EventQueue` | `lib/zookeeper/common/queue_with_pipe.rb`, `java/zookeeper_base.rb` lines 62-107 |
| `common.dfy` | `Common` | `lib/zookeeper/common.rb` |
| `ext.dfy` | `Ext` | `ext/zookeeper_base.rb` |
| `java.dfy` | `Java` | `java/zookeeper_base.rb` |

### Modelling choices

- **The session re-store.** On a session event, dispatch calls `setup_completion` or
  `setup_watcher` with the entry it just looked up, which stands in for the call options.
  Those methods read `:callback_context` and `:watcher_context`, but a stored entry has only
  `:context`. So the re-armed entry keeps its handler and its context becomes nil. When no
  entry was found, the call dereferences nil and raises; the model reports this as
  `NoMethodError`.
- **A lookup with no match.** When nothing matches, `event_by_value` and `state_by_value`
  finish the `each` loop without an early return. The result is then the value of `each`:
  the list of constant names, not nil (`Constants.ScanExhausted`).
- **Which `get_next_event` runs.** `lib/zookeeper/common.rb` defines a `get_next_event` that
  returns nil once closed. Both client classes define their own `get_next_event`, and a class
  method takes precedence over a method of an included module, so that guard never runs. The
  guard is modelled as `Common.GuardedNextEvent`. Each class's `DispatchNextCallback` uses the
  class's own method.
- **Handlers.** Handlers are opaque values. The model records which handler would be called
  and with which hash (`Invocation`). A handler that does not respond to `call` is skipped.
  Calling the chroot-stripping create wrapper is unfolded by `Ext.Run`. Besides Procs, a
  handler may be an object that has `to_proc` (a Method, which also responds to `call`, or a
  Symbol, which does not), an object that responds to `call` and has no `to_proc`, or an
  object with neither. What `to_proc` returns is a Proc, identified by the object's id.

### What the code does that is easy to miss

- **Two entries under one id.** `setup_call` stores both a completion and a watcher under the
  same id when a call supplies both (lib/zookeeper/common.rb:14-23, `Common.AllocateFresh`).
- **A session event under the watcher's own id.** The watcher is called for the session event
  too, with its context. It stays armed with a nil context and is called again, then removed,
  on the next real event (lib/zookeeper/common.rb:62-77, `Common.WatcherAcrossSessionEvent`).
  When the session event arrives under the global id, the request's watcher fires exactly
  once (`Common.WatcherFiresOnceAfterGlobalSessionEvent`).
- **No bound on re-arming.** Every session event for an id stores its entry again
  (lib/zookeeper/common.rb:64-73), so a watcher can be called once per session event before
  the real event removes it.
- **Completions across reopen and close.** Closing or reopening leaves completion entries in
  the registry; only watchers are flushed (ext/zookeeper_base.rb:38-42).
- **A watcher passed as a block.** The Java `reopen` passes the watcher on as a block
  (java/zookeeper_base.rb:225), so Ruby calls `to_proc` on a watcher that is not a Proc, and
  the converted Proc becomes the default and global watcher (`Common.AsBlock`). A watcher
  with no `to_proc` makes Ruby raise TypeError there, so `new` fails too
  (`Java.JavaBase.New`). The raise comes after line 224, which as written flushes nothing;
  in the corrected `Java.JavaBase.Reopen` it comes after the flush.

## Model

| member | source | states |
|---|---|---|
| Constants.Scan | lib/zookeeper/constants.rb:75-80 | the name the scan stops at belongs to a constant with the looked-up value whose name matches the pattern |
| Constants.Names | lib/zookeeper/constants.rb:75 | the names of the table, in table order |
| Constants.HeaderMatchesNeither | lib/zookeeper/constants.rb:5-9 | the callback id and the file-type masks match neither the event nor the state pattern |
| Constants.SessionStatesMatchState | lib/zookeeper/constants.rb:11-17 | every session-state name matches `ZOO..*STATE` and not `ZOO..*EVENT` |
| Constants.WatchEventsMatchEvent | lib/zookeeper/constants.rb:19-25 | every watch-type name matches `ZOO..*EVENT` and not `ZOO..*STATE` |
| Constants.SystemErrorsMatchNeither | lib/zookeeper/constants.rb:27-37 | the system error names match neither pattern |
| Constants.ApiErrorsMatchNeither | lib/zookeeper/constants.rb:39-53 | the API error names match neither pattern |
| Constants.Classification | lib/zookeeper/constants.rb:76 | a constant matches the event pattern iff it is a watch type, and the state pattern iff it is a session state |
| Constants.ScanFindsUnique | lib/zookeeper/constants.rb:75-80 | when exactly one matching constant has the value, the scan returns its name |
| Constants.ScanFindsNothing | lib/zookeeper/constants.rb:75-80 | when no matching constant has the value, the scan runs to the end |
| Constants.EventValuesDistinct | lib/zookeeper/constants.rb:20-25 | two watch-type constants with one value are the same constant |
| Constants.StateValuesDistinct | lib/zookeeper/constants.rb:12-17 | two session-state constants with one value are the same constant |
| Constants.ScanByValue | lib/zookeeper/constants.rb:72-92 | nil iff the value is nil; a returned name is a constant of the table with that value and a matching name; otherwise the list of names |
| Constants.EventByValue | lib/zookeeper/constants.rb:72-81 | nil iff the value is nil; a returned name is a table constant with that value whose name matches `ZOO..*EVENT` (`Constants.EventByValueFinds`, `Constants.EventByValueSound`) |
| Constants.StateByValue | lib/zookeeper/constants.rb:83-92 | nil iff the value is nil; a returned name is a table constant with that value whose name matches `ZOO..*STATE` (`Constants.StateByValueFinds`, `Constants.StateByValueSound`) |
| Constants.EventByValueFinds | lib/zookeeper/constants.rb:72-81 | event_by_value maps the value of every watch type back to its name |
| Constants.EventByValueSound | lib/zookeeper/constants.rb:72-81 | any name event_by_value returns is a watch type with that value |
| Constants.EventByValueExhausted | lib/zookeeper/constants.rb:75-80 | a value with no watch type gives the list of names that `each` returns, not nil |
| Constants.StateByValueFinds | lib/zookeeper/constants.rb:83-92 | state_by_value maps the value of every session state back to its name |
| Constants.StateByValueSound | lib/zookeeper/constants.rb:83-92 | any name state_by_value returns is a session state with that value |
| Constants.StateByValueExhausted | lib/zookeeper/constants.rb:86-91 | a value with no session state gives the list of names, not nil |
| Constants.NilLooksUpNil | lib/zookeeper/constants.rb:73 | both lookups return nil for a nil value |
| Constants.LookupExamples | lib/zookeeper/constants.rb:84-92 | -1 is ZOO_SESSION_EVENT; 0 is ZOO_CLOSED_STATE, not ZOK; -112 is ZOO_EXPIRED_SESSION_STATE although ZSESSIONEXPIRED is also -112 |
| Exceptions.Superclass | lib/zookeeper/exceptions.rb:5-37 | every class except StandardError has a superclass, one level closer to the root |
| Exceptions.ByCode | lib/zookeeper/exceptions.rb:39-67 | a class is returned only for the code the class-to-code table gives it; any other code raises RuntimeError (`Exceptions.ByCodeInverse`, `Exceptions.ByCodeDefinedOnKnownCodes`) |
| Exceptions.RaiseOnError | lib/zookeeper/exceptions.rb:70-73 | nothing is raised iff the code is ZOK; any other listed code raises exactly by_code's class; an unlisted code raises RuntimeError |
| Exceptions.ByCodeDefinedOnKnownCodes | lib/zookeeper/exceptions.rb:39-67 | by_code returns a class exactly for the result codes of the constant table and raises for every other code |
| Exceptions.ByCodeInverse | lib/zookeeper/exceptions.rb:40-64 | by_code agrees, code by code, with an independent class-to-code table |
| Exceptions.ByCodeInjective | lib/zookeeper/exceptions.rb:40-64 | distinct listed codes map to distinct classes |
| Exceptions.ByCodeIsZookeeperException | lib/zookeeper/exceptions.rb:5-31 | every class by_code returns is a ZookeeperException |
| Exceptions.ClientExceptionsAreZookeeperExceptions | lib/zookeeper/exceptions.rb:33-37 | the client's own exceptions (connection closed, not connected, shutting down, data too large) are ZookeeperExceptions |
| Exceptions.ZookeeperExceptionPlacement | lib/zookeeper/exceptions.rb:5-6 | ZookeeperException is a StandardError and not EverythingOk, and the RuntimeError raised for an unknown code is not a ZookeeperException |
| Common.StoreWatcher | lib/zookeeper/common.rb:25-28 | the watcher entry for the id holds the watcher and its context; no other entry and no completion changes |
| Common.StoreCompletion | lib/zookeeper/common.rb:30-33 | the completion entry for the id holds the callback and its context; nothing else changes |
| Common.NextFromPop | java/zookeeper_base.rb:487-494 | the kill token raises DispatchShutdownException; an empty non-blocking pop gives nil; other errors propagate; events pass through |
| Common.GuardedNextEvent | lib/zookeeper/common.rb:8-11 | nil once closed; otherwise whatever the backend gives |
| Common.InstallGlobal | java/zookeeper_base.rb:464-469 | the global id gets the watcher with a nil context; every other watcher entry, the completions and the counter stay |
| Common.RequestRegistry.constructor | lib/zookeeper/common.rb:14-18 | empty maps and the counter at its first value |
| Common.RequestRegistry.SetupWatcher | lib/zookeeper/common.rb:25-28 | the object's maps change as StoreWatcher says |
| Common.RequestRegistry.SetupCompletion | lib/zookeeper/common.rb:30-33 | the object's maps change as StoreCompletion says |
| Common.RequestRegistry.SetupCall | lib/zookeeper/common.rb:14-23 | returns the counter value, advances the counter, stores the requested entries, and keeps the registry well formed |
| Common.RequestRegistry.GetWatcher | lib/zookeeper/common.rb:35-45 | returns the entry; removes it unless the id is global or the event is a session event |
| Common.RequestRegistry.GetCompletion | lib/zookeeper/common.rb:47-49 | returns the entry and removes it |
| Common.RequestRegistry.ClearWatchers | ext/zookeeper_base.rb:40 | the watcher map becomes empty; completions and the counter stay |
| Common.RequestRegistry.SetGlobalWatcher | ext/zookeeper_base.rb:157-160 | the global entry is installed as InstallGlobal says |
| Common.RequestRegistry.Dispatch | lib/zookeeper/common.rb:51-85 | the outcome and the new maps are those of one Step, and the registry stays well formed |
| Common.Allocate | lib/zookeeper/common.rb:14-23 | the id is the old counter, which moves on by one; a completion entry with the caller's context is stored iff a callback is given, and a watcher entry iff a watcher is given; otherwise the maps stay (freshness: `Common.AllocateFresh`, `Common.IdsNeverReused`) |
| Common.LookupWatcher | lib/zookeeper/common.rb:35-45 | returns the entry iff the id has one; removes exactly that entry unless the id is global or the event is a session event (`Common.WatcherSingleFire`, `Common.StepKeepsGlobal`) |
| Common.TakeCompletion | lib/zookeeper/common.rb:47-49 | returns the entry iff the id has one and removes exactly that id; watchers stay (`Common.ConsumedCompletionStaysConsumed`) |
| Common.Step | lib/zookeeper/common.rb:51-85 | the counter never moves; a completion leaves the watchers and a watch event the completions; a delivery is for the event's own id and kind; an orphan reports the event (`Common.StepRoutes`, `Common.StepFrame`, `Common.SessionEventRearms`) |
| Common.AsBlock | java/zookeeper_base.rb:225 | `&watcher` passes a Proc as it is and converts any other object with `to_proc` into a Proc that responds to `call`; it fails (TypeError) exactly for objects without `to_proc` |
| Common.ResetWatchers | ext/zookeeper_base.rb:38-42 | after the flush and reinstall the only watcher is the global one with a nil context; completions and counter stay (`Common.ResetWatchersLeavesOnlyGlobal`) |
| Common.AllocateFresh | lib/zookeeper/common.rb:14-33 | the id is the old counter and unused; the counter grows by one; a completion entry exists iff a callback was given, and a watcher entry iff a watcher was given, both under that id; no other entry changes |
| Common.IdsNeverReused | lib/zookeeper/common.rb:14-23 | over any run of calls the ids are consecutive, strictly increasing and never in use before |
| Common.StepRoutes | lib/zookeeper/common.rb:51-69 | no event changes nothing and returns nil; a completion touches only the completion map, a watch event only the watcher map; the counter never moves |
| Common.CompletionRoundTrip | lib/zookeeper/common.rb:47-84 | a registered callback is called once with its context; a second identical event is an orphan that changes nothing |
| Common.WatcherSingleFire | lib/zookeeper/common.rb:35-45 | a per-request watcher fires on its first non-session event with its context and is removed; a repeat is an orphan |
| Common.SessionEventRearms | lib/zookeeper/common.rb:64-73 | a session event is delivered with the entry's context, and the entry is stored again with the same handler and a nil context |
| Common.SessionEventWithoutEntryRaises | lib/zookeeper/common.rb:67-69 | a session event with no entry raises and leaves the registry as it was |
| Common.OrphanEventChangesNothing | lib/zookeeper/common.rb:81-84 | a non-session event with no entry runs no handler and changes nothing |
| Common.WatcherAcrossSessionEvent | lib/zookeeper/common.rb:62-77 | a session event under a watcher's id calls the watcher and re-arms it; the next real event calls it again and removes it |
| Common.WatcherFiresOnceAfterGlobalSessionEvent | lib/zookeeper/common.rb:35-77 | a session event under the global id leaves a request's watcher armed; it then fires exactly once on the real event |
| Common.StepKeepsGlobal | lib/zookeeper/common.rb:37-40 | no single dispatch removes the global watcher or changes its handler |
| Common.GlobalWatcherPermanent | lib/zookeeper/common.rb:37-40 | the global watcher survives any sequence of dispatched events, handler unchanged |
| Common.StepFrame | lib/zookeeper/common.rb:35-49 | an event for one id leaves every other id's completion and watcher entries, and whether it has them, unchanged |
| Common.StepKeepsCompletionConsumed | lib/zookeeper/common.rb:47-49 | a step for an id with no completion entry neither stores one nor delivers a completion for it |
| Common.StepKeepsWatcherConsumed | lib/zookeeper/common.rb:35-45 | a step for a non-global id with no watcher entry neither stores one nor delivers a watch event for it |
| Common.ConsumedCompletionStaysConsumed | lib/zookeeper/common.rb:47-49 | over any run of dispatched events, a consumed completion id never regains an entry and never gets a completion delivered |
| Common.ConsumedWatcherStaysConsumed | lib/zookeeper/common.rb:35-45 | over any run of dispatched events, a removed request watcher never comes back and no watch event is delivered for its id |
| Common.CompletionResolvedAtMostOnce | lib/zookeeper/common.rb:14-33 | a completion registered by setup_call is delivered on its result and never again, whatever events follow |
| Common.WatcherFiresAtMostOnce | lib/zookeeper/common.rb:35-45 | a request watcher that fires on a non-session event never fires again, whatever events follow |
| Common.ResetWatchersLeavesOnlyGlobal | ext/zookeeper_base.rb:38-42 | after the reopen reset the only watcher is the global one with the default handler; completions and the counter stay |
| Common.Difference | lib/zookeeper/common.rb:88 | exactly the elements of the first list that the second lacks |
| Common.AssertSupportedKeys | lib/zookeeper/common.rb:87-92 | BadArguments unless every given key is supported |
| Common.AssertRequiredKeys | lib/zookeeper/common.rb:94-99 | BadArguments unless every required key is given |
| Common.SupportedAndRequiredMeansExactly | lib/zookeeper/common.rb:87-99 | checking one list both ways accepts exactly the hashes whose keys are the list's elements |
| EventQueue.PushStep | lib/zookeeper/common/queue_with_pipe.rb:17-22 | the item is appended even when the write then raises; no error and one more byte iff both ends are open; the flags stay (`EventQueue.PushAppendsOneByte`) |
| EventQueue.PopStep | lib/zookeeper/common/queue_with_pipe.rb:25-32 | an empty queue is left as it is and yields nothing; otherwise the head leaves the queue, and a popped item is that head (`EventQueue.PopReturnsHead`) |
| EventQueue.CloseStep | lib/zookeeper/common/queue_with_pipe.rb:34-36 | both ends end closed; items, bytes and flag stay (`EventQueue.CloseIdempotent`) |
| EventQueue.PushAppendsOneByte | lib/zookeeper/common/queue_with_pipe.rb:17-22 | push appends at the tail and writes one byte iff both ends are open; a closed end raises IOError or EPIPE |
| EventQueue.EmptyPopTouchesNothing | lib/zookeeper/common/queue_with_pipe.rb:25-28 | an empty non-blocking pop raises ThreadError with no change, the pipe included; a blocking one waits |
| EventQueue.PopReturnsHead | lib/zookeeper/common/queue_with_pipe.rb:25-32 | a pop returns the head and consumes one byte iff clear_reads_on_pop; on an open, covered queue it never waits |
| EventQueue.CoveredPreserved | lib/zookeeper/common/queue_with_pipe.rb:17-36 | push, pop, close and the flag writer keep at least one pipe byte per queued item while both ends are open |
| EventQueue.BalancedPreserved | lib/zookeeper/common/queue_with_pipe.rb:14-29 | with the default flag, pipe bytes equal the queue length after every push and pop |
| EventQueue.CloseIdempotent | lib/zookeeper/common/queue_with_pipe.rb:34-36 | close closes both ends, keeps the items, and a second close changes nothing |
| EventQueue.PushAllAppends | lib/zookeeper/common/queue_with_pipe.rb:17-22 | a run of pushes onto an open queue appends the run in order |
| EventQueue.PopNDrains | lib/zookeeper/common/queue_with_pipe.rb:25-32 | pops on an open queue return its items head first and empty it |
| EventQueue.Fifo | lib/zookeeper/common/queue_with_pipe.rb:17-32 | items come out in push order, after those already waiting |
| EventQueue.FreshIsBalanced | lib/zookeeper/common/queue_with_pipe.rb:7-15 | a new queue is empty, with an empty open pipe and clear_reads_on_pop on |
| EventQueue.QueueWithPipe.constructor | lib/zookeeper/common/queue_with_pipe.rb:7-15 | a new queue is in the fresh state |
| EventQueue.QueueWithPipe.Push | lib/zookeeper/common/queue_with_pipe.rb:17-23 | the new state and the error are PushStep's; the queue stays covered |
| EventQueue.QueueWithPipe.Pop | lib/zookeeper/common/queue_with_pipe.rb:25-32 | the new state and the result are PopStep's; the queue stays covered |
| EventQueue.QueueWithPipe.Close | java/zookeeper_base.rb:91-93 | the new state is CloseStep's |
| EventQueue.QueueWithPipe.SetClearReadsOnPop | lib/zookeeper/common/queue_with_pipe.rb:5 | only the flag changes |
| EventQueue.QueueWithPipe.SelectableIo | lib/zookeeper/common/queue_with_pipe.rb:38-40 | always the read end |
| Ext.IndexOf | ext/zookeeper_base.rb:352 | the first position of the character, or nil iff it does not occur |
| Ext.ChrootPath | ext/zookeeper_base.rb:349-360 | a suffix of the host that is empty iff the host has no '/', and otherwise starts at the first '/' |
| Ext.ChrootedIffHostHasSlash | ext/zookeeper_base.rb:345-347 | chrooted iff the host contains '/', and the host is its connect string followed by the chroot |
| Ext.StripChrootFrom | ext/zookeeper_base.rb:243-246 | nil stays nil; a chrooted path starting with the chroot loses exactly that prefix; any other path is unchanged |
| Ext.StripChrootRoundTrip | ext/zookeeper_base.rb:243-246 | stripping undoes prefixing with the chroot, for every path and host |
| Ext.CreateReportsRelativePath | ext/zookeeper_base.rb:142-146 | a synchronous create keeps the rc and reports the path relative to the chroot |
| Ext.WrapCreateCallback | ext/zookeeper_base.rb:226-240 | only a create with a callback gets the callback wrapped; contexts and watcher stay |
| Ext.Run | ext/zookeeper_base.rb:228-235 | calling a handler other than the wrapper yields an invocation of it iff it responds to `call`, and NoMethodError otherwise; the wrapper ends in a plain callable handler |
| Ext.AsyncCreateSeesRelativePath | ext/zookeeper_base.rb:226-236 | an asynchronous create's original callback receives the path relative to the chroot, with its context |
| Ext.ZookeeperBase.constructor | ext/zookeeper_base.rb:63-99 | empty maps, counter 1, no queue, not running or closed, default watcher chosen |
| Ext.ZookeeperBase.New | ext/zookeeper_base.rb:63-104 | ArgumentError iff the host ends in '/'; otherwise running, not closed, a fresh queue and only the global watcher |
| Ext.ZookeeperBase.State | ext/zookeeper_base.rb:171-174 | ZOO_CLOSED_STATE whenever closed, else the handle's state |
| Ext.ZookeeperBase.StopRunning | ext/zookeeper_base.rb:196-203 | running ends false whatever it was; nothing else changes |
| Ext.ZookeeperBase.BarfUnlessRunning | ext/zookeeper_base.rb:248-253 | ShuttingDownException unless running and not closed; otherwise the block runs |
| Ext.ZookeeperBase.SetDefaultGlobalWatcher | ext/zookeeper_base.rb:154-161 | the default watcher is installed under the global id with a nil context |
| Ext.ZookeeperBase.Close | ext/zookeeper_base.rb:124-138 | not running; closed if it was or a handle existed; the queue closed and dropped |
| Ext.ZookeeperBase.Reopen | ext/zookeeper_base.rb:27-61 | a foreign watcher raises and changes nothing; otherwise running, only the global watcher, completions kept, a fresh queue, and closed as close left it unless init clears it |
| Ext.ZookeeperBase.GetNextEvent | ext/zookeeper_base.rb:184-192 | nil unless running; otherwise one pop, read as NextFromPop |
| Ext.ZookeeperBase.DispatchNextCallback | lib/zookeeper/common.rb:51-85 | one pop followed by one dispatch step; unless running, nothing is dispatched and neither the registry nor the queue changes |
| Java.CallType | java/zookeeper_base.rb:503-509 | asynchronous iff a callback is given, watching iff a watcher is given |
| Java.CallTypeIsBijective | java/zookeeper_base.rb:503-509 | the four combinations give the four kinds, one each |
| Java.ToEvent | lib/zookeeper/common.rb:57 | a hash is read as a completion iff it has `:rc`, for its own request id |
| Java.DataHash | java/zookeeper_base.rb:127-146 | the hash carries `:rc`, the request id and the path |
| Java.StringHash | java/zookeeper_base.rb:152-155 | the hash carries `:rc`, the request id and the path |
| Java.StatHash | java/zookeeper_base.rb:161-164 | the hash carries `:rc`, the request id and the path |
| Java.Children2Hash | java/zookeeper_base.rb:170-181 | the hash carries `:rc`, the request id and the path |
| Java.AclHash | java/zookeeper_base.rb:187-191 | the hash carries `:rc`, the request id and the path |
| Java.VoidHash | java/zookeeper_base.rb:197-200 | the hash carries `:rc`, the request id and the path |
| Java.SessionWatchHash | java/zookeeper_base.rb:211-215 | no `:rc`; the global request id, the event type and the state |
| Java.CallWatchHash | java/zookeeper_base.rb:511-518 | no `:rc`; the caller's request id, the watched path, the event type and the state |
| Java.ResultHashesAreCompletions | java/zookeeper_base.rb:124-201 | every result callback's hash is the completion of its request, with the created path as its string |
| Java.WatchHashesAreWatches | java/zookeeper_base.rb:203-216 | watch hashes lack `:rc`; the session watcher's is for the global id, create_watcher's for the caller's id and path |
| Java.SessionWatchKeepsGlobalWatcher | java/zookeeper_base.rb:211-215 | a session-watcher event reaches the global entry with its context and never removes it |
| Java.ReopenAsWritten | java/zookeeper_base.rb:222-226 | as written, reopen only adds or overwrites the global entry; no watcher id is dropped (`Java.ReopenAsWrittenKeepsWatchers`) |
| Java.ReopenAsWrittenKeepsWatchers | java/zookeeper_base.rb:222-226 | as written, reopen keeps every non-global watcher unchanged |
| Java.ReopenKeepsStaleWatcher | java/zookeeper_base.rb:224 | a watcher armed before reopen still fires afterwards as written, and is gone with the intended flush |
| Java.CloseAsWritten | java/zookeeper_base.rb:431-450 | as written, close stops running and keeps the dispatcher flag; it raises iff a dispatcher exists and the kill-token push fails; otherwise the client ends closed (`Java.SecondCloseRaises`) |
| Java.CloseCorrected | java/zookeeper_base.rb:431-450 | as meant, the same, except that a close that succeeds also forgets the dispatcher (`Java.CloseCorrectedIdempotent`) |
| Java.SecondCloseRaises | java/zookeeper_base.rb:431-450 | as written, a second close of a client with a dispatcher raises IOError |
| Java.CloseCorrectedIdempotent | java/zookeeper_base.rb:431-450 | as meant, close never raises; it leaves the client not running, closed, with a closed queue; a second close changes nothing |
| Java.JavaBase.constructor | java/zookeeper_base.rb:243-253 | counter 0, empty maps, a fresh queue, no default watcher yet, not running, not closed, no dispatcher |
| Java.JavaBase.New | java/zookeeper_base.rb:243-264 | TypeError iff the watcher (or the logging default) has no `to_proc`; otherwise counter 0, a fresh queue, the block made of that watcher as default and only watcher, running and with a dispatcher iff connected |
| Java.JavaBase.SetDefaultGlobalWatcher | java/zookeeper_base.rb:464-469 | records the default and installs it under the global id with a nil context |
| Java.JavaBase.Reopen | java/zookeeper_base.rb:219-226 | the block made of the given watcher or the default becomes the default and only watcher; a watcher without `to_proc` raises TypeError after the flush and leaves the default unchanged; flags and completions stay |
| Java.JavaBase.Close | java/zookeeper_base.rb:431-450 | the new flags, queue and error are CloseCorrected's |
| Java.JavaBase.SelectableIo | java/zookeeper_base.rb:474-477 | returns the read end and turns clear_reads_on_pop off |
| Java.JavaBase.GetNextEvent | java/zookeeper_base.rb:487-494 | one pop with no running guard, read as NextFromPop |
| Java.JavaBase.DispatchNextCallback | lib/zookeeper/common.rb:51-85 | one pop followed by one dispatch step |

## Findings

| source | as written | input that shows it | evidently intended | confidence | as-written member | corrected member |
|---|---|---|---|---|---|---|
| java/zookeeper_base.rb:224 | `reopen` assigns `@watcher_req = {}`, which nothing reads, so no watcher is flushed | a watcher registered under id 0 is still registered after reopen, and a later event for id 0 fires it | flush `@watcher_reqs`, as the comment on line 223 and the C client's reopen (ext/zookeeper_base.rb:40) do | high (not executed) | Java.ReopenKeepsStaleWatcher | Java.JavaBase.Reopen |
| java/zookeeper_base.rb:437-440 | `close` joins `@dispatcher` but never clears it, so every later `close` pushes the kill token again | a client whose connection came up is closed twice; the second push writes to the pipe the first close closed, and raises IOError | forget the joined dispatcher, as the C client's stop_dispatch_thread! does (ext/zookeeper_base.rb:325), so that a second close is harmless | medium (not executed) | Java.SecondCloseRaises | Java.CloseCorrectedIdempotent |

For the first row, `Java.ReopenAsWritten` models the code as written, and
`Common.ResetWatchersLeavesOnlyGlobal` proves the intended flush about `Common.ResetWatchers`,
which `Java.JavaBase.Reopen` uses. For the second row, `Java.CloseAsWritten` models the code
as written, and `Java.JavaBase.Close` follows `Java.CloseCorrected`.

## Left out

- **Threads.** The dispatch and event-delivery threads and their shutdown are not modelled.
  This covers `setup_dispatch_thread!`, `setup_event_delivery_thread!`,
  `stop_event_delivery_thread!`, `stop_dispatch_thread!`, `wake_event_loop!` and the joins.
  One dispatch step is modelled instead. As a result:
  - `Ext.ZookeeperBase.Close` pushes no kill token;
  - the Java close does not model the joined dispatcher draining the queue.
- **Locks and waits.** `@req_mutex` and `@start_stop_mutex` are not modelled; each
  synchronised block is one atomic step. The connect waits (`sleep`, `Time.now`,
  `wait_until`) are left out too.
- **The native side.** The C extension (`CZookeeper`, `init`, `close_handle`,
  `get_next_event_from_backend`, `client_id`, `@selectable_io`) and the Java library calls
  (`@jzk`, `to_hash`, `from_java_bytes`, `handle_keeper_exception`) are not part of this model.
  The comment at ext/zookeeper_base.rb:87-91 says that `init` sets running, and the one at
  lines 94-96 says that the closed flag becomes true once the handle is destroyed; the model
  takes `close_handle` to be that destruction. That `init` creates the handle (`@_data`) is
  assumed. The Ruby source does not show whether `init` clears the closed flag that `close`
  set, so that is the `initClearsClosed` parameter of `Ext.ZookeeperBase.Reopen`. The handle's
  state is a parameter of `Ext.ZookeeperBase.State`, and whether the Java connection came up
  is a parameter of `Java.JavaBase.New`.
- **The initializer's block.** Both initializers yield the new client to a block when one is
  given (ext/zookeeper_base.rb:101, java/zookeeper_base.rb:258). The model takes no such block,
  so whatever the block registers before the first reopen is not modelled.
- **The OS pipe.** The pipe is a count of unread bytes plus a closed flag per end. Its
  capacity is not modelled: with reads not cleared, a real writer blocks once the pipe is
  full. `IO.select` readiness is not modelled either.
- **Payloads.** Stat and ACL wrapping in dispatch (lib/zookeeper/common.rb:59-60) is not
  modelled. Data, stat, children and ACL values are opaque `Payload`s, and the Java event's
  `:data`, `:stat`, `:strings` and `:acl` do not reach `Common.Event`.
- **setup_completion arities.** The C client's `setup_completion` takes three arguments and
  `setup_call` passes two. Only the wrapper it installs is modelled (`Ext.WrapCreateCallback`);
  the two signatures are not reconciled.
- **chroot_path memoisation.** `chroot_path` memoises into `@chroot_path`. The host never
  changes, so the model recomputes the path.
- **Constant reflection.** The `Constants.constants` / `eval` reflection is a fixed table in
  declaration order. The ACL constants the module includes are not in it.
- **Output only.** `print_events`, `print_states`, logging, warnings and exception messages
  are left out.
- **Nil versus false for running.** The Java `running?` returns nil before the first connect.
  The model uses false for that nil.
- **Payload of `raise`.** The `raise` in the C client's `reopen` is modelled as RuntimeError,
  without its message.
- **Debug levels, session ids, `assert_open`.** `set_debug_level`, `session_id`,
  `session_passwd` and `assert_open` read the native handle only. They are not part of this
  model.
- **Regular expressions.** `/^ZOO..*EVENT$/` is modelled as a characterwise prefix and suffix
  test (`Constants.MatchesPattern`). It agrees with the expression for the names in the
  table, which contain no newline.
