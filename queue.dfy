/**
 * The event queue (class QueueWithPipe, lib/zookeeper/common/queue_with_pipe.rb, and the copy
 * nested in java/zookeeper_base.rb).
 *
 * A thread-safe FIFO with a side pipe: every push writes one byte to the pipe so that a poller
 * can select on the read end, and every pop reads one byte back unless `clear_reads_on_pop` has
 * been switched off (the EventMachine client drains the pipe itself). The OS pipe is abstracted
 * as a count of unread bytes and a closed flag per end.
 */
module EventQueue {
  import opened Wrappers
  import opened Exceptions

  /** The queue as a value: its items, the unread pipe bytes, the two ends and the flag. */
  datatype QueueState<T> = QueueState(
    items: seq<T>,
    pipeBytes: nat,
    readClosed: bool,
    writeClosed: bool,
    clearReadsOnPop: bool)

  /** What `pop` does: returns an item, raises, or leaves the calling thread waiting. */
  datatype PopResult<T> = Popped(item: T) | PopRaised(error: ErrorClass) | PopBlocks

  /** The end of the pipe `selectable_io` hands out. */
  datatype PipeEnd = ReadEnd | WriteEnd

  /** A new queue: no items, an empty open pipe, clear_reads_on_pop on. */
  function Fresh<T>(): (q: QueueState<T>)
  {
    QueueState([], 0, false, false, true)
  }

  /** push: the item joins the queue first; then the byte write raises IOError on a closed
      write end and EPIPE when the read end is gone, and otherwise adds one unread byte. */
  function PushStep<T>(q: QueueState<T>, x: T): (p: (QueueState<T>, Option<ErrorClass>))
    ensures p.0.items == q.items + [x]
    ensures p.0.readClosed == q.readClosed && p.0.writeClosed == q.writeClosed
    ensures p.0.clearReadsOnPop == q.clearReadsOnPop
    ensures p.1.None? <==> !q.readClosed && !q.writeClosed
    ensures p.1.None? ==> p.0.pipeBytes == q.pipeBytes + 1
    ensures p.1.Some? ==> p.0.pipeBytes == q.pipeBytes
  {
    var q1 := q.(items := q.items + [x]);
    if q.writeClosed then (q1, Some(IOError))
    else if q.readClosed then (q1, Some(BrokenPipe))
    else (q1.(pipeBytes := q.pipeBytes + 1), None)
  }

  /** pop: an empty queue raises ThreadError when non-blocking (before the pipe is touched) and
      waits otherwise. A non-empty queue gives up its head; then, when clearing reads, one byte
      is read: a closed read end raises IOError (the head is lost), an unread byte is consumed,
      a closed write end reads end-of-file, and an open empty pipe waits. */
  function PopStep<T>(q: QueueState<T>, nonBlocking: bool): (p: (QueueState<T>, PopResult<T>))
    ensures q.items == [] ==> p.0 == q && !p.1.Popped?
    ensures q.items != [] ==> p.0.items == q.items[1..]
    ensures p.1.Popped? ==> q.items != [] && p.1.item == q.items[0]
    ensures p.0.readClosed == q.readClosed && p.0.writeClosed == q.writeClosed
    ensures p.0.clearReadsOnPop == q.clearReadsOnPop
  {
    if q.items == [] then
      if nonBlocking then (q, PopRaised(ThreadError)) else (q, PopBlocks)
    else
      var q1 := q.(items := q.items[1..]);
      if !q.clearReadsOnPop then (q1, Popped(q.items[0]))
      else if q.readClosed then (q1, PopRaised(IOError))
      else if q.pipeBytes > 0 then (q1.(pipeBytes := q.pipeBytes - 1), Popped(q.items[0]))
      else if q.writeClosed then (q1, Popped(q.items[0]))
      else (q1, PopBlocks)
  }

  /** close: each end is closed unless it already is. */
  function CloseStep<T>(q: QueueState<T>): (q': QueueState<T>)
    ensures q'.readClosed && q'.writeClosed
    ensures q'.items == q.items && q'.pipeBytes == q.pipeBytes && q'.clearReadsOnPop == q.clearReadsOnPop
  {
    q.(readClosed := true, writeClosed := true)
  }

  /** The pipe holds a byte for every queued item while both ends are open. */
  ghost predicate Covered<T>(q: QueueState<T>)
  {
    !q.readClosed && !q.writeClosed ==> q.pipeBytes >= |q.items|
  }

  /** With reads cleared on every pop, the unread bytes are exactly the queued items. */
  ghost predicate Balanced<T>(q: QueueState<T>)
  {
    !q.readClosed && !q.writeClosed && q.clearReadsOnPop && q.pipeBytes == |q.items|
  }

  // ---------------------------------------------------------------------------
  // Properties of one operation.

  /** A push always appends the item at the tail and writes exactly one byte exactly when both
      ends are open; otherwise it reports the failed write and the byte count stays. */
  lemma PushAppendsOneByte<T>(q: QueueState<T>, x: T)
    ensures var (q', err) := PushStep(q, x);
      && q'.items == q.items + [x] && q'.items[|q.items|] == x
      && (err.None? <==> !q.readClosed && !q.writeClosed)
      && q'.pipeBytes == q.pipeBytes + (if err.None? then 1 else 0)
      && (err.Some? ==> err.value == IOError || err.value == BrokenPipe)
      && q'.readClosed == q.readClosed && q'.writeClosed == q.writeClosed
      && q'.clearReadsOnPop == q.clearReadsOnPop
  {
  }

  /** A non-blocking pop of an empty queue raises ThreadError and changes nothing, the pipe
      included; a blocking one waits, also without change. */
  lemma EmptyPopTouchesNothing<T>(q: QueueState<T>, nonBlocking: bool)
    requires q.items == []
    ensures PopStep(q, nonBlocking) == (q, if nonBlocking then PopRaised(ThreadError) else PopBlocks)
  {
  }

  /** pop consumes a pipe byte iff reads are cleared on pop; on a covered queue with both ends
      open, a pop of a non-empty queue returns the head and never waits. */
  lemma PopReturnsHead<T>(q: QueueState<T>, nonBlocking: bool)
    requires Covered(q) && !q.readClosed && !q.writeClosed && q.items != []
    ensures var (q', r) := PopStep(q, nonBlocking);
      && r == Popped(q.items[0]) && q'.items == q.items[1..]
      && q'.pipeBytes == q.pipeBytes - (if q.clearReadsOnPop then 1 else 0)
      && Covered(q')
  {
  }

  /** Every operation keeps a queue covered, whatever the flag and whatever the ends. */
  lemma CoveredPreserved<T>(q: QueueState<T>, x: T, nonBlocking: bool, clear: bool)
    requires Covered(q)
    ensures Covered(PushStep(q, x).0)
    ensures Covered(PopStep(q, nonBlocking).0)
    ensures Covered(CloseStep(q))
    ensures Covered(q.(clearReadsOnPop := clear))
  {
  }

  /** With the default flag and no failures, pushes and pops keep the byte count equal to the
      queue length. */
  lemma BalancedPreserved<T>(q: QueueState<T>, x: T, nonBlocking: bool)
    requires Balanced(q)
    ensures Balanced(PushStep(q, x).0)
    ensures Balanced(PopStep(q, nonBlocking).0)
  {
  }

  /** close is idempotent and touches neither the items nor the unread bytes. */
  lemma CloseIdempotent<T>(q: QueueState<T>)
    ensures CloseStep(CloseStep(q)) == CloseStep(q)
    ensures CloseStep(q).items == q.items && CloseStep(q).pipeBytes == q.pipeBytes
    ensures CloseStep(q).readClosed && CloseStep(q).writeClosed
  {
  }

  // ---------------------------------------------------------------------------
  // Order.

  /** Pushing a run of items, one after the other. */
  function PushAll<T>(q: QueueState<T>, xs: seq<T>): QueueState<T>
    decreases |xs|
  {
    if xs == [] then q else PushAll(PushStep(q, xs[0]).0, xs[1..])
  }

  /** `n` non-blocking pops; the items they return, and the queue after them, or None when one
      of them did not return an item. */
  function PopN<T>(q: QueueState<T>, n: nat): Option<(seq<T>, QueueState<T>)>
    decreases n
  {
    if n == 0 then Some(([], q))
    else
      var (q1, r) := PopStep(q, true);
      if !r.Popped? then None
      else
        match PopN(q1, n - 1)
        case None => None
        case Some((rest, q2)) => Some(([r.item] + rest, q2))
  }

  /** On an open pipe pushes append in order and keep the queue covered. */
  lemma {:induction false} PushAllAppends<T>(q: QueueState<T>, xs: seq<T>)
    requires Covered(q) && !q.readClosed && !q.writeClosed
    decreases |xs|
    ensures var q' := PushAll(q, xs);
      && q'.items == q.items + xs
      && Covered(q') && !q'.readClosed && !q'.writeClosed
      && q'.clearReadsOnPop == q.clearReadsOnPop
  {
    if xs != [] {
      var q1 := PushStep(q, xs[0]).0;
      PushAllAppends(q1, xs[1..]);
      assert q.items + xs == q1.items + xs[1..];
    }
  }

  /** Pops on an open, covered queue return its items from the head, in order. */
  lemma {:induction false} PopNDrains<T>(q: QueueState<T>)
    requires Covered(q) && !q.readClosed && !q.writeClosed
    decreases |q.items|
    ensures var out := PopN(q, |q.items|);
      out.Some? && out.value.0 == q.items && out.value.1.items == []
  {
    if q.items != [] {
      PopReturnsHead(q, true);
      var q1 := PopStep(q, true).0;
      PopNDrains(q1);
    }
  }

  /** FIFO: whatever is pushed onto an open queue is popped back in push order, after the
      items already waiting, and leaves the queue empty. */
  lemma Fifo<T>(q: QueueState<T>, xs: seq<T>)
    requires Covered(q) && !q.readClosed && !q.writeClosed
    ensures var out := PopN(PushAll(q, xs), |q.items| + |xs|);
      out.Some? && out.value.0 == q.items + xs && out.value.1.items == []
  {
    var q' := PushAll(q, xs);
    PushAllAppends(q, xs);
    assert |q'.items| == |q.items| + |xs|;
    PopNDrains(q');
  }

  /** A fresh queue is balanced, so with the default flag its pipe holds exactly one byte per
      waiting item. */
  lemma FreshIsBalanced<T>()
    ensures Balanced(Fresh<T>()) && Covered(Fresh<T>()) && Fresh<T>().items == []
  {
  }

  // ---------------------------------------------------------------------------
  // The queue object.

  class QueueWithPipe<T> {
    var items: seq<T>
    var pipeBytes: nat
    var readClosed: bool
    var writeClosed: bool
    var clearReadsOnPop: bool

    function Value(): QueueState<T>
      reads this
    {
      QueueState(items, pipeBytes, readClosed, writeClosed, clearReadsOnPop)
    }

    ghost predicate Valid()
      reads this
    {
      Covered(Value())
    }

    /** `IO.pipe`, `Queue.new`, `@clear_reads_on_pop = true`. */
    constructor ()
      ensures Valid() && Value() == Fresh<T>()
    {
      items := [];
      pipeBytes := 0;
      readClosed := false;
      writeClosed := false;
      clearReadsOnPop := true;
    }

    /** push, also reachable as `<<`. */
    method Push(x: T) returns (err: Option<ErrorClass>)
      requires Valid()
      modifies this
      ensures Valid()
      ensures (Value(), err) == PushStep(old(Value()), x)
    {
      items := items + [x];
      if writeClosed {
        return Some(IOError);
      }
      if readClosed {
        return Some(BrokenPipe);
      }
      pipeBytes := pipeBytes + 1;
      err := None;
    }

    method Pop(nonBlocking: bool) returns (r: PopResult<T>)
      requires Valid()
      modifies this
      ensures Valid()
      ensures (Value(), r) == PopStep(old(Value()), nonBlocking)
    {
      if items == [] {
        r := if nonBlocking then PopRaised(ThreadError) else PopBlocks;
        return;
      }
      var head := items[0];
      items := items[1..];
      if !clearReadsOnPop {
        return Popped(head);
      }
      if readClosed {
        return PopRaised(IOError);
      }
      if pipeBytes > 0 {
        pipeBytes := pipeBytes - 1;
        return Popped(head);
      }
      r := if writeClosed then Popped(head) else PopBlocks;
    }

    method Close()
      requires Valid()
      modifies this
      ensures Valid()
      ensures Value() == CloseStep(old(Value()))
    {
      if !readClosed {
        readClosed := true;
      }
      if !writeClosed {
        writeClosed := true;
      }
    }

    /** The `clear_reads_on_pop` writer. */
    method SetClearReadsOnPop(clear: bool)
      requires Valid()
      modifies this
      ensures Valid()
      ensures Value() == old(Value()).(clearReadsOnPop := clear)
    {
      clearReadsOnPop := clear;
    }

    /** selectable_io: the read end, whatever the state. */
    method SelectableIo() returns (io: PipeEnd)
      ensures io == ReadEnd
    {
      io := ReadEnd;
    }
  }
}
