/**
 The bookkeeping of cassandra-loader's ActionFutureSet as a state machine on values.

 The tracker admits asynchronous writes against a pool of `size` semaphore permits,
 counts completed writes (`numInserted`) and failed ones (`insertErrors`), and tells a
 FutureAction handler about every outcome.  Each public operation of the class, and each
 callback the futures library delivers, is one command (`Cmd`); `Apply` gives its effect.
 The class in module Futures is specified by these functions.
 */
module TrackerModel {

  datatype Option<T> = None | Some(value: T)

  /** Opaque handle of an issued write (a ResultSetFuture). */
  type FutureId = nat

  /** Opaque outcome values handed to FutureAction: a ResultSet and a Throwable. */
  datatype ResultSet = ResultSet(handle: nat)
  datatype Throwable = Throwable(handle: nat)

  /** One admitted write: its future and the input line it came from. */
  datatype Pending = Pending(future: FutureId, line: string)

  /** The FutureAction notifications. */
  datatype Notice =
    | OnSuccess(rs: ResultSet, line: string)
    | OnFailure(t: Throwable, line: string)
    | OnTooManyFailures

  /** What a handler could read of the tracker while it runs. */
  datatype Counters = Counters(available: nat, insertErrors: nat, numInserted: nat)

  /** One call into FutureAction, with the counters as they stood at that moment. */
  datatype Event = Event(notice: Notice, seen: Counters)

  /**
   The tracker's state: the fixed `size` and `maxInsertErrors`, the free permits, the two
   counters, the writes admitted but not yet completed, and whether cleanup holds the
   whole pool.
   */
  datatype Tracker = Tracker(
    size: int,
    maxInsertErrors: int,
    available: nat,
    insertErrors: nat,
    numInserted: nat,
    inFlight: multiset<Pending>,
    drained: bool)
  {
    function Seen(): Counters {
      Counters(available, insertErrors, numInserted)
    }

    /** The circuit breaker is open: add refuses without touching the semaphore. */
    predicate TooManyErrors() {
      maxInsertErrors <= insertErrors
    }
  }

  /** Every permit is free, lent to an in-flight write, or held by cleanup. */
  predicate Valid(t: Tracker) {
    t.size > 0 &&
    t.available + |t.inFlight| + (if t.drained then t.size else 0) == t.size
  }

  function Init(size: int, maxInsertErrors: int): (t: Tracker)
    requires size > 0
    ensures Valid(t)
  {
    Tracker(size, maxInsertErrors, size, 0, 0, multiset{}, false)
  }

  /**
   The inputs of one step.  `interrupted` says that the calling thread was interrupted
   inside the semaphore's acquire; a completion names the admitted write it completes.
   */
  datatype Cmd =
    | Add(op: Pending, interrupted: bool)
    | Succeed(op: Pending, rs: ResultSet)
    | Fail(op: Pending, t: Throwable)
    | Cleanup(interrupted: bool)

  /**
   A command can happen: an acquire that would block forever is not a step (add needs a
   free permit, cleanup all of them, unless the thread is interrupted), and a callback
   fires only for a write that is in flight.
   */
  function Enabled(t: Tracker, c: Cmd): (b: bool)
    // an admitted add finds fewer than `size` writes in flight
    ensures (b && c.Add? && !c.interrupted && !t.TooManyErrors() && Valid(t))
              ==> |t.inFlight| < t.size
    // cleanup can take the pool only once every admitted write has completed
    ensures (b && c.Cleanup? && !c.interrupted && Valid(t))
              ==> t.inFlight == multiset{} && !t.drained
    // a free permit lets an add go ahead, and all permits free let cleanup go ahead
    ensures (c.Add? && t.available > 0) ==> b
    ensures (c.Cleanup? && t.available >= t.size) ==> b
    // a refusal or an interruption never waits
    ensures ((c.Add? && (c.interrupted || t.TooManyErrors())) || (c.Cleanup? && c.interrupted))
              ==> b
  {
    match c
    case Add(_, interrupted) => t.TooManyErrors() || interrupted || t.available > 0
    case Succeed(op, _) => op in t.inFlight
    case Fail(op, _) => op in t.inFlight
    case Cleanup(interrupted) => interrupted || t.available >= t.size
  }

  /** The effect of one step: the new state, the boolean a public method returns
      (None for a callback, which returns nothing) and the FutureAction calls made. */
  datatype Step = Step(next: Tracker, reply: Option<bool>, events: seq<Event>)

  function Apply(t: Tracker, c: Cmd): (s: Step)
    requires Enabled(t, c)
    // add and cleanup return a boolean, the callbacks return nothing
    ensures (c.Add? || c.Cleanup?) <==> s.reply.Some?
    // add returns true iff the breaker is closed and the acquire is not interrupted
    ensures c.Add? ==> (s.reply == Some(true) <==> !t.TooManyErrors() && !c.interrupted)
    // cleanup returns true iff it took the pool with the error count below the limit
    ensures c.Cleanup? ==> (s.reply == Some(true) <==> !c.interrupted && !s.next.TooManyErrors())
    // a refused or interrupted call changes nothing
    ensures s.reply == Some(false) && !(c.Cleanup? && !c.interrupted) ==> s.next == t
  {
    match c
    case Add(op, interrupted) =>
      if t.TooManyErrors() || interrupted then Step(t, Some(false), [])
      else Step(t.(available := t.available - 1, inFlight := t.inFlight + multiset{op}),
                Some(true), [])
    case Succeed(op, rs) =>
      // release, count, then notify
      var t' := t.(available := t.available + 1, numInserted := t.numInserted + 1,
                   inFlight := t.inFlight - multiset{op});
      Step(t', None, [Event(OnSuccess(rs, op.line), t'.Seen())])
    case Fail(op, err) =>
      // count, notify (twice at or past the limit), then release
      var counted := t.(insertErrors := t.insertErrors + 1);
      var seen := counted.Seen();
      var events := [Event(OnFailure(err, op.line), seen)]
                    + (if t.maxInsertErrors <= counted.insertErrors
                       then [Event(OnTooManyFailures, seen)] else []);
      Step(counted.(available := t.available + 1, inFlight := t.inFlight - multiset{op}),
           None, events)
    case Cleanup(interrupted) =>
      if interrupted then Step(t, Some(false), [])
      else Step(t.(available := t.available - t.size, drained := true),
                Some(!t.TooManyErrors()), [])
  }

  /** The permit accounting and the fixed parameters survive every step. */
  lemma ApplyValid(t: Tracker, c: Cmd)
    requires Valid(t) && Enabled(t, c)
    ensures Valid(Apply(t, c).next)
    ensures Apply(t, c).next.size == t.size
    ensures Apply(t, c).next.maxInsertErrors == t.maxInsertErrors
  {
    match c
    case Succeed(op, _) =>
      assert |t.inFlight - multiset{op}| == |t.inFlight| - 1;
    case Fail(op, _) =>
      assert |t.inFlight - multiset{op}| == |t.inFlight| - 1;
    case Add(op, _) =>
    case Cleanup(_) =>
  }

  /** No step lowers either counter, and each completion raises exactly one of them by one. */
  lemma ApplyCounters(t: Tracker, c: Cmd)
    requires Enabled(t, c)
    ensures var n := Apply(t, c).next;
      n.insertErrors == t.insertErrors + (if c.Fail? then 1 else 0) &&
      n.numInserted == t.numInserted + (if c.Succeed? then 1 else 0)
  {
  }
}
