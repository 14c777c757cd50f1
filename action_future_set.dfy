/**
 ActionFutureSet (src/main/java/com/datastax/loader/futures/ActionFutureSet.java) as a
 class.  `available` is the permit count of the fair Semaphore, `insertErrors` and
 `numInserted` the two AtomicLongs.  The ghost fields record what the Java program keeps
 only implicitly: the writes whose callback has not run yet, whether cleanup holds the
 whole pool, and the calls made into the FutureAction handler, each with the counters the
 handler could read at that moment.

 A blocking acquire is not a step: add is callable when a permit is free (or when it will
 not reach the acquire), cleanup when all of them are, unless `interrupted` says that the
 acquire throws InterruptedException.  The Guava callbacks are the methods
 CompleteSuccess and CompleteFailure, callable for a write that is in flight.
 */
module Futures {
  import opened TrackerModel

  class ActionFutureSet {
    const size: int
    const maxInsertErrors: int
    var available: nat
    var insertErrors: nat
    var numInserted: nat
    ghost var inFlight: multiset<Pending>
    ghost var drained: bool
    ghost var log: seq<Event>

    /** The abstract state that the methods are specified against. */
    ghost function State(): Tracker
      reads this
    {
      Tracker(size, maxInsertErrors, available, insertErrors, numInserted, inFlight, drained)
    }

    ghost predicate Valid()
      reads this
    {
      TrackerModel.Valid(State())
    }

    constructor (inSize: int, inMaxInsertErrors: int)
      requires inSize > 0
      ensures Valid()
      ensures size == inSize && maxInsertErrors == inMaxInsertErrors
      ensures available == size && insertErrors == 0 && numInserted == 0
      ensures inFlight == multiset{} && !drained && log == []
      ensures State() == Init(inSize, inMaxInsertErrors)
    {
      size, maxInsertErrors := inSize, inMaxInsertErrors;
      available := inSize;
      insertErrors, numInserted := 0, 0;
      inFlight, drained, log := multiset{}, false, [];
    }

    /**
     Offers one issued write.  Refused, with nothing changed, when the error count has
     reached the limit or when the acquire is interrupted; otherwise the write holds one
     permit until its callback runs.
     */
    method Add(future: FutureId, line: string, interrupted: bool) returns (ok: bool)
      requires Valid()
      requires maxInsertErrors <= insertErrors || interrupted || available > 0
      modifies this
      ensures Valid()
      ensures ok <==> insertErrors < maxInsertErrors && !interrupted
      ensures ok ==> available == old(available) - 1
                     && inFlight == old(inFlight) + multiset{Pending(future, line)}
      ensures !ok ==> available == old(available) && inFlight == old(inFlight)
      ensures insertErrors == old(insertErrors) && numInserted == old(numInserted)
      ensures drained == old(drained) && log == old(log)
      ensures var s := Apply(old(State()), Cmd.Add(Pending(future, line), interrupted));
        State() == s.next && s.reply == Some(ok) && log == old(log) + s.events
    {
      if maxInsertErrors <= insertErrors {
        return false;
      }
      if interrupted {
        return false;
      }
      available := available - 1;
      inFlight := inFlight + multiset{Pending(future, line)};
      return true;
    }

    /**
     The onSuccess callback of write `op`: the permit is released and numInserted
     incremented before FutureAction.onSuccess runs, so the handler sees both.
     */
    method CompleteSuccess(op: Pending, rs: ResultSet)
      requires Valid()
      requires op in inFlight
      modifies this
      ensures Valid()
      ensures available == old(available) + 1 && inFlight == old(inFlight) - multiset{op}
      ensures numInserted == old(numInserted) + 1 && insertErrors == old(insertErrors)
      ensures drained == old(drained)
      ensures log == old(log) + [Event(OnSuccess(rs, op.line),
                                       Counters(old(available) + 1, old(insertErrors),
                                                old(numInserted) + 1))]
      ensures var s := Apply(old(State()), Succeed(op, rs));
        State() == s.next && log == old(log) + s.events
    {
      available := available + 1;
      inFlight := inFlight - multiset{op};
      numInserted := numInserted + 1;
      log := log + [Event(OnSuccess(rs, op.line), State().Seen())];
    }

    /**
     The onFailure callback of write `op`: insertErrors is incremented, FutureAction.onFailure
     runs, then onTooManyFailures when the new count is at or past the limit, and only
     then is the permit released, so neither handler call sees it back.
     */
    method CompleteFailure(op: Pending, err: Throwable)
      requires Valid()
      requires op in inFlight
      modifies this
      ensures Valid()
      ensures available == old(available) + 1 && inFlight == old(inFlight) - multiset{op}
      ensures insertErrors == old(insertErrors) + 1 && numInserted == old(numInserted)
      ensures drained == old(drained)
      ensures var seen := Counters(old(available), old(insertErrors) + 1, old(numInserted));
        log == old(log) + [Event(OnFailure(err, op.line), seen)]
                        + (if maxInsertErrors <= insertErrors
                           then [Event(OnTooManyFailures, seen)] else [])
      ensures var s := Apply(old(State()), Fail(op, err));
        State() == s.next && log == old(log) + s.events
    {
      insertErrors := insertErrors + 1;
      var numErrors := insertErrors;
      log := log + [Event(OnFailure(err, op.line), State().Seen())];
      if maxInsertErrors <= numErrors {
        log := log + [Event(OnTooManyFailures, State().Seen())];
      }
      available := available + 1;
      inFlight := inFlight - multiset{op};
    }

    /**
     The end-of-load barrier: takes all `size` permits, which is possible only once
     nothing is in flight, and keeps them.  Returns false when interrupted (nothing
     changed) and otherwise whether the error count stayed below the limit.
     */
    method Cleanup(interrupted: bool) returns (ok: bool)
      requires Valid()
      requires interrupted || available == size
      modifies this
      ensures Valid()
      ensures ok <==> !interrupted && insertErrors < maxInsertErrors
      ensures interrupted ==> available == old(available) && drained == old(drained)
      ensures !interrupted ==> old(inFlight) == multiset{} && available == 0 && drained
      ensures inFlight == old(inFlight)
      ensures insertErrors == old(insertErrors) && numInserted == old(numInserted)
      ensures log == old(log)
      ensures var s := Apply(old(State()), Cmd.Cleanup(interrupted));
        State() == s.next && s.reply == Some(ok) && log == old(log) + s.events
    {
      if interrupted {
        return false;
      }
      available := available - size;
      drained := true;
      if maxInsertErrors <= insertErrors {
        return false;
      }
      return true;
    }

    method GetNumInsertErrors() returns (n: int)
      ensures n == insertErrors
    {
      n := insertErrors;
    }

    method GetNumInserted() returns (n: int)
      ensures n == numInserted
    {
      n := numInserted;
    }
  }

  /**
   One permit and a limit of 100.  The second add cannot proceed until the first write
   has completed (its acquire would block); interrupted there it returns false and takes
   nothing; once the first write has succeeded it is admitted.
   */
  method OnePermitScenario() returns (first: bool, interrupted: bool, retried: bool,
                                      inserted: int, errors: int)
    ensures first && !interrupted && retried && inserted == 1 && errors == 0
  {
    var fs := new ActionFutureSet(1, 100);
    first := fs.Add(1, "r1", false);
    assert fs.available == 0;
    interrupted := fs.Add(2, "r2", true);
    fs.CompleteSuccess(Pending(1, "r1"), ResultSet(1));
    retried := fs.Add(2, "r2", false);
    inserted := fs.GetNumInserted();
    errors := fs.GetNumInsertErrors();
  }
}
