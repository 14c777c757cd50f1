# ActionFutureSet of cassandra-loader, modelled in Dafny

cassandra-loader writes rows to Cassandra asynchronously. `ActionFutureSet` is the
tracker that bounds the writes in flight. It has a fair semaphore of `size` permits and
two `AtomicLong` counters: `insertErrors` and `numInserted`.

- `add` refuses a new write once `maxInsertErrors <= insertErrors`. This is the circuit
  breaker. Otherwise `add` takes one permit and registers a callback on the write's
  future.
- On success, the callback releases the permit, counts the insert and then calls
  `FutureAction.onSuccess`.
- On failure, the callback counts the error and calls `FutureAction.onFailure`. It then
  calls `onTooManyFailures` when the new count is at or past the limit. Only then does it
  release the permit.
- `cleanup` takes all `size` permits. This waits until every admitted write has
  completed. It then reports whether the error count stayed below the limit.

The project has three modules:

- `TrackerModel` (`tracker_model.dfy`) is the state machine on values.
  - A `Tracker` holds the parameters, the free permits, the two counters, the multiset
    of writes in flight and whether cleanup holds the pool.
  - A `Cmd` is one public call or one callback.
  - `Enabled` says when a command can happen. `Apply` gives the new state, the returned
    boolean and the FutureAction calls made.
  - Each FutureAction call is an `Event`. It carries the counters the handler could read
    at that moment. This records that on a success the release and the increment both
    come before `onSuccess`, and that on a failure the permit is still taken during both
    notifications.
- `TrackerTraces` (`tracker_traces.dfy`) covers whole runs: a feasible sequence of
  commands from some state. It proves what holds across every such run. It also proves
  a five-write run: two permits, limit three, failures 1, 3 and 5,
  callbacks in the order 2, 1, 4, 3, 5.
- `Futures` (`action_future_set.dfy`) is the class `ActionFutureSet`.
  - `available`, `insertErrors` and `numInserted` are real fields.
  - The writes in flight, the drained flag and the FutureAction log are ghost fields.
  - Each method states its whole new state. It is tied to `Apply` from the state it
    started in.

A blocking acquire is not a step of the model. `add` is callable when a permit is free,
or when the circuit breaker refuses it, or when the acquire is interrupted.
`cleanup` is callable when every permit is free, or when it is interrupted. The boolean
`interrupted` says that the acquire throws `InterruptedException`. The two Guava
callbacks are the methods `CompleteSuccess` and `CompleteFailure`. Each requires that the
write it completes is in flight.

One might expect `onTooManyFailures` to fire once, on the failure that crosses the
limit. The code instead tests `maxInsertErrors <= numErrors` on every failure, so the
handler is called again for each later failure. The model follows the code.
`TooManyDueClosedForm` and `TooManyFailuresFromStart` state how many calls result. There
is exactly one when the run ends with the error count equal to a positive limit, as in
the five-write run.

## Model

| member | source | states |
|---|---|---|
| Futures.ActionFutureSet.constructor | src/main/java/com/datastax/loader/futures/ActionFutureSet.java:21-29 | the tracker starts with all `size` permits free, both counters at zero, nothing in flight and no FutureAction call; `size > 0` is required |
| Futures.ActionFutureSet.Add | src/main/java/com/datastax/loader/futures/ActionFutureSet.java:31-68 | returns true iff the error count is below the limit and the acquire is not interrupted; a refused add changes nothing; an admitted add takes exactly one permit and puts the write in flight; counters and log unchanged; agrees with `Apply` |
| Futures.ActionFutureSet.CompleteSuccess | src/main/java/com/datastax/loader/futures/ActionFutureSet.java:46-50 | the permit comes back and numInserted rises by one before onSuccess is called, so the handler sees both; the write leaves the in-flight set; agrees with `Apply` |
| Futures.ActionFutureSet.CompleteFailure | src/main/java/com/datastax/loader/futures/ActionFutureSet.java:52-65 | insertErrors rises by one; onFailure is called, then onTooManyFailures exactly when the new count is at or past the limit, both seeing the raised count and the permit still taken; the permit is released last; agrees with `Apply` |
| Futures.ActionFutureSet.Cleanup | src/main/java/com/datastax/loader/futures/ActionFutureSet.java:70-83 | interrupted: returns false and changes nothing; otherwise it can take the pool only when nothing is in flight, leaves no permit free, and returns whether insertErrors is below the limit |
| Futures.ActionFutureSet.GetNumInsertErrors | src/main/java/com/datastax/loader/futures/ActionFutureSet.java:85-87 | returns the error count and changes nothing |
| Futures.ActionFutureSet.GetNumInserted | src/main/java/com/datastax/loader/futures/ActionFutureSet.java:89-91 | returns the insert count and changes nothing |
| Futures.OnePermitScenario | src/main/java/com/datastax/loader/futures/ActionFutureSet.java:31-50 | with one permit: the first add is admitted, an interrupted second add returns false, and once the first write succeeds the second add is admitted; one insert, no error |
| TrackerModel.Init | src/main/java/com/datastax/loader/futures/ActionFutureSet.java:21-29 | the initial state satisfies the permit accounting |
| TrackerModel.Enabled | src/main/java/com/datastax/loader/futures/ActionFutureSet.java:31-83 | an add the circuit breaker refuses, and an interrupted add or cleanup, never wait; an add proceeds when a permit is free, and an admitted add finds fewer than `size` writes in flight (the blocking acquire at line 37); cleanup proceeds when every permit is free, and an uninterrupted cleanup proceeds only when nothing is in flight and it does not already hold the pool (the blocking acquire of all permits at line 72) |
| TrackerModel.Apply | src/main/java/com/datastax/loader/futures/ActionFutureSet.java:31-83 | add and cleanup return a boolean and the callbacks return nothing; add returns true iff the error count is below the limit and the acquire is not interrupted; cleanup returns true iff it is not interrupted and the error count is below the limit; a refused or interrupted call changes nothing |
| TrackerModel.ApplyValid | src/main/java/com/datastax/loader/futures/ActionFutureSet.java:31-83 | every step keeps free + in flight + held by cleanup equal to `size`, and keeps `size` and `maxInsertErrors` |
| TrackerModel.ApplyCounters | src/main/java/com/datastax/loader/futures/ActionFutureSet.java:46-65 | insertErrors rises by one exactly on a failure and numInserted by one exactly on a success; no other step touches them |
| TrackerTraces.ApplyInFlight | src/main/java/com/datastax/loader/futures/ActionFutureSet.java:37-67 | a step moves the write it admits into the in-flight set and the write it completes out of it |
| TrackerTraces.ApplyEvents | src/main/java/com/datastax/loader/futures/ActionFutureSet.java:49-62 | add and cleanup call no FutureAction method; a success first calls onSuccess and a failure first calls onFailure, each for the completed write; one onSuccess per success, one onFailure per failure, and onTooManyFailures exactly when the failure's new count is at or past the limit |
| TrackerTraces.TooManyDueClosedForm | src/main/java/com/datastax/loader/futures/ActionFutureSet.java:60-63 | after n failures, onTooManyFailures is due once for every failure from the limit on: none below the limit, n - max + 1 from it |
| TrackerTraces.RunValid | src/main/java/com/datastax/loader/futures/ActionFutureSet.java:31-83 | the permit accounting and the fixed parameters hold after any run |
| TrackerTraces.RunCounts | src/main/java/com/datastax/loader/futures/ActionFutureSet.java:46-65 | over a run, numInserted grows by the onSuccess calls, insertErrors by the onFailure calls, and the onTooManyFailures calls are those due for the failures counted |
| TrackerTraces.CountersNeverDecrease | src/main/java/com/datastax/loader/futures/ActionFutureSet.java:48-53 | neither counter decreases over a run |
| TrackerTraces.RunInFlight | src/main/java/com/datastax/loader/futures/ActionFutureSet.java:37-67 | every write in flight at the start or admitted during a run ends completed or still in flight |
| TrackerTraces.RunCompletions | src/main/java/com/datastax/loader/futures/ActionFutureSet.java:46-65 | each callback counts once, as an insert or as an error |
| TrackerTraces.OpenCircuitRefuses | src/main/java/com/datastax/loader/futures/ActionFutureSet.java:32-35 | once the error count has reached the limit, no add of any later run is admitted and the limit stays reached |
| TrackerTraces.FromStart | src/main/java/com/datastax/loader/futures/ActionFutureSet.java:21-83 | from a fresh tracker: at most `size` writes in flight; in flight is exactly admitted minus completed; the log holds one onSuccess per insert and one onFailure per error; once cleanup holds the pool every admitted write has completed and, with each callback one indivisible step, numInserted + insertErrors is the number of admitted adds |
| TrackerTraces.TooManyFailuresFromStart | src/main/java/com/datastax/loader/futures/ActionFutureSet.java:53-63 | from a fresh tracker, the onTooManyFailures calls number one per failure at or past the limit, hence exactly one when the final count equals a positive limit |
| TrackerTraces.FiveWritesRun | src/main/java/com/datastax/loader/futures/ActionFutureSet.java:31-68 | two permits, limit three, writes 1, 3 and 5 fail, callbacks in the order 2, 1, 4, 3, 5: the ten-step run is feasible, so every add is admitted without waiting, and it ends with nothing in flight, two inserts and three errors |
| TrackerTraces.FiveWritesOutcome | src/main/java/com/datastax/loader/futures/ActionFutureSet.java:31-83 | in that run all five writes are admitted and completed, with two inserts and three errors; onTooManyFailures is called exactly once; a following uninterrupted cleanup can take the pool, returns false because the limit has been reached, and then holds the pool |
| TrackerTraces.SecondAddWaitsForFirst | src/main/java/com/datastax/loader/futures/ActionFutureSet.java:36-47 | with one permit, a second uninterrupted add cannot proceed while the first write is in flight, and can once it has succeeded |

## Left out

- Threads, atomicity and the semaphore's fairness are not modelled. Each command is one
  indivisible step.
- The gap between the circuit-breaker check and the acquire in `add` is not modelled.
  With threads, a concurrent failure can land in between.
- A blocking acquire is a precondition of `add` and `cleanup`. Waiting, and the wake-up
  order of blocked threads, is not modelled.
- The driver's `ResultSetFuture` and `ResultSet` and Guava's `Futures.addCallback` are
  opaque handles. A callback is modelled when it runs, not when it is registered.
- Futures.ActionFutureSet.CompleteFailure: assumes every `FutureAction` call returns
  normally and that the handler is not null. In the code, an exception thrown by
  `onFailure` or `onTooManyFailures` (lines 59 and 62), or a null handler (stored at line
  25 without a check), skips the release at line 64. That permit is then lost, and
  `cleanup`'s acquire of all permits (line 72) blocks forever. `onSuccess` is called after
  the release (line 47), so it has no such path. `ApplyValid`, `RunValid` and `FromStart`
  hold under this assumption.
- The `System.err` diagnostic lines, including the stack trace printed on a failure, are
  not modelled.
- The `FutureAction` handler's own bodies are not modelled. The model records each call
  to it, with the counters it could read.
- TrackerTraces.FromStart: the sum numInserted + insertErrors equals the admitted adds
  once cleanup holds the pool only because each callback is one indivisible step. In the
  code, the success callback releases its permit (line 47) before it increments
  `numInserted` (line 48) and calls `onSuccess` (line 49). So cleanup's `acquire(this.size)`
  (line 72) can return while that increment is still pending, and a `getNumInserted()`
  straight after cleanup can read one short per such write. The failure callback releases
  last (line 64), so the error count has no such gap.
- `AbstractFutureManager` and the query timeout it stores are not part of this model.
  The constructor requires `size > 0`, since the semaphore needs a positive pool for
  `cleanup` to mean anything.
- Futures.ActionFutureSet.GetNumInsertErrors: the counters are unbounded integers. The
  64-bit wrap-around of `AtomicLong` is not modelled, because it needs 2^63 completions.
- Futures.ActionFutureSet.GetNumInserted: unbounded, for the same reason.
- `cleanup` never gives its permits back. After a successful cleanup the model allows
  only the steps that do not acquire: an add the circuit breaker refuses, and an
  interrupted add or cleanup. Reuse of a tracker after cleanup is not modelled further.
