/**
 Whole runs of the tracker: a sequence of commands applied from some state, with the
 properties that hold across all of them (the counters only grow, every admitted write is
 accounted for once cleanup holds the pool, the FutureAction log matches the counters).
 */
module TrackerTraces {
  import opened TrackerModel

  /** Every command of the sequence can happen in the state the previous ones leave. */
  predicate Feasible(t: Tracker, cmds: seq<Cmd>)
    decreases |cmds|
  {
    cmds == [] || (Enabled(t, cmds[0]) && Feasible(Apply(t, cmds[0]).next, cmds[1..]))
  }

  /** The end state of a run, the writes whose add returned true, the writes whose callback
      ran, and the FutureAction calls. */
  datatype Outcome = Outcome(final: Tracker, admitted: multiset<Pending>,
                             completed: multiset<Pending>, log: seq<Event>)

  function Run(t: Tracker, cmds: seq<Cmd>): Outcome
    requires Feasible(t, cmds)
    decreases |cmds|
  {
    if cmds == [] then Outcome(t, multiset{}, multiset{}, [])
    else
      var c := cmds[0];
      var s := Apply(t, c);
      var rest := Run(s.next, cmds[1..]);
      Outcome(rest.final, AdmittedBy(s, c) + rest.admitted, CompletedBy(c) + rest.completed,
              s.events + rest.log)
  }

  /** The write a step admits: that of an add that returned true. */
  function AdmittedBy(s: Step, c: Cmd): multiset<Pending> {
    if c.Add? && s.reply == Some(true) then multiset{c.op} else multiset{}
  }

  /** The write a step completes: that of a callback. */
  function CompletedBy(c: Cmd): multiset<Pending> {
    if c.Succeed? || c.Fail? then multiset{c.op} else multiset{}
  }

  /** A step moves its admitted write into the in-flight set and its completed write out. */
  lemma ApplyInFlight(t: Tracker, c: Cmd)
    requires Enabled(t, c)
    ensures Apply(t, c).next.inFlight + CompletedBy(c) == t.inFlight + AdmittedBy(Apply(t, c), c)
  {
    if c.Succeed? || c.Fail? {
      assert (t.inFlight - multiset{c.op}) + multiset{c.op} == t.inFlight;
    }
  }

  datatype Kind = SuccessKind | FailureKind | TooManyKind

  function KindOf(n: Notice): Kind {
    match n
    case OnSuccess(_, _) => SuccessKind
    case OnFailure(_, _) => FailureKind
    case OnTooManyFailures => TooManyKind
  }

  /** How many calls of kind `k` the log holds. */
  function Count(log: seq<Event>, k: Kind): nat {
    if log == [] then 0
    else (if KindOf(log[0].notice) == k then 1 else 0) + Count(log[1..], k)
  }

  lemma {:induction false} CountAppend(a: seq<Event>, b: seq<Event>, k: Kind)
    ensures Count(a + b, k) == Count(a, k) + Count(b, k)
  {
    if a == [] {
      assert a + b == b;
    } else {
      assert (a + b)[0] == a[0];
      assert (a + b)[1..] == a[1..] + b;
      CountAppend(a[1..], b, k);
    }
  }

  /** How many of the failures numbered 1..n were at or past the limit, i.e. how many
      times onTooManyFailures is due after n failures. */
  function TooManyDue(maxInsertErrors: int, n: nat): nat {
    if n == 0 then 0
    else TooManyDue(maxInsertErrors, n - 1) + (if maxInsertErrors <= n then 1 else 0)
  }

  /** onTooManyFailures is due on every failure from the limit on (and on every failure
      if the limit is 0 or less), not only on the one that crosses it. */
  lemma {:induction false} TooManyDueClosedForm(maxInsertErrors: int, n: nat)
    ensures TooManyDue(maxInsertErrors, n) ==
              if n < maxInsertErrors then 0
              else n - (if maxInsertErrors < 1 then 1 else maxInsertErrors) + 1
  {
    if n > 0 {
      TooManyDueClosedForm(maxInsertErrors, n - 1);
    }
  }

  /** A run keeps the permit accounting and the fixed parameters. */
  lemma {:induction false} RunValid(t: Tracker, cmds: seq<Cmd>)
    requires Valid(t) && Feasible(t, cmds)
    ensures Valid(Run(t, cmds).final)
    ensures Run(t, cmds).final.size == t.size
    ensures Run(t, cmds).final.maxInsertErrors == t.maxInsertErrors
    decreases |cmds|
  {
    if cmds != [] {
      ApplyValid(t, cmds[0]);
      RunValid(Apply(t, cmds[0]).next, cmds[1..]);
    }
  }

  /** The FutureAction calls of one step: none for add and cleanup; onSuccess for a
      success and onFailure for a failure, first and about the write completed; and
      onTooManyFailures exactly when the failure's new count is at or past the limit. */
  lemma ApplyEvents(t: Tracker, c: Cmd)
    requires Enabled(t, c)
    ensures var s := Apply(t, c);
      ((c.Add? || c.Cleanup?) ==> s.events == []) &&
      (c.Succeed? ==> s.events != [] && s.events[0].notice == OnSuccess(c.rs, c.op.line)) &&
      (c.Fail? ==> s.events != [] && s.events[0].notice == OnFailure(c.t, c.op.line))
    ensures var s := Apply(t, c);
      Count(s.events, SuccessKind) == (if c.Succeed? then 1 else 0) &&
      Count(s.events, FailureKind) == (if c.Fail? then 1 else 0) &&
      TooManyDue(t.maxInsertErrors, s.next.insertErrors)
        == TooManyDue(t.maxInsertErrors, t.insertErrors) + Count(s.events, TooManyKind)
  {
    if c.Fail? {
      var s := Apply(t, c);
      var seen := Counters(t.available, t.insertErrors + 1, t.numInserted);
      var head := [Event(OnFailure(c.t, c.op.line), seen)];
      var tail := if t.maxInsertErrors <= seen.insertErrors
                  then [Event(OnTooManyFailures, seen)] else [];
      assert s.events == head + tail;
      CountAppend(head, tail, SuccessKind);
      CountAppend(head, tail, FailureKind);
      CountAppend(head, tail, TooManyKind);
    }
  }

  /**
   The counters grow by exactly the notifications logged: one onSuccess per numInserted
   increment, one onFailure per insertErrors increment, and one onTooManyFailures per
   failure whose new count is at or past the limit.
   */
  lemma {:induction false} RunCounts(t: Tracker, cmds: seq<Cmd>)
    requires Valid(t) && Feasible(t, cmds)
    ensures var r := Run(t, cmds);
      r.final.numInserted == t.numInserted + Count(r.log, SuccessKind) &&
      r.final.insertErrors == t.insertErrors + Count(r.log, FailureKind) &&
      TooManyDue(t.maxInsertErrors, r.final.insertErrors)
        == TooManyDue(t.maxInsertErrors, t.insertErrors) + Count(r.log, TooManyKind)
    decreases |cmds|
  {
    if cmds != [] {
      var c := cmds[0];
      var s := Apply(t, c);
      var rest := Run(s.next, cmds[1..]);
      ApplyValid(t, c);
      ApplyCounters(t, c);
      ApplyEvents(t, c);
      RunCounts(s.next, cmds[1..]);
      CountAppend(s.events, rest.log, SuccessKind);
      CountAppend(s.events, rest.log, FailureKind);
      CountAppend(s.events, rest.log, TooManyKind);
    }
  }

  /** Both counters never decrease over a run. */
  lemma CountersNeverDecrease(t: Tracker, cmds: seq<Cmd>)
    requires Valid(t) && Feasible(t, cmds)
    ensures Run(t, cmds).final.insertErrors >= t.insertErrors
    ensures Run(t, cmds).final.numInserted >= t.numInserted
  {
    RunCounts(t, cmds);
  }

  /** Every write in flight at the start or admitted during the run is, at the end, either
      still in flight or completed. */
  lemma {:induction false} RunInFlight(t: Tracker, cmds: seq<Cmd>)
    requires Feasible(t, cmds)
    ensures Run(t, cmds).final.inFlight + Run(t, cmds).completed
              == t.inFlight + Run(t, cmds).admitted
    decreases |cmds|
  {
    if cmds != [] {
      var c := cmds[0];
      var s := Apply(t, c);
      var r := Run(s.next, cmds[1..]);
      RunInFlight(s.next, cmds[1..]);
      ApplyInFlight(t, c);
      assert Run(t, cmds).admitted == AdmittedBy(s, c) + r.admitted;
      assert Run(t, cmds).completed == CompletedBy(c) + r.completed;
      Rebalance(r.final.inFlight, r.completed, s.next.inFlight, r.admitted,
                CompletedBy(c), t.inFlight, AdmittedBy(s, c));
    }
  }

  /** Multiset bookkeeping for one step of RunInFlight. */
  lemma Rebalance<T>(fin: multiset<T>, done: multiset<T>, mid: multiset<T>, adm: multiset<T>,
                     doneNow: multiset<T>, start: multiset<T>, admNow: multiset<T>)
    requires fin + done == mid + adm
    requires mid + doneNow == start + admNow
    ensures fin + (doneNow + done) == start + (admNow + adm)
  {
    calc {
      fin + (doneNow + done);
      (fin + done) + doneNow;
      (mid + adm) + doneNow;
      (mid + doneNow) + adm;
      (start + admNow) + adm;
    }
  }

  /** Each completion counts once, as an insert or as an error. */
  lemma {:induction false} RunCompletions(t: Tracker, cmds: seq<Cmd>)
    requires Feasible(t, cmds)
    ensures Run(t, cmds).final.numInserted + Run(t, cmds).final.insertErrors
              == t.numInserted + t.insertErrors + |Run(t, cmds).completed|
    decreases |cmds|
  {
    if cmds != [] {
      var c := cmds[0];
      ApplyCounters(t, c);
      RunCompletions(Apply(t, c).next, cmds[1..]);
    }
  }

  /** Once the error count has reached the limit, add admits nothing more. */
  lemma {:induction false} OpenCircuitRefuses(t: Tracker, cmds: seq<Cmd>)
    requires Valid(t) && Feasible(t, cmds)
    requires t.TooManyErrors()
    ensures Run(t, cmds).admitted == multiset{}
    ensures Run(t, cmds).final.TooManyErrors()
    decreases |cmds|
  {
    if cmds != [] {
      var s := Apply(t, cmds[0]);
      ApplyValid(t, cmds[0]);
      ApplyCounters(t, cmds[0]);
      OpenCircuitRefuses(s.next, cmds[1..]);
    }
  }

  /**
   From a fresh tracker: at most `size` writes are ever in flight; a write completes no
   more often than it was admitted, and the admitted writes not completed are exactly
   those in flight; the log holds one onSuccess per insert and one onFailure per error;
   and once cleanup has taken all permits every admitted write has completed and, with
   each callback one indivisible step, numInserted + insertErrors is the number of add
   calls that returned true.
   */
  lemma FromStart(size: int, maxInsertErrors: int, cmds: seq<Cmd>)
    requires size > 0 && Feasible(Init(size, maxInsertErrors), cmds)
    ensures var r := Run(Init(size, maxInsertErrors), cmds);
      |r.final.inFlight| <= size &&
      r.completed <= r.admitted &&
      r.final.inFlight == r.admitted - r.completed &&
      Count(r.log, SuccessKind) == r.final.numInserted &&
      Count(r.log, FailureKind) == r.final.insertErrors &&
      r.final.numInserted + r.final.insertErrors == |r.completed| &&
      (r.final.drained ==> r.final.inFlight == multiset{} && r.completed == r.admitted &&
                           r.final.numInserted + r.final.insertErrors == |r.admitted|)
  {
    var t := Init(size, maxInsertErrors);
    RunValid(t, cmds);
    RunCounts(t, cmds);
    RunInFlight(t, cmds);
    RunCompletions(t, cmds);
    var r := Run(t, cmds);
    assert r.final.inFlight + r.completed == r.admitted;
    assert r.final.inFlight == r.admitted - r.completed;
  }

  /**
   From a fresh tracker, onTooManyFailures has been called once for every failure whose
   count reached the limit; in particular exactly once when the run ends with the error
   count equal to a positive limit.
   */
  lemma TooManyFailuresFromStart(size: int, maxInsertErrors: int, cmds: seq<Cmd>)
    requires size > 0 && Feasible(Init(size, maxInsertErrors), cmds)
    ensures var r := Run(Init(size, maxInsertErrors), cmds);
      var n := r.final.insertErrors;
      Count(r.log, TooManyKind) ==
        (if n < maxInsertErrors then 0
         else n - (if maxInsertErrors < 1 then 1 else maxInsertErrors) + 1) &&
      (1 <= maxInsertErrors == n ==> Count(r.log, TooManyKind) == 1)
  {
    var t := Init(size, maxInsertErrors);
    RunCounts(t, cmds);
    TooManyDueClosedForm(maxInsertErrors, Run(t, cmds).final.insertErrors);
  }

  /** Running `c` first from `t`, when its step is known to lead to `next` and to admit
      `admitted`: the run of the rest from `next`, with that admission in front. */
  lemma RunStep(t: Tracker, c: Cmd, rest: seq<Cmd>, next: Tracker,
                admitted: multiset<Pending>)
    requires Enabled(t, c) && Apply(t, c).next == next
    requires AdmittedBy(Apply(t, c), c) == admitted
    requires Feasible(next, rest)
    ensures Feasible(t, [c] + rest)
    ensures Run(t, [c] + rest).final == Run(next, rest).final
    ensures Run(t, [c] + rest).admitted == admitted + Run(next, rest).admitted
  {
    assert ([c] + rest)[0] == c;
    assert ([c] + rest)[1..] == rest;
  }

  /**
   The five-write run: two permits, limit three; writes 1, 3 and 5 fail, 2 and 4 succeed,
   and the callbacks arrive in the order 2, 1, 4, 3, 5.  Write k carries the input line
   `line(k)`, whatever it is.  The run is cut into five phases so that each is checked on
   its own; the closing cleanup is the step after it.
   */
  function W(line: nat -> string, k: nat): Pending {
    Pending(k, line(k))
  }

  function Phase1(line: nat -> string): seq<Cmd> {
    [Add(W(line, 1), false), Add(W(line, 2), false), Succeed(W(line, 2), ResultSet(2))]
  }

  function Phase2(line: nat -> string): seq<Cmd> {
    [Add(W(line, 3), false), Fail(W(line, 1), Throwable(1))]
  }

  function Phase3(line: nat -> string): seq<Cmd> {
    [Add(W(line, 4), false), Succeed(W(line, 4), ResultSet(4))]
  }

  function Phase4(line: nat -> string): seq<Cmd> {
    [Add(W(line, 5), false), Fail(W(line, 3), Throwable(3))]
  }

  function Phase5(line: nat -> string): seq<Cmd> {
    [Fail(W(line, 5), Throwable(5))]
  }

  function FiveWrites(line: nat -> string): seq<Cmd> {
    Phase1(line) + (Phase2(line) + (Phase3(line) + (Phase4(line) + Phase5(line))))
  }

  /** The states between the phases. */
  function AfterPhase1(line: nat -> string): Tracker {
    Tracker(2, 3, 1, 0, 1, multiset{W(line, 1)}, false)
  }

  function AfterPhase2(line: nat -> string): Tracker {
    Tracker(2, 3, 1, 1, 1, multiset{W(line, 3)}, false)
  }

  function AfterPhase3(line: nat -> string): Tracker {
    Tracker(2, 3, 1, 1, 2, multiset{W(line, 3)}, false)
  }

  function AfterPhase4(line: nat -> string): Tracker {
    Tracker(2, 3, 1, 2, 2, multiset{W(line, 5)}, false)
  }

  function AfterPhase5(line: nat -> string): Tracker {
    Tracker(2, 3, 2, 3, 2, multiset{}, false)
  }

  /** The states inside the phases. */
  function InPhase1a(line: nat -> string): Tracker {
    Tracker(2, 3, 1, 0, 0, multiset{W(line, 1)}, false)
  }

  function InPhase1b(line: nat -> string): Tracker {
    Tracker(2, 3, 0, 0, 0, multiset{W(line, 1), W(line, 2)}, false)
  }

  function InPhase2(line: nat -> string): Tracker {
    Tracker(2, 3, 0, 0, 1, multiset{W(line, 1), W(line, 3)}, false)
  }

  function InPhase3(line: nat -> string): Tracker {
    Tracker(2, 3, 0, 1, 1, multiset{W(line, 3), W(line, 4)}, false)
  }

  function InPhase4(line: nat -> string): Tracker {
    Tracker(2, 3, 0, 1, 2, multiset{W(line, 3), W(line, 5)}, false)
  }

  /** The steps of phase 1, one by one. */
  lemma Phase1Steps(line: nat -> string)
    ensures Enabled(Init(2, 3), Add(W(line, 1), false))
    ensures Apply(Init(2, 3), Add(W(line, 1), false)).next == InPhase1a(line)
    ensures AdmittedBy(Apply(Init(2, 3), Add(W(line, 1), false)), Add(W(line, 1), false))
              == multiset{W(line, 1)}
    ensures Enabled(InPhase1a(line), Add(W(line, 2), false))
    ensures Apply(InPhase1a(line), Add(W(line, 2), false)).next == InPhase1b(line)
    ensures AdmittedBy(Apply(InPhase1a(line), Add(W(line, 2), false)), Add(W(line, 2), false))
              == multiset{W(line, 2)}
    ensures Enabled(InPhase1b(line), Succeed(W(line, 2), ResultSet(2)))
    ensures Apply(InPhase1b(line), Succeed(W(line, 2), ResultSet(2))).next == AfterPhase1(line)
    ensures AdmittedBy(Apply(InPhase1b(line), Succeed(W(line, 2), ResultSet(2))),
                       Succeed(W(line, 2), ResultSet(2)))
              == multiset{}
  {
  }

  /** Writes 1 and 2 are admitted, which uses up the pool; write 2 succeeds. */
  lemma Phase1Run(line: nat -> string, rest: seq<Cmd>)
    requires Feasible(AfterPhase1(line), rest)
    ensures Feasible(Init(2, 3), Phase1(line) + rest)
    ensures Run(Init(2, 3), Phase1(line) + rest).final == Run(AfterPhase1(line), rest).final
    ensures Run(Init(2, 3), Phase1(line) + rest).admitted
              == multiset{W(line, 1), W(line, 2)} + Run(AfterPhase1(line), rest).admitted
  {
    Phase1Steps(line);
    var c0 := Add(W(line, 1), false);
    var c1 := Add(W(line, 2), false);
    var c2 := Succeed(W(line, 2), ResultSet(2));
    RunStep(InPhase1b(line), c2, rest, AfterPhase1(line), multiset{});
    RunStep(InPhase1a(line), c1, [c2] + rest, InPhase1b(line), multiset{W(line, 2)});
    RunStep(Init(2, 3), c0, [c1] + ([c2] + rest), InPhase1a(line), multiset{W(line, 1)});
    assert Phase1(line) + rest == [c0] + ([c1] + ([c2] + rest));
  }

  /** The steps of phase 2, one by one. */
  lemma Phase2Steps(line: nat -> string)
    ensures Enabled(AfterPhase1(line), Add(W(line, 3), false))
    ensures Apply(AfterPhase1(line), Add(W(line, 3), false)).next == InPhase2(line)
    ensures AdmittedBy(Apply(AfterPhase1(line), Add(W(line, 3), false)), Add(W(line, 3), false))
              == multiset{W(line, 3)}
    ensures Enabled(InPhase2(line), Fail(W(line, 1), Throwable(1)))
    ensures Apply(InPhase2(line), Fail(W(line, 1), Throwable(1))).next == AfterPhase2(line)
    ensures AdmittedBy(Apply(InPhase2(line), Fail(W(line, 1), Throwable(1))),
                       Fail(W(line, 1), Throwable(1)))
              == multiset{}
  {
  }

  /** Write 3 takes the freed permit; write 1 fails, the first error. */
  lemma Phase2Run(line: nat -> string, rest: seq<Cmd>)
    requires Feasible(AfterPhase2(line), rest)
    ensures Feasible(AfterPhase1(line), Phase2(line) + rest)
    ensures Run(AfterPhase1(line), Phase2(line) + rest).final
              == Run(AfterPhase2(line), rest).final
    ensures Run(AfterPhase1(line), Phase2(line) + rest).admitted
              == multiset{W(line, 3)} + Run(AfterPhase2(line), rest).admitted
  {
    Phase2Steps(line);
    var c0 := Add(W(line, 3), false);
    var c1 := Fail(W(line, 1), Throwable(1));
    RunStep(InPhase2(line), c1, rest, AfterPhase2(line), multiset{});
    RunStep(AfterPhase1(line), c0, [c1] + rest, InPhase2(line), multiset{W(line, 3)});
    assert Phase2(line) + rest == [c0] + ([c1] + rest);
  }

  /** The steps of phase 3, one by one. */
  lemma Phase3Steps(line: nat -> string)
    ensures Enabled(AfterPhase2(line), Add(W(line, 4), false))
    ensures Apply(AfterPhase2(line), Add(W(line, 4), false)).next == InPhase3(line)
    ensures AdmittedBy(Apply(AfterPhase2(line), Add(W(line, 4), false)), Add(W(line, 4), false))
              == multiset{W(line, 4)}
    ensures Enabled(InPhase3(line), Succeed(W(line, 4), ResultSet(4)))
    ensures Apply(InPhase3(line), Succeed(W(line, 4), ResultSet(4))).next == AfterPhase3(line)
    ensures AdmittedBy(Apply(InPhase3(line), Succeed(W(line, 4), ResultSet(4))),
                       Succeed(W(line, 4), ResultSet(4)))
              == multiset{}
  {
  }

  /** Write 4 takes the last permit and succeeds. */
  lemma Phase3Run(line: nat -> string, rest: seq<Cmd>)
    requires Feasible(AfterPhase3(line), rest)
    ensures Feasible(AfterPhase2(line), Phase3(line) + rest)
    ensures Run(AfterPhase2(line), Phase3(line) + rest).final
              == Run(AfterPhase3(line), rest).final
    ensures Run(AfterPhase2(line), Phase3(line) + rest).admitted
              == multiset{W(line, 4)} + Run(AfterPhase3(line), rest).admitted
  {
    Phase3Steps(line);
    var c0 := Add(W(line, 4), false);
    var c1 := Succeed(W(line, 4), ResultSet(4));
    RunStep(InPhase3(line), c1, rest, AfterPhase3(line), multiset{});
    RunStep(AfterPhase2(line), c0, [c1] + rest, InPhase3(line), multiset{W(line, 4)});
    assert Phase3(line) + rest == [c0] + ([c1] + rest);
  }

  /** The steps of phase 4, one by one. */
  lemma Phase4Steps(line: nat -> string)
    ensures Enabled(AfterPhase3(line), Add(W(line, 5), false))
    ensures Apply(AfterPhase3(line), Add(W(line, 5), false)).next == InPhase4(line)
    ensures AdmittedBy(Apply(AfterPhase3(line), Add(W(line, 5), false)), Add(W(line, 5), false))
              == multiset{W(line, 5)}
    ensures Enabled(InPhase4(line), Fail(W(line, 3), Throwable(3)))
    ensures Apply(InPhase4(line), Fail(W(line, 3), Throwable(3))).next == AfterPhase4(line)
    ensures AdmittedBy(Apply(InPhase4(line), Fail(W(line, 3), Throwable(3))),
                       Fail(W(line, 3), Throwable(3)))
              == multiset{}
  {
  }

  /** Write 5 is admitted; write 3 fails, the second error. */
  lemma Phase4Run(line: nat -> string, rest: seq<Cmd>)
    requires Feasible(AfterPhase4(line), rest)
    ensures Feasible(AfterPhase3(line), Phase4(line) + rest)
    ensures Run(AfterPhase3(line), Phase4(line) + rest).final
              == Run(AfterPhase4(line), rest).final
    ensures Run(AfterPhase3(line), Phase4(line) + rest).admitted
              == multiset{W(line, 5)} + Run(AfterPhase4(line), rest).admitted
  {
    Phase4Steps(line);
    var c0 := Add(W(line, 5), false);
    var c1 := Fail(W(line, 3), Throwable(3));
    RunStep(InPhase4(line), c1, rest, AfterPhase4(line), multiset{});
    RunStep(AfterPhase3(line), c0, [c1] + rest, InPhase4(line), multiset{W(line, 5)});
    assert Phase4(line) + rest == [c0] + ([c1] + rest);
  }

  /** The steps of phase 5, one by one. */
  lemma Phase5Steps(line: nat -> string)
    ensures Enabled(AfterPhase4(line), Fail(W(line, 5), Throwable(5)))
    ensures Apply(AfterPhase4(line), Fail(W(line, 5), Throwable(5))).next == AfterPhase5(line)
    ensures AdmittedBy(Apply(AfterPhase4(line), Fail(W(line, 5), Throwable(5))),
                       Fail(W(line, 5), Throwable(5)))
              == multiset{}
  {
  }

  /** Write 5 fails, the third error; nothing is left in flight. */
  lemma Phase5Run(line: nat -> string)
    ensures Feasible(AfterPhase4(line), Phase5(line))
    ensures Run(AfterPhase4(line), Phase5(line)).final == AfterPhase5(line)
    ensures Run(AfterPhase4(line), Phase5(line)).admitted == multiset{}
  {
    Phase5Steps(line);
    var c0 := Fail(W(line, 5), Throwable(5));
    RunStep(AfterPhase4(line), c0, [], AfterPhase5(line), multiset{});
    assert Phase5(line) == [c0] + [];
  }

  /** The phases chained: the run is feasible, admits all five writes and ends in the state
      after phase 5. */
  lemma FiveWritesRun(line: nat -> string)
    ensures Feasible(Init(2, 3), FiveWrites(line))
    ensures var r := Run(Init(2, 3), FiveWrites(line));
      r.final == AfterPhase5(line) &&
      r.admitted == multiset{W(line, 1), W(line, 2), W(line, 3), W(line, 4), W(line, 5)}
  {
    var rest5 := Phase5(line);
    var rest4 := Phase4(line) + rest5;
    var rest3 := Phase3(line) + rest4;
    var rest2 := Phase2(line) + rest3;
    Phase5Run(line);
    Phase4Run(line, rest5);
    Phase3Run(line, rest4);
    Phase2Run(line, rest3);
    Phase1Run(line, rest2);
    assert FiveWrites(line) == Phase1(line) + rest2;
  }

  /**
   In that run every add returns true (all five writes are admitted) and every write
   completes, with two inserts and three errors; onTooManyFailures is called exactly once,
   the one call due for the third failure.  Cleanup can then take the pool, and returns
   false because the limit has been reached.
   */
  lemma FiveWritesOutcome(line: nat -> string)
    ensures Feasible(Init(2, 3), FiveWrites(line))
    ensures var r := Run(Init(2, 3), FiveWrites(line));
      r.admitted == r.completed
        == multiset{W(line, 1), W(line, 2), W(line, 3), W(line, 4), W(line, 5)} &&
      r.final.inFlight == multiset{} && r.final.TooManyErrors() &&
      r.final.numInserted == 2 && r.final.insertErrors == 3 &&
      Count(r.log, TooManyKind) == 1
    ensures var r := Run(Init(2, 3), FiveWrites(line));
      Enabled(r.final, Cleanup(false)) &&
      Apply(r.final, Cleanup(false)).reply == Some(false) &&
      Apply(r.final, Cleanup(false)).next.drained
  {
    FiveWritesRun(line);
    FromStart(2, 3, FiveWrites(line));
    TooManyFailuresFromStart(2, 3, FiveWrites(line));
  }

  /** With one permit, a second add that is not interrupted cannot take a step while the
      first write is in flight, and can once it has completed. */
  lemma SecondAddWaitsForFirst(line1: string, line2: string)
    ensures var t1 := Apply(Init(1, 100), Add(Pending(1, line1), false)).next;
      !Enabled(t1, Add(Pending(2, line2), false)) &&
      Enabled(Apply(t1, Succeed(Pending(1, line1), ResultSet(1))).next,
              Add(Pending(2, line2), false))
  {
  }
}
