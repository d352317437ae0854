/** Runs that show where the guarantees end: each breaks one assumption and loses the property that needs it. */
module Counterexamples {
  import opened Statements
  import opened Protocol
  import opened Scheduler
  import opened Histories
  import opened Runs

  ghost predicate Reachable(s: State) {
    exists events :: After(events) == s
  }

  lemma Then(s: State, e: Event, s1: State)
    requires Reachable(s) && Step(s, e) == s1
    ensures Reachable(s1)
  {
    var events :| After(events) == s;
    RunSnoc(Initial, events, e);
    assert After(events + [e]) == s1;
  }

  /** A run that never makes a certain call, and one event more. */
  ghost predicate ReachableWithout(s: State, a: Action) {
    exists events :: After(events) == s && Call(a) !in events
  }

  lemma ThenWithout(s: State, a: Action, e: Event, s1: State)
    requires ReachableWithout(s, a) && e != Call(a) && Step(s, e) == s1
    ensures ReachableWithout(s1, a)
  {
    var events :| After(events) == s && Call(a) !in events;
    RunSnoc(Initial, events, e);
    assert After(events + [e]) == s1;
  }

  const OPEN := Initial.(db := IsOpen)

  lemma Opens()
    ensures Reachable(OPEN)
  {
    assert After([]) == Initial;
    Then(Initial, Call(Open), Initial.(db := OpenPending, opens := 1));
    Then(Initial.(db := OpenPending, opens := 1), OpenSucceeds(Quiet), OPEN);
  }

  // ---- a throwing open-success callback

  const ONE := Single("A", [])

  /** A transaction is queued while the database opens, the callback throws, and nothing will start it. */
  lemma ThrowingOpenLosesWakeup()
    ensures exists s :: Reachable(s) && !s.misuse && CanStart(s) && s.ticks == 0 && s.wire == [] && s.opens == 0
  {
    assert After([]) == Initial;
    var s1 := Initial.(db := OpenPending, opens := 1);
    var s2 := s1.(txs := [NewTx(ONE)], queue := [0]);
    var s3 := s2.(db := IsOpen, opens := 0);
    Then(Initial, Call(Open), s1);
    Then(s1, Call(Enqueue(ONE)), s2);
    Then(s2, OpenSucceeds(Script([], Throws)), s3);
  }

  // ---- `abort` after failure

  const MULTI := MultiPart(false)
  const X := Sql("X", [], false, false)

  /** A multi-part transaction whose statement X has failed: its ROLLBACK is answered, the lock is free. */
  const FAILED :=
    State(IsOpen, false, [], [Tx(MULTI, [], true, true, true, false, false)], 1, 0, [],
          [Started(0, MULTI), Sent(0, [SelectOne, Begin, X]), Answered(0, true), Sent(0, [Rollback]),
           Released(0, RollbackOk)],
          false, false)

  const RUNNING :=
    State(IsOpen, true, [], [Tx(MULTI, [], false, true, false, false, false)], 0, 0,
          [Outstanding(0, [SelectOne, Begin, X])],
          [Started(0, MULTI), Sent(0, [SelectOne, Begin, X])], false, false)

  lemma MultiPartStarts()
    ensures Reachable(RUNNING)
  {
    Opens();
    var t := NewTx(MULTI);
    var s1 := OPEN.(txs := [t], queue := [0], ticks := 1);
    var s2 := s1.(txs := [t.(executes := [SelectOne, Begin, X])]);
    Then(OPEN, Call(Enqueue(MULTI)), s1);
    assert [SelectOne, Begin] + [X] == [SelectOne, Begin, X];
    Then(s1, Call(ExecuteSql(0, "X", [], false, false)), s2);
    MultiPartTick(s2);
  }

  lemma MultiPartTick(s: State)
    requires Reachable(s) && s == OPEN.(txs := [NewTx(MULTI).(executes := [SelectOne, Begin, X])], queue := [0],
                                       ticks := 1)
    ensures Reachable(RUNNING)
  {
    var s1 := s.(ticks := 0);
    assert [SelectOne, Begin, X] + PluginBody(MULTI) == [SelectOne, Begin, X];
    assert Queued(Shift(s1), 0, PluginBody(MULTI)) == Shift(s1);
    assert Run(Shift(s1), 0) == RUNNING;
    Then(s, TickRuns(Quiet, Quiet), RUNNING);
  }

  const ROLLING_BACK :=
    State(IsOpen, true, [], [Tx(MULTI, [], true, true, false, false, false)], 0, 0, [Outstanding(0, [Rollback])],
          RUNNING.log + [Answered(0, true)] + [Sent(0, [Rollback])], false, false)

  lemma FailingReply()
    ensures Step(RUNNING, BatchReply(0, [true, true, false], [], Quiet)) == ROLLING_BACK
  {
    var s, b, r := RUNNING.(wire := []), [SelectOne, Begin, X], [true, true, false];
    assert RUNNING.wire[..0] + RUNNING.wire[1..] == [];
    assert HandleFrom(s, 0, b, r, [], 3, Some(2)) == (s, Some(2));
    assert HandleFrom(s, 0, b, r, [], 2, None) == (s, Some(2));
    assert HandleFrom(s, 0, b, r, [], 1, None) == (s, Some(2));
    assert [] + [Rollback] == [Rollback];
    assert Complete(s, 0, true, Quiet) == ROLLING_BACK;
  }

  lemma MultiPartFails()
    ensures Reachable(FAILED)
  {
    MultiPartStarts();
    FailingReply();
    Then(RUNNING, BatchReply(0, [true, true, false], [], Quiet), ROLLING_BACK);
    RollbackReply();
    Then(ROLLING_BACK, BatchReply(0, [true], [], Quiet), FAILED);
  }

  lemma RollbackReply()
    ensures Step(ROLLING_BACK, BatchReply(0, [true], [], Quiet)) == FAILED
  {
    var s := ROLLING_BACK.(wire := []);
    var s1 := Release(s, 0, RollbackOk);
    assert ROLLING_BACK.wire[..0] + ROLLING_BACK.wire[1..] == [];
    assert HandleFrom(s, 0, [Rollback], [true], [], 1, None) == (s, None);
    assert HandleFrom(s1, 0, [Rollback], [true], [], 1, None) == (s1, None);
    assert Complete(s1, 0, false, Quiet) == FAILED;
  }

  /** `abort` then sends a statement while another transaction holds the lock: two batches are outstanding. */
  lemma LateAbortSendsOutsideLock()
    ensures exists s: State :: Reachable(s) && s.wire == [Outstanding(1, BATCH_A), Outstanding(0, [Invalid])]
  {
    MultiPartFails();
    var s1 := FAILED.(txs := FAILED.txs + [NewTx(ONE)], queue := [1], ticks := 2);
    Then(FAILED, Call(Enqueue(ONE)), s1);
    AnotherStarts();
    Then(s1, TickRuns(Quiet, Quiet), ANOTHER);
    LateAbort();
    hide Act;
    Then(ANOTHER, Call(Abort(0, false)), Act(ANOTHER, Abort(0, false)));
  }

  const ANOTHER :=
    FAILED.(txs := FAILED.txs + [NewTx(ONE).(executes := [])], inProgress := true, wire := [Outstanding(1, BATCH_A)],
            log := FAILED.log + [Started(1, ONE)] + [Sent(1, BATCH_A)])

  lemma AnotherStarts()
    ensures Step(FAILED.(txs := FAILED.txs + [NewTx(ONE)], queue := [1], ticks := 2), TickRuns(Quiet, Quiet)) == ANOTHER
  {
    assert [SelectOne] + PluginBody(ONE) == BATCH_A;
  }

  lemma LateAbort()
    ensures Act(ANOTHER, Abort(0, false)).wire == [Outstanding(1, BATCH_A), Outstanding(0, [Invalid])]
  {
    assert [] + [Invalid] == [Invalid];
  }

  // ---- delete while a transaction runs

  const BATCH_A := [SelectOne, Sql("A", [], true, true)]

  const RUNNING_A :=
    OPEN.(inProgress := true, txs := [NewTx(ONE).(executes := [])], wire := [Outstanding(0, BATCH_A)],
          log := [Started(0, ONE), Sent(0, BATCH_A)])

  lemma SingleStarts()
    ensures ReachableWithout(RUNNING_A, Close)
  {
    var s0 := Initial.(db := OpenPending, opens := 1);
    var s1 := OPEN.(txs := [NewTx(ONE)], queue := [0], ticks := 1);
    assert After([]) == Initial;
    ThenWithout(Initial, Close, Call(Open), s0);
    ThenWithout(s0, Close, OpenSucceeds(Quiet), OPEN);
    ThenWithout(OPEN, Close, Call(Enqueue(ONE)), s1);
    SingleTick(s1);
    ThenWithout(s1, Close, TickRuns(Quiet, Quiet), RUNNING_A);
  }

  lemma SingleTick(s: State)
    requires s == OPEN.(txs := [NewTx(ONE)], queue := [0], ticks := 1, opens := s.opens, rash := s.rash)
    ensures Tick(s, Quiet, Quiet) == RUNNING_A.(opens := s.opens, rash := s.rash)
  {
    assert [SelectOne] + PluginBody(ONE) == BATCH_A;
    var s1 := Queued(Shift(s.(ticks := 0)), 0, PluginBody(ONE));
    assert s1.txs == [NewTx(ONE).(executes := BATCH_A)];
    assert Run(s1, 0) == RUNNING_A.(opens := s.opens, rash := s.rash);
  }

  /** RUNNING_A with another transaction queued behind it, by a caller who has not been careful. */
  const CROWDED :=
    RUNNING_A.(txs := [NewTx(ONE).(executes := []), NewTx(ONE)], queue := [1], ticks := 1, rash := true)

  /** The lock has been cleared, although transaction 0 has not released and its batch is outstanding. */
  const ROBBED :=
    CROWDED.(db := NotOpen, queue := [], inProgress := false, misuse := true,
             log := [Started(0, ONE), Sent(0, BATCH_A), Aborted(1)])

  lemma OpenFailureRobs(db: Connection)
    ensures Step(CROWDED.(db := db, opens := 1), OpenFails(Quiet, [])) == ROBBED
  {
    hide PluginBody;
    var s := CROWDED.(db := NotOpen);
    assert AbortFrom(s, [1], [], 0) == (s, false) by {
      assert AbortFrom(s, [1], [], 1) == (s, false);
    }
    assert Removals([1], 1) == [Aborted(1)];
    assert [Started(0, ONE), Sent(0, BATCH_A)] + [Aborted(1)] == [Started(0, ONE), Sent(0, BATCH_A), Aborted(1)];
  }

  /** Without any close: the database is deleted under a running transaction and reopened; the open fails and clears
      `inProgress`. */
  lemma DeleteBreaksExclusion()
    ensures ReachableWithout(ROBBED, Close)
  {
    SingleStarts();
    hide PluginBody;
    var s1 := CROWDED.(rash := false);
    var s2 := CROWDED.(db := NotOpen);
    var s3 := s2.(db := OpenPending, opens := 1);
    ThenWithout(RUNNING_A, Close, Call(Enqueue(ONE)), s1);
    ThenWithout(s1, Close, Call(Delete), s2);
    ThenWithout(s2, Close, Call(Open), s3);
    OpenFailureRobs(OpenPending);
    ThenWithout(s3, Close, OpenFails(Quiet, []), ROBBED);
  }

  // ---- close while an open is pending

  /** The database is closed and opened again before the first open has been answered: the first reply opens it,
      and the second one, a failure, is still due. */
  const STALE := OPEN.(opens := 1, rash := true)

  lemma ReopenedTooEarly()
    ensures ReachableWithout(STALE, Delete)
  {
    assert After([]) == Initial;
    var s1 := Initial.(db := OpenPending, opens := 1);
    var s2 := s1.(db := NotOpen, rash := true);
    var s3 := s2.(db := OpenPending, opens := 2);
    ThenWithout(Initial, Delete, Call(Open), s1);
    ThenWithout(s1, Delete, Call(Close), s2);
    ThenWithout(s2, Delete, Call(Open), s3);
    ThenWithout(s3, Delete, OpenSucceeds(Quiet), STALE);
  }

  lemma StartsOnStale()
    ensures ReachableWithout(RUNNING_A.(opens := 1, rash := true), Delete)
  {
    ReopenedTooEarly();
    var s1 := STALE.(txs := [NewTx(ONE)], queue := [0], ticks := 1);
    ThenWithout(STALE, Delete, Call(Enqueue(ONE)), s1);
    SingleTick(s1);
    ThenWithout(s1, Delete, TickRuns(Quiet, Quiet), RUNNING_A.(opens := 1, rash := true));
  }

  /** Without any delete: the stale failure clears `inProgress` under the running transaction. */
  lemma CloseWhileOpeningBreaksExclusion()
    ensures ReachableWithout(ROBBED, Delete)
  {
    StartsOnStale();
    hide PluginBody;
    ThenWithout(RUNNING_A.(opens := 1, rash := true), Delete, Call(Enqueue(ONE)), CROWDED.(opens := 1));
    OpenFailureRobs(IsOpen);
    ThenWithout(CROWDED.(opens := 1), Delete, OpenFails(Quiet, []), ROBBED);
  }

  /** With nothing queued behind it the transaction keeps the lock, but its database is not open any more: its batch
      is outstanding on a closed database. */
  lemma StaleFailureClosesRunning()
    ensures exists s :: ReachableWithout(s, Delete) && !s.misuse && s.inProgress && s.db.NotOpen?
                        && s.wire == [Outstanding(0, BATCH_A)]
  {
    StartsOnStale();
    hide PluginBody;
    var s := RUNNING_A.(db := NotOpen, rash := true);
    ThenWithout(RUNNING_A.(opens := 1, rash := true), Delete, OpenFails(Quiet, []), s);
  }

  // ---- callbacks of transactions aborted in the queue

  const FALLIBLE := Transaction(false, true)
  const PENDING := Initial.(db := OpenPending, opens := 1, txs := [NewTx(FALLIBLE)], queue := [0])

  lemma QueuedWhileOpening()
    ensures Reachable(PENDING)
  {
    assert After([]) == Initial;
    var s1 := Initial.(db := OpenPending, opens := 1);
    Then(Initial, Call(Open), s1);
    Then(s1, Call(Enqueue(FALLIBLE)), PENDING);
  }

  /** A transaction queued by an abort callback is dropped: it is never started and its callbacks never run. */
  lemma AbortCallbackLosesTransaction()
    ensures exists s :: Reachable(s) && !s.rash && !s.misuse && s.queue == [] && |s.txs| == 2
                        && s.log == [Told(0), Aborted(0), Lost(1)]
  {
    QueuedWhileOpening();
    var scripts := [Script([Enqueue(ONE)], ReturnsOther)];
    var s1 := Initial.(txs := [NewTx(FALLIBLE)], queue := [0], log := [Told(0)]);
    var s2 := s1.(txs := [NewTx(FALLIBLE), NewTx(ONE)], queue := [0, 1]);
    assert [] + [Told(0)] == [Told(0)];
    assert Perform(s1, [Enqueue(ONE)]) == s2;
    assert AbortFrom(s2, [0], scripts, 1) == (s2, false);
    assert AbortFrom(Initial.(txs := [NewTx(FALLIBLE)], queue := [0]), [0], scripts, 0) == (s2, false);
    assert Removals([0, 1], 1) == [Aborted(0), Lost(1)];
    var s3 := s2.(queue := [], log := [Told(0), Aborted(0), Lost(1)]);
    Then(PENDING, OpenFails(Quiet, scripts), s3);
  }

  const FAILED_ONCE := Initial.(txs := [NewTx(FALLIBLE)], queue := [0], log := [Told(0)])

  /** A throwing abort callback leaves its transaction on the queue. */
  lemma AbortCallbackThrows()
    ensures Reachable(FAILED_ONCE)
  {
    QueuedWhileOpening();
    var scripts := [Script([], Throws)];
    var s1 := Initial.(txs := [NewTx(FALLIBLE)], queue := [0]);
    assert [] + [Told(0)] == [Told(0)];
    assert AbortFrom(s1, [0], scripts, 0) == (FAILED_ONCE, true);
    Then(PENDING, OpenFails(Quiet, scripts), FAILED_ONCE);
  }

  const REOPENED := FAILED_ONCE.(db := IsOpen, ticks := 1)

  /** When the database is opened again the transaction starts, although it has been told of its failure, and
      reports a second time: here its body throws. */
  lemma ThrowingAbortCallbackReportsTwice()
    ensures exists s ::
              && Reachable(s) && !s.rash && !s.misuse
              && s.log == [Told(0), Started(0, FALLIBLE), Released(0, FnThrew), Final(0, false)]
  {
    AbortCallbackThrows();
    var s1 := FAILED_ONCE.(db := OpenPending, opens := 1);
    Then(FAILED_ONCE, Call(Open), s1);
    Then(s1, OpenSucceeds(Quiet), REOPENED);
    StartsAgain();
    Then(REOPENED, TickRuns(Script([], Throws), Quiet), Step(REOPENED, TickRuns(Script([], Throws), Quiet)));
  }

  lemma StartsAgain()
    ensures var s := Step(REOPENED, TickRuns(Script([], Throws), Quiet));
            !s.rash && !s.misuse && s.log == [Told(0), Started(0, FALLIBLE), Released(0, FnThrew), Final(0, false)]
  {
    var s1 := Shift(REOPENED.(ticks := 0));
    assert s1.log == [Told(0), Started(0, FALLIBLE)];
    var s2 := Release(s1, 0, FnThrew);
    assert s2.log == [Told(0), Started(0, FALLIBLE), Released(0, FnThrew), Final(0, false)];
    assert Perform(s2, []) == s2;
    assert Perform(s1, []) == s1;
  }

  // ---- a throwing open-error callback

  /** The name stays marked as opening with no reply due: the queued transaction can neither start nor fail. */
  lemma ThrowingOpenErrorStrands()
    ensures exists s :: Reachable(s) && !s.misuse && s.db.OpenPending? && s.opens == 0
                        && s.queue == [0] && s.ticks == 0 && s.wire == []
  {
    QueuedWhileOpening();
    Then(PENDING, OpenFails(Script([], Throws), []), PENDING.(opens := 0));
  }
}
