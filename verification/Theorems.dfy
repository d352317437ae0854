/** What the scheduler guarantees over whole runs, and the runs that show where a guarantee ends. */
module Theorems {
  import opened Statements
  import opened Protocol
  import opened Scheduler
  import opened Invariant
  import opened Histories
  import opened Runs
  import opened Steps
  import opened RunHistories

  // ---- safety of every run whose calls were allowed

  /** `inProgress` says that exactly one transaction, the last to start, has not released, and the others have, once. */
  predicate Exclusive(s: State) {
    var starts, releases := Starts(s.log), Releases(s.log);
    if s.inProgress then starts != [] && starts == releases + [starts[|starts| - 1]] else starts == releases
  }

  lemma InvExclusive(s: State)
    requires Inv(s)
    ensures Exclusive(s)
  {
    ReleasesFollowStarts(s.log);
  }

  /** Mutual exclusion, and starts in queue order. */
  lemma MutualExclusion(events: seq<Event>)
    requires !After(events).misuse
    ensures var s := After(events); var starts := Starts(s.log);
            Exclusive(s) && forall i, j :: 0 <= i < j < |starts| ==> starts[i] < starts[j]
  {
    EveryRun(events);
    InvExclusive(After(events));
    ReleasesFollowStarts(After(events).log);
  }

  /** Every transaction ever queued has left the queue once, in order, or is still on it, in order. */
  lemma Conservation(events: seq<Event>)
    requires !After(events).misuse
    ensures var s := After(events); var all := Removed(s.log) + s.queue;
            |all| == |s.txs| && forall i: nat :: i < |all| ==> all[i] == i
  {
    EveryRun(events);
    RemovedInOrder(After(events).log);
  }

  /** The lock holder: the last transaction to have started. */
  function Holder(s: State): nat
    requires Starts(s.log) != []
  {
    Starts(s.log)[|Starts(s.log)| - 1]
  }

  /** A multi-part transaction that waits for the application. */
  predicate WaitsForUser(t: Tx) {
    t.request.MultiPart? && t.isPaused && t.canPause && !t.finalized && t.executes == []
  }

  /** The outstanding batch of the lock holder. */
  predicate WaitsForReply(s: State, id: nat) {
    |s.wire| == 1 && s.wire[0].id == id && s.wire[0].batch != [] && id < |s.txs| && !s.txs[id].isPaused
  }

  /** Between events the holder of the lock, and nobody else, waits: for the reply to one non-empty batch, or for the
      application. */
  lemma NeverStuck(events: seq<Event>)
    requires !After(events).misuse
    ensures var s := After(events);
            && (!s.inProgress ==> s.wire == [])
            && (s.inProgress ==>
                  && Starts(s.log) != [] && Holder(s) < |s.txs|
                  && if s.wire == [] then WaitsForUser(s.txs[Holder(s)])
                     else WaitsForReply(s, Holder(s)))
  {
    EveryRun(events);
    var s := After(events);
    var p := Parse(s.log);
    ReleasesFollowStarts(s.log);
    if p.stage.Busy? {
      BusyBatch(s.log);
    }
    if Holding(p.stage) {
      assert TxOk(s.txs[p.stage.id], p.stage.id, p);
    }
  }

  /** A paused transaction has nothing queued and nothing outstanding.  It is over exactly if one of its batches has
      failed; otherwise it holds the lock and can still be ended. */
  lemma Paused(events: seq<Event>, id: nat)
    requires !After(events).misuse && id < |After(events).txs| && After(events).txs[id].isPaused
    ensures var s := After(events); var t := s.txs[id];
            && t.executes == []
            && (forall w :: w in s.wire ==> w.id != id)
            && (t.finalized <==> Answered(id, true) in s.log)
            && t.canPause && (!t.finalized ==> s.inProgress && Starts(s.log) != [] && Holder(s) == id)
  {
    EveryRun(events);
    RunHonest(Initial, events);
    var s := After(events);
    assert TxOk(s.txs[id], id, Parse(s.log));
    ReleasesFollowStarts(s.log);
    if Answered(id, true) in s.log && !s.txs[id].finalized {
      var j :| 0 <= j < |s.log| && s.log[j] == Answered(id, true);
      UnfailedSoFar(s.log, j);
    }
  }

  /** `end` on a paused transaction always takes the direct finish branch. */
  lemma EndFinishes(events: seq<Event>, id: nat, onSuccess: bool, onError: bool)
    requires !After(events).misuse && id < |After(events).txs| && After(events).txs[id].isPaused
    ensures var s := After(events);
            DoEnd(s, id, onSuccess, onError)
            == Conclude(s.(txs := s.txs[id := AfterEnd(s.txs[id], onSuccess, onError)]), id, false)
  {
    Paused(events, id);
  }

  /** The batch that answers a failure: the statements pending after the last handler, and ROLLBACK. */
  lemma RollbackSendsPending(s: State, results: seq<bool>, scripts: seq<Script>, last: Script)
    requires Inv(s) && s.wire != [] && s.wire[0].id < |s.txs|
    requires Locking(s.txs[s.wire[0].id].request) && !SettlesBatch(s.wire[0].batch)
             && !Reply(s, 0, results, scripts, last).misuse
    ensures var Outstanding(id, batch) := s.wire[0];
            var s1 := s.(wire := s.wire[..0] + s.wire[1..]);
            var (s2, failure) := HandleFrom(s1, id, batch, results, scripts, 0, None);
            && s2.log == s.log && id < |s2.txs|
            && (failure.Some? ==>
                  Reply(s, 0, results, scripts, last).log
                  == s.log + [Answered(id, true)] + [Sent(id, s2.txs[id].executes + [Rollback])])
  {
    var Outstanding(id, batch) := s.wire[0];
    var s1 := s.(wire := s.wire[..0] + s.wire[1..]);
    BusyBatch(s.log);
    assert forall j :: 0 <= j < |batch| ==> !Settles(batch[j]);
    assert Undisturbed(s1);
    HandlePlainFrom(s1, id, batch, results, scripts, 0, None);
    HandleFromPersists(s1, id, batch, results, scripts, 0, None);
    var (s2, failure) := HandleFrom(s1, id, batch, results, scripts, 0, None);
    CompletePersists(s2, id, failure.Some?, last);
    assert TxOk(s2.txs[id], id, Parse(s2.log));
  }

  /** The history of a run is serial: one contiguous segment per transaction, in queue order, apart from callbacks of
      transactions that are still queued; each transaction releases at most once and reports its end at most once. */
  lemma SerialExecution(events: seq<Event>)
    requires !After(events).misuse
    ensures var log := After(events).log;
            && (forall i, j :: 0 <= i < j < |log| && !log[i].Told? ==> log[i].id <= log[j].id)
            && (forall i, j :: 0 <= i < j < |log| && log[i].Released? && log[j].Released? ==> log[i].id != log[j].id)
            && (forall i, j :: 0 <= i < j < |log| && log[i].Final? && log[j].Final? ==> log[i].id != log[j].id)
  {
    EveryRun(events);
    var log := After(events).log;
    forall i, j | 0 <= i < j < |log|
      ensures !log[i].Told? ==> log[i].id <= log[j].id
      ensures log[i].id == log[j].id ==> !(log[i].Released? && log[j].Released?) && !(log[i].Final? && log[j].Final?)
    {
      if !log[i].Told? {
        Serial(log, i, j);
      }
      if log[i].id == log[j].id {
        EndsOnce(log, i, j);
      }
    }
  }

  // ---- no lost wakeup

  /** A transaction that could start has a tick coming. */
  predicate Wakeful(s: State) {
    CanStart(s) ==> s.ticks > 0
  }

  lemma ConcludeWakes(s: State, id: nat, failed: bool)
    requires Wakeful(s) && id < |s.txs|
    ensures Wakeful(Conclude(s, id, failed))
  {
  }

  lemma EndWakes(s: State, id: nat, onSuccess: bool, onError: bool)
    requires Wakeful(s) && id < |s.txs|
    ensures Wakeful(DoEnd(s, id, onSuccess, onError))
  {
    var t := s.txs[id];
    var s1 := s.(txs := s.txs[id := AfterEnd(t, onSuccess, onError)]);
    ConcludeWakes(s1, id, false);
  }

  lemma ActWakes(s: State, a: Action)
    requires Wakeful(s)
    ensures Wakeful(Act(s, a))
  {
    hide DoEnd, NewTx;
    if a.End? && a.tx < |s.txs| {
      EndWakes(s, a.tx, a.onSuccess, a.onError);
    }
  }

  lemma {:induction false} PerformWakes(s: State, acts: seq<Action>)
    requires Wakeful(s)
    ensures Wakeful(Perform(s, acts))
    decreases |acts|
  {
    if acts != [] {
      ActWakes(s, acts[0]);
      PerformWakes(Act(s, acts[0]), acts[1..]);
    }
  }

  lemma SettleWakes(s: State, id: nat, how: How, script: Script)
    requires id < |s.txs|
    ensures Wakeful(Settle(s, id, how, script).0)
  {
    PerformWakes(Release(s, id, how), script.acts);
  }

  lemma HandleWakes(s: State, id: nat, st: Statement, ok: bool, script: Script)
    requires Wakeful(s) && id < |s.txs|
    ensures Wakeful(Handle(s, id, st, ok, script).0)
  {
    match st
    case Commit => SettleWakes(s, id, if ok then CommitOk else CommitFailed, script);
    case Rollback => SettleWakes(s, id, if ok then RollbackOk else RollbackFailed, script);
    case Sql(_, _, _, _) => PerformWakes(s, script.acts);
    case _ =>
  }

  lemma {:induction false} HandleFromWakes(s: State, id: nat, batch: seq<Statement>, results: seq<bool>,
                                           scripts: seq<Script>, i: nat, failure: Option<nat>)
    requires Wakeful(s) && id < |s.txs| && i <= |batch|
    ensures Wakeful(HandleFrom(s, id, batch, results, scripts, i, failure).0)
    decreases |batch| - i
  {
    if i < |batch| {
      var st, ok, script := batch[i], Nth(results, i, false), Nth(scripts, i, Quiet);
      HandlePersists(s, id, st, ok, script);
      HandleWakes(s, id, st, ok, script);
      var (s1, threw) := Handle(s, id, st, ok, script);
      HandleFromWakes(s1, id, batch, results, scripts, i + 1, if threw && failure.None? then Some(i) else failure);
    }
  }

  lemma CompleteWakes(s: State, id: nat, failed: bool, script: Script)
    requires Wakeful(s) && id < |s.txs|
    ensures Wakeful(Complete(s, id, failed, script))
  {
    var s1 := if s.txs[id].finalized then s else Logged(s, Answered(id, failed));
    ConcludeWakes(s1, id, failed);
    PerformWakes(Conclude(s1, id, failed), script.acts);
  }

  lemma ReplyWakes(s: State, k: nat, results: seq<bool>, scripts: seq<Script>, last: Script)
    requires Wakeful(s) && k < |s.wire| && s.wire[k].id < |s.txs|
    ensures Wakeful(Reply(s, k, results, scripts, last))
  {
    var Outstanding(id, batch) := s.wire[k];
    var s1 := s.(wire := s.wire[..k] + s.wire[k + 1..]);
    HandleFromPersists(s1, id, batch, results, scripts, 0, None);
    HandleFromWakes(s1, id, batch, results, scripts, 0, None);
    var (s2, failure) := HandleFrom(s1, id, batch, results, scripts, 0, None);
    CompleteWakes(s2, id, failure.Some?, last);
  }

  lemma TickWakes(s: State, fn: Script, last: Script)
    requires Wakeful(s)
    ensures Wakeful(Tick(s, fn, last))
  {
    if s.ticks > 0 {
      var s1 := s.(ticks := s.ticks - 1);
      if CanStart(s1) {
        StartWakes(Shift(s1), s1.queue[0], fn, last);
      }
    }
  }

  lemma StartWakes(s: State, id: nat, fn: Script, last: Script)
    requires Wakeful(s) && id < |s.txs|
    ensures Wakeful(Start(s, id, fn, last))
  {
    PerformPersists(s, fn.acts, id);
    PerformWakes(s, fn.acts);
    SettleWakes(Perform(s, fn.acts), id, FnThrew, last);
  }

  lemma OpenOkWakes(s: State, script: Script)
    requires !script.outcome.Throws?
    ensures Wakeful(OpenOk(s, script))
  {
  }

  lemma {:induction false} AbortFromWakes(s: State, ids: seq<nat>, scripts: seq<Script>, i: nat)
    requires Wakeful(s) && i <= |ids|
    ensures Wakeful(AbortFrom(s, ids, scripts, i).0)
    decreases |ids| - i
  {
    if i < |ids| {
      var script := Nth(scripts, i, Quiet);
      PerformWakes(Logged(s, Told(ids[i])), script.acts);
      AbortFromWakes(AbortOne(s, ids[i], script).0, ids, scripts, i + 1);
    }
  }

  lemma OpenFailWakes(s: State, script: Script, scripts: seq<Script>)
    requires Wakeful(s)
    ensures Wakeful(OpenFail(s, script, scripts))
  {
    PerformWakes(s, script.acts);
    var s1 := Perform(s, script.acts);
    var s2 := if s1.opens == 0 then s1 else s1.(opens := s1.opens - 1);
    var s3 := s2.(db := NotOpen);
    AbortFromWakes(s3, s3.queue, scripts, 0);
  }

  lemma StepWakes(s: State, e: Event)
    requires Wakeful(s) && (e.OpenSucceeds? ==> !e.script.outcome.Throws?)
    ensures Wakeful(Step(s, e))
  {
    match e
    case Call(a) => ActWakes(s, a);
    case TickRuns(fn, last) => TickWakes(s, fn, last);
    case BatchReply(k, results, scripts, last) =>
      if k < |s.wire| && s.wire[k].id < |s.txs| { ReplyWakes(s, k, results, scripts, last); }
    case OpenSucceeds(script) => if s.opens > 0 { OpenOkWakes(s.(opens := s.opens - 1), script); }
    case OpenFails(script, aborts) => if s.opens > 0 { OpenFailWakes(s, script, aborts); }
  }

  predicate OpenCallbacksReturn(events: seq<Event>) {
    forall e :: e in events && e.OpenSucceeds? ==> !e.script.outcome.Throws?
  }

  lemma {:induction false} RunWakes(s: State, events: seq<Event>)
    requires Wakeful(s) && OpenCallbacksReturn(events)
    ensures Wakeful(RunFrom(s, events))
    decreases |events|
  {
    if events != [] {
      assert events[0] in events;
      StepWakes(s, events[0]);
      assert forall e :: e in events[1..] ==> e in events;
      RunWakes(Step(s, events[0]), events[1..]);
    }
  }

  /** No lost wakeup, over every run, misused or not, in which no open-success callback throws: an open database
      with a free lock and a transaction waiting has a start tick pending. */
  lemma NoLostWakeup(events: seq<Event>)
    requires OpenCallbacksReturn(events)
    ensures var s := After(events);
            s.db.IsOpen? && s.queue != [] && !s.inProgress && s.queue[0] < |s.txs| ==> s.ticks > 0
  {
    RunWakes(Initial, events);
  }

  // ---- countdown and first failure

  /** An exception from the handler of this statement reaches `handlerFor`. */
  predicate FailsAt(st: Statement, ok: bool, script: Script) {
    if !st.Sql? then !ok
    else if ok then st.onSuccess && script.outcome.Throws?
    else !st.onError || !script.outcome.ReturnsFalse?
  }

  predicate FailsIn(batch: seq<Statement>, results: seq<bool>, scripts: seq<Script>, i: nat)
    requires i < |batch|
  {
    FailsAt(batch[i], Nth(results, i, false), Nth(scripts, i, Quiet))
  }

  /** The recorded failure of a batch is its earliest failing statement, and there is one if any statement fails. */
  lemma {:induction false} FirstFailure(s: State, id: nat, batch: seq<Statement>, results: seq<bool>,
                                        scripts: seq<Script>, i: nat)
    requires id < |s.txs| && i <= |batch|
    requires forall j: nat :: i <= j < |batch| ==> !Settles(batch[j])
    ensures match HandleFrom(s, id, batch, results, scripts, i, None).1
            case None => forall j: nat :: i <= j < |batch| ==> !FailsIn(batch, results, scripts, j)
            case Some(k) => i <= k < |batch| && FailsIn(batch, results, scripts, k)
                            && forall j: nat :: i <= j < k ==> !FailsIn(batch, results, scripts, j)
    decreases |batch| - i
  {
    if i < |batch| {
      HandleFromStep(s, id, batch, results, scripts, i, None);
      var (s1, threw) := Handle(s, id, batch[i], Nth(results, i, false), Nth(scripts, i, Quiet));
      assert threw == FailsIn(batch, results, scripts, i);
      if threw {
        FailureIsKept(s1, id, batch, results, scripts, i + 1, Some(i));
      } else {
        FirstFailure(s1, id, batch, results, scripts, i + 1);
      }
    }
  }

  /** A recorded failure is never replaced, and the later handlers run as if there were none. */
  lemma {:induction false} FailureIsKept(s: State, id: nat, batch: seq<Statement>, results: seq<bool>,
                                         scripts: seq<Script>, i: nat, failure: Option<nat>)
    requires id < |s.txs| && i <= |batch| && failure.Some?
    ensures HandleFrom(s, id, batch, results, scripts, i, failure)
            == (HandleFrom(s, id, batch, results, scripts, i, None).0, failure)
    ensures forall other ::
              HandleFrom(s, id, batch, results, scripts, i, failure).0
              == HandleFrom(s, id, batch, results, scripts, i, other).0
    decreases |batch| - i
  {
    if i < |batch| {
      HandleFromStep(s, id, batch, results, scripts, i, failure);
      var (s1, threw) := Handle(s, id, batch[i], Nth(results, i, false), Nth(scripts, i, Quiet));
      FailureIsKept(s1, id, batch, results, scripts, i + 1, failure);
      forall other
        ensures HandleFrom(s, id, batch, results, scripts, i, failure).0
                == HandleFrom(s, id, batch, results, scripts, i, other).0
      {
        HandleFromStep(s, id, batch, results, scripts, i, other);
      }
    }
  }
}
