/** What no step undoes: the past, and what has become of a transaction object. */
module Steps {
  import opened Statements
  import opened Protocol
  import opened Scheduler

  /** A transaction object only moves forward; once it cannot pause, its callbacks are settled. */
  predicate Older(t: Tx, t1: Tx) {
    && t1.request == t.request
    && (t.finalized ==> t1.finalized)
    && (!t.canPause ==> !t1.canPause && t1.onSuccess == t.onSuccess && t1.onError == t.onError)
  }

  /** A finalized transaction that can still pause has failed. */
  predicate Excused(s: State) {
    forall i: nat :: i < |s.txs| && s.txs[i].finalized && s.txs[i].canPause ==> Answered(i, true) in s.log
  }

  /** If the database is opening, a reply is due. */
  predicate Awaited(s: State) {
    s.db.OpenPending? ==> s.opens > 0
  }

  predicate Extends(log: seq<Entry>, log1: seq<Entry>) {
    log <= log1 && forall e :: e in log1[|log|..] ==> !e.Started?
  }

  /** From `s` to `s1` nothing has started and nothing has been taken back. */
  predicate Moves(s: State, s1: State) {
    && |s.txs| <= |s1.txs|
    && (forall i :: 0 <= i < |s.txs| ==> Older(s.txs[i], s1.txs[i]))
    && Extends(s.log, s1.log)
    && (Excused(s) ==> Excused(s1))
  }

  /** At most one reply to an open is due, and only while the database is opening; transactions run on open
      databases. */
  predicate Orderly(s: State) {
    && s.opens <= 1
    && (s.opens == 1 ==> s.db.OpenPending?)
    && (s.inProgress ==> s.db.IsOpen?)
  }

  /** Nothing but a rash call disturbs the order; and the lock is not taken. */
  predicate Tame(s: State, s1: State) {
    && (s.rash ==> s1.rash)
    && (!s1.rash ==> s1.misuse == s.misuse && (Orderly(s) ==> Orderly(s1)))
    && (s1.inProgress ==> s.inProgress)
  }

  predicate Unanswered(log: seq<Entry>, log1: seq<Entry>) {
    |log| <= |log1| && forall e :: e in log1[|log|..] ==> !e.Answered?
  }

  /** Nor has the scheduler begun to wait for an open that will not be answered. */
  predicate Proceeds(s: State, s1: State) {
    Moves(s, s1) && (Awaited(s) ==> Awaited(s1)) && Tame(s, s1)
  }

  predicate Untold(log: seq<Entry>, log1: seq<Entry>) {
    |log| <= |log1| && forall e :: e in log1[|log|..] ==> !e.Told?
  }

  /** Nor has a batch been answered, or a queued transaction been told of a failure. */
  predicate Follows(s: State, s1: State) {
    Proceeds(s, s1) && Unanswered(s.log, s1.log) && Untold(s.log, s1.log)
  }

  lemma ExtendsOn(a: seq<Entry>, b: seq<Entry>, c: seq<Entry>)
    requires Extends(a, b) && Extends(b, c)
    ensures Extends(a, c)
  {
    assert c[|a|..] == b[|a|..] + c[|b|..];
  }

  lemma MovesOn(s: State, s1: State, s2: State)
    requires Moves(s, s1) && Moves(s1, s2)
    ensures Moves(s, s2)
  {
    hide Extends, Excused;
    ExtendsOn(s.log, s1.log, s2.log);
  }

  lemma FollowsOn(s: State, s1: State, s2: State)
    requires Follows(s, s1) && Follows(s1, s2)
    ensures Follows(s, s2)
  {
    hide Proceeds, Unanswered, Untold;
    ProceedsOn(s, s1, s2);
    ProceedsExtends(s, s1);
    ProceedsExtends(s1, s2);
    UnansweredOn(s.log, s1.log, s2.log);
    UntoldOn(s.log, s1.log, s2.log);
  }

  lemma ProceedsOn(s: State, s1: State, s2: State)
    requires Proceeds(s, s1) && Proceeds(s1, s2)
    ensures Proceeds(s, s2)
  {
    hide Moves, Awaited, Orderly;
    MovesOn(s, s1, s2);
  }

  lemma ProceedsExtends(s: State, s1: State)
    requires Proceeds(s, s1)
    ensures Extends(s.log, s1.log)
  {
  }

  lemma UnansweredOn(a: seq<Entry>, b: seq<Entry>, c: seq<Entry>)
    requires Extends(a, b) && Extends(b, c) && Unanswered(a, b) && Unanswered(b, c)
    ensures Unanswered(a, c)
  {
    assert c[|a|..] == b[|a|..] + c[|b|..];
  }

  lemma UntoldOn(a: seq<Entry>, b: seq<Entry>, c: seq<Entry>)
    requires Extends(a, b) && Extends(b, c) && Untold(a, b) && Untold(b, c)
    ensures Untold(a, c)
  {
    assert c[|a|..] == b[|a|..] + c[|b|..];
  }

  /** At most one transaction object has changed. */
  predicate OneChanged(s: State, s1: State, id: nat)
    requires id < |s.txs|
  {
    && |s1.txs| == |s.txs| && (forall i :: 0 <= i < |s.txs| && i != id ==> s1.txs[i] == s.txs[i])
    && Older(s.txs[id], s1.txs[id])
    && (s1.txs[id].finalized && s1.txs[id].canPause ==> s.txs[id].finalized && s.txs[id].canPause)
    && s1.db == s.db && s1.opens == s.opens && (s1.inProgress ==> s.inProgress)
    && s1.misuse == s.misuse && s1.rash == s.rash
  }

  lemma OneFollows(s: State, s1: State, id: nat)
    requires id < |s.txs| && OneChanged(s, s1, id) && Extends(s.log, s1.log)
    requires Unanswered(s.log, s1.log) && Untold(s.log, s1.log)
    ensures Follows(s, s1)
  {
  }

  lemma ReleaseFollows(s: State, id: nat, how: How)
    requires id < |s.txs|
    ensures Follows(s, Release(s, id, how))
  {
    OneFollows(s, Release(s, id, how), id);
  }

  /** The end of a transaction that cannot pause, or that has failed. */
  lemma ConcludeFollows(s: State, id: nat, failed: bool)
    requires id < |s.txs| && (s.txs[id].canPause && !s.txs[id].finalized ==> Answered(id, true) in s.log)
    ensures Follows(s, Conclude(s, id, failed))
  {
    var t := s.txs[id];
    if t.finalized {
      FollowsItself(s);
    } else {
      var s1 := s.(txs := s.txs[id := t.(finalized := true)]);
      FinalizeFollows(s, id);
      hide Follows, Run, AddStatement, Release;
      if Locking(t.request) {
        SendFollows(s1, id, if failed then Rollback else Commit);
      } else {
        ReleaseFollows(s1, id, if failed then PlainFailed else PlainOk);
      }
      FollowsOn(s, s1, Conclude(s, id, failed));
    }
  }

  lemma FinalizeFollows(s: State, id: nat)
    requires id < |s.txs| && (s.txs[id].canPause && !s.txs[id].finalized ==> Answered(id, true) in s.log)
    ensures Follows(s, s.(txs := s.txs[id := s.txs[id].(finalized := true)]))
  {
  }

  lemma SendFollows(s: State, id: nat, st: Statement)
    requires id < |s.txs|
    ensures Follows(s, Run(AddStatement(s, id, st), id))
  {
    hide Follows;
    OneFollows(s, Run(AddStatement(s, id, st), id), id);
  }

  lemma EndFollows(s: State, id: nat, onSuccess: bool, onError: bool)
    requires id < |s.txs|
    ensures Follows(s, DoEnd(s, id, onSuccess, onError))
  {
    var t := s.txs[id];
    if t.canPause {
      var s1 := s.(txs := s.txs[id := AfterEnd(t, onSuccess, onError)]);
      OneFollows(s, s1, id);
      hide Follows;
      ConcludeFollows(s1, id, false);
      RunFollows(s1, id);
      FollowsOn(s, s1, DoEnd(s, id, onSuccess, onError));
    } else {
      OneFollows(s, s, id);
    }
  }

  lemma RunFollows(s: State, id: nat)
    requires id < |s.txs|
    ensures Follows(s, Run(s, id)) && Follows(s, s)
  {
    OneFollows(s, Run(s, id), id);
  }

  lemma ExecuteSqlFollows(s: State, id: nat, st: Statement)
    requires id < |s.txs| && st.Sql?
    ensures Follows(s, DoExecuteSql(s, id, st))
  {
    hide Follows, Run;
    var s1 := AddStatement(s, id, st);
    var s2 := s1.(txs := s1.txs[id := s1.txs[id].(isPaused := false)]);
    OneFollows(s, s, id);
    OneFollows(s, s1, id);
    OneFollows(s, s2, id);
    RunFollows(s2, id);
    FollowsOn(s, s2, Run(s2, id));
  }

  lemma AbortFollows(s: State, id: nat, onError: bool)
    requires id < |s.txs|
    ensures Follows(s, DoAbort(s, id, onError))
  {
    hide Follows;
    OneFollows(s, DoAbort(s, id, onError), id);
  }

  lemma DatabaseCallFollows(s: State, a: Action)
    requires a.Enqueue? || a.Open?
    ensures Follows(s, Effect(s, a))
  {
    hide Opening;
  }

  lemma FollowsItself(s: State)
    ensures Follows(s, s)
  {
  }

  /** Closing and deleting, with the flags that they raise. */
  lemma CloseFollows(s: State, a: Action)
    requires a.Close? || a.Delete?
    ensures Follows(s, Act(s, a))
  {
    hide DoEnd, DoAbort, DoExecuteSql, NewTx;
  }

  lemma FlagsFollow(s: State, a: Action)
    requires Follows(s, Effect(s, a))
    ensures Follows(s, Act(s, a))
  {
    hide Effect, Unanswered, Untold, Extends;
  }

  lemma ActFollows(s: State, a: Action)
    ensures Follows(s, Act(s, a))
  {
    hide Effect, Follows, Act;
    if a.Close? || a.Delete? {
      CloseFollows(s, a);
    } else {
      EffectFollows(s, a);
      FlagsFollow(s, a);
    }
  }

  lemma EffectFollows(s: State, a: Action)
    requires !a.Close? && !a.Delete?
    ensures Follows(s, Effect(s, a))
  {
    hide Follows, DoEnd, DoAbort, DoExecuteSql;
    FollowsItself(s);
    match a
    case End(tx, ok, err) => if tx < |s.txs| { EndFollows(s, tx, ok, err); }
    case ExecuteSql(tx, text, params, ok, err) =>
      if tx < |s.txs| { ExecuteSqlFollows(s, tx, Sql(text, params, ok, err)); }
    case Abort(tx, err) => if tx < |s.txs| { AbortFollows(s, tx, err); }
    case _ => DatabaseCallFollows(s, a);
  }

  lemma {:induction false} PerformFollows(s: State, acts: seq<Action>)
    ensures Follows(s, Perform(s, acts))
    decreases |acts|
  {
    hide Act, Follows;
    if acts != [] {
      var s1 := Act(s, acts[0]);
      ActFollows(s, acts[0]);
      PerformFollows(s1, acts[1..]);
      FollowsOn(s, s1, Perform(s1, acts[1..]));
    } else {
      FollowsItself(s);
    }
  }

  lemma SettleFollows(s: State, id: nat, how: How, script: Script)
    requires id < |s.txs|
    ensures Follows(s, Settle(s, id, how, script).0)
  {
    hide Release, Perform, Follows;
    var s1 := Release(s, id, how);
    ReleaseFollows(s, id, how);
    PerformFollows(s1, script.acts);
    FollowsOn(s, s1, Perform(s1, script.acts));
  }

  lemma HandleFollows(s: State, id: nat, st: Statement, ok: bool, script: Script)
    requires id < |s.txs|
    ensures Follows(s, Handle(s, id, st, ok, script).0)
  {
    match st
    case Commit => SettleFollows(s, id, if ok then CommitOk else CommitFailed, script);
    case Rollback => SettleFollows(s, id, if ok then RollbackOk else RollbackFailed, script);
    case Sql(_, _, _, _) => PerformFollows(s, script.acts);
    case _ =>
  }

  lemma {:induction false} HandleFromFollows(s: State, id: nat, batch: seq<Statement>, results: seq<bool>,
                                             scripts: seq<Script>, i: nat, failure: Option<nat>)
    requires id < |s.txs| && i <= |batch|
    ensures Follows(s, HandleFrom(s, id, batch, results, scripts, i, failure).0)
    decreases |batch| - i
  {
    hide Handle, HandleFrom;
    if i < |batch| {
      HandleFromStep(s, id, batch, results, scripts, i, failure);
      var st, ok, script := batch[i], Nth(results, i, false), Nth(scripts, i, Quiet);
      HandleFollows(s, id, st, ok, script);
      var (s1, threw) := Handle(s, id, st, ok, script);
      var failure1 := if threw && failure.None? then Some(i) else failure;
      HandleFromFollows(s1, id, batch, results, scripts, i + 1, failure1);
      FollowsOn(s, s1, HandleFrom(s1, id, batch, results, scripts, i + 1, failure1).0);
    } else {
      HandleFromEnd(s, id, batch, results, scripts, failure);
    }
  }

  /** What is logged when the last handler of a batch has run. */
  function Verdict(s: State, id: nat, failed: bool): State
    requires id < |s.txs|
  {
    if s.txs[id].finalized then s else Logged(s, Answered(id, failed))
  }

  lemma VerdictProceeds(s: State, id: nat, failed: bool)
    requires id < |s.txs|
    ensures Proceeds(s, Verdict(s, id, failed))
  {
  }

  lemma CompleteFollows(s: State, id: nat, failed: bool, script: Script)
    requires id < |s.txs|
    ensures Follows(Verdict(s, id, failed), Complete(s, id, failed, script))
  {
    hide Conclude, Follows, Run;
    var t := s.txs[id];
    var s1 := Verdict(s, id, failed);
    if !failed && t.executes != [] {
      RunFollows(s1, id);
    } else if !failed && t.canPause {
      OneFollows(s1, Complete(s, id, failed, script), id);
    } else {
      assert failed && !t.finalized ==> s1.log[|s.log|] == Answered(id, true);
      ConcludeFollows(s1, id, failed);
      var s2 := Conclude(s1, id, failed);
      PerformFollows(s2, script.acts);
      FollowsOn(s1, s2, Perform(s2, script.acts));
    }
  }

  lemma CompleteProceeds(s: State, id: nat, failed: bool, script: Script)
    requires id < |s.txs|
    ensures Proceeds(s, Complete(s, id, failed, script))
  {
    hide Proceeds, Complete;
    CompleteFollows(s, id, failed, script);
    VerdictProceeds(s, id, failed);
    ProceedsOn(s, Verdict(s, id, failed), Complete(s, id, failed, script));
  }

  lemma ReplyProceeds(s: State, k: nat, results: seq<bool>, scripts: seq<Script>, last: Script)
    requires k < |s.wire| && s.wire[k].id < |s.txs|
    ensures Proceeds(s, Reply(s, k, results, scripts, last))
  {
    hide Complete, HandleFrom, Proceeds;
    var Outstanding(id, batch) := s.wire[k];
    var s1 := s.(wire := s.wire[..k] + s.wire[k + 1..]);
    WireProceeds(s, s1);
    HandleFromPersists(s1, id, batch, results, scripts, 0, None);
    HandleFromFollows(s1, id, batch, results, scripts, 0, None);
    var (s2, failure) := HandleFrom(s1, id, batch, results, scripts, 0, None);
    ProceedsOn(s, s1, s2);
    CompleteProceeds(s2, id, failure.Some?, last);
    ProceedsOn(s, s2, Complete(s2, id, failure.Some?, last));
  }

  lemma WireProceeds(s: State, s1: State)
    requires s1 == s.(wire := s1.wire)
    ensures Proceeds(s, s1)
  {
  }

  lemma StartFollows(s: State, id: nat, fn: Script, last: Script)
    requires id < |s.txs|
    ensures Follows(s, Start(s, id, fn, last))
  {
    hide Settle, Perform, Follows, Run;
    PerformPersists(s, fn.acts, id);
    if UserBody(s.txs[id].request) {
      var s1 := Perform(s, fn.acts);
      PerformFollows(s, fn.acts);
      SettleFollows(s1, id, FnThrew, last);
      FollowsOn(s, s1, Settle(s1, id, FnThrew, last).0);
      RunFollows(s1, id);
      FollowsOn(s, s1, Run(s1, id));
    } else {
      var s1 := Queued(s, id, PluginBody(s.txs[id].request));
      OneFollows(s, s1, id);
      RunFollows(s1, id);
      FollowsOn(s, s1, Run(s1, id));
    }
  }

  lemma {:induction false} AbortFromProceeds(s: State, ids: seq<nat>, scripts: seq<Script>, i: nat)
    requires i <= |ids|
    ensures var s1 := AbortFrom(s, ids, scripts, i).0; Proceeds(s, s1) && Unanswered(s.log, s1.log)
    decreases |ids| - i
  {
    hide Proceeds, AbortFrom, Perform, Unanswered, Untold;
    SameProceeds(s, s);
    if i == |ids| {
      AbortFromEnd(s, ids, scripts);
    } else {
      var script := Nth(scripts, i, Quiet);
      AbortFromStep(s, ids, scripts, i);
      var s0 := Logged(s, Told(ids[i]));
      SameProceeds(s, s0);
      PerformFollows(s0, script.acts);
      ProceedsThen(s, s0, Perform(s0, script.acts));
      var s1 := AbortOne(s, ids[i], script).0;
      AbortFromProceeds(s1, ids, scripts, i + 1);
      ProceedsThen(s, s1, AbortFrom(s1, ids, scripts, i + 1).0);
    }
  }

  lemma ProceedsThen(s: State, s1: State, s2: State)
    requires Proceeds(s, s1) && Proceeds(s1, s2) && Unanswered(s.log, s1.log) && Unanswered(s1.log, s2.log)
    ensures Proceeds(s, s2) && Unanswered(s.log, s2.log)
  {
    ProceedsOn(s, s1, s2);
    ProceedsExtends(s, s1);
    ProceedsExtends(s1, s2);
    UnansweredOn(s.log, s1.log, s2.log);
    hide Proceeds, Unanswered;
  }

  lemma EmptyQueueMoves(s: State, n: nat)
    ensures Moves(s, EmptyQueue(s, n)) && Unanswered(s.log, EmptyQueue(s, n).log)
    ensures Awaited(s) ==> Awaited(EmptyQueue(s, n))
    ensures s.rash ==> EmptyQueue(s, n).rash
    ensures !s.inProgress ==> Tame(s, EmptyQueue(s, n))
  {
  }

  /** Aborting the queue is tame, too, unless it takes the lock away from a running transaction. */
  lemma AbortAllMoves(s: State, scripts: seq<Script>)
    ensures Moves(s, AbortAll(s, scripts)) && Unanswered(s.log, AbortAll(s, scripts).log)
    ensures Awaited(s) ==> Awaited(AbortAll(s, scripts))
    ensures s.rash ==> AbortAll(s, scripts).rash
    ensures !s.inProgress ==> Tame(s, AbortAll(s, scripts))
  {
    hide AbortFrom, EmptyQueue, Excused, Awaited, Orderly, Extends, Unanswered;
    SameProceeds(s, s);
    if s.queue != [] {
      AbortFromProceeds(s, s.queue, scripts, 0);
      var (s1, threw) := AbortFrom(s, s.queue, scripts, 0);
      if !threw {
        EmptyQueueMoves(s1, |s.queue|);
        MovesOn(s, s1, EmptyQueue(s1, |s.queue|));
        UnansweredOn(s.log, s1.log, EmptyQueue(s1, |s.queue|).log);
      }
    }
  }

  lemma SameProceeds(s: State, s1: State)
    requires s1 == s.(log := s1.log) && (s1.log == s.log || exists id :: s1.log == s.log + [Told(id)])
    ensures Proceeds(s, s1) && Unanswered(s.log, s1.log)
  {
  }

  lemma OpenFailMoves(s: State, script: Script, scripts: seq<Script>)
    ensures Moves(s, OpenFail(s, script, scripts)) && Unanswered(s.log, OpenFail(s, script, scripts).log)
    ensures Awaited(s) && !script.outcome.Throws? ==> Awaited(OpenFail(s, script, scripts))
  {
    hide AbortAll, Perform, Excused, Extends, Unanswered, Tame;
    PerformFollows(s, script.acts);
    var s1 := Perform(s, script.acts);
    var s2 := if s1.opens == 0 then s1 else s1.(opens := s1.opens - 1);
    var s3 := s2.(db := NotOpen);
    SameMoves(s1, s2);
    SameMoves(s1, s3);
    MovesOn(s, s1, s2);
    MovesOn(s, s1, s3);
    AbortAllMoves(s3, scripts);
    MovesOn(s, s3, AbortAll(s3, scripts));
    UnansweredOn(s.log, s1.log, AbortAll(s3, scripts).log);
  }

  lemma SameMoves(s: State, s1: State)
    requires s1.txs == s.txs && s1.log == s.log
    ensures Moves(s, s1)
  {
  }
}
