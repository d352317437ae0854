/** Opening, closing and deleting: exactly when they cost the scheduler something. */
module Lifecycle {
  import opened Statements
  import opened Protocol
  import opened Scheduler
  import opened Invariant
  import opened Histories
  import opened Runs
  import opened Steps
  import opened Theorems

  // ---- what calls leave alone

  /** Only locking transactions can pause. */
  predicate Steady(s: State) {
    forall i: nat :: i < |s.txs| && s.txs[i].canPause ==> Locking(s.txs[i].request)
  }

  predicate OnlySends(log: seq<Entry>, log1: seq<Entry>) {
    log <= log1 && forall e :: e in log1[|log|..] ==> e.Sent?
  }

  /** The lock is in the same hands, the database has not become open, and at most batches have been sent. */
  predicate Calm(s: State, s1: State) {
    && Steady(s1) && OnlySends(s.log, s1.log)
    && s1.inProgress == s.inProgress
    && (s1.db.IsOpen? ==> s.db.IsOpen?)
  }

  lemma OnlySendsOn(a: seq<Entry>, b: seq<Entry>, c: seq<Entry>)
    requires OnlySends(a, b) && OnlySends(b, c)
    ensures OnlySends(a, c)
  {
    assert c[|a|..] == b[|a|..] + c[|b|..];
  }

  lemma CalmOn(s: State, s1: State, s2: State)
    requires Calm(s, s1) && Calm(s1, s2)
    ensures Calm(s, s2)
  {
    OnlySendsOn(s.log, s1.log, s2.log);
    hide OnlySends, Steady;
  }

  lemma LogSnoc(log: seq<Entry>, e: Entry)
    requires !e.Started? && !e.Released?
    ensures Starts(log + [e]) == Starts(log) && Releases(log + [e]) == Releases(log)
  {
    assert Front(log + [e]) == log;
  }

  lemma {:induction false} SendsKeepLock(log: seq<Entry>, log1: seq<Entry>)
    requires OnlySends(log, log1)
    ensures Starts(log1) == Starts(log) && Releases(log1) == Releases(log)
    decreases |log1|
  {
    if |log| < |log1| {
      var front := Front(log1);
      assert log1 == front + [Last(log1)] && log1[|log|..] == front[|log|..] + [Last(log1)];
      assert Last(log1) in log1[|log|..];
      SendsKeepLock(log, front);
      LogSnoc(front, Last(log1));
    } else {
      assert log1 == log;
    }
  }

  lemma RunCalm(s: State, id: nat)
    requires Steady(s) && id < |s.txs|
    ensures Calm(s, Run(s, id))
  {
  }

  lemma EndCalm(s: State, id: nat, onSuccess: bool, onError: bool)
    requires Steady(s) && id < |s.txs|
    ensures Calm(s, DoEnd(s, id, onSuccess, onError))
  {
    hide OnlySends, Run;
    OnlySendsNothing(s.log);
    var t := s.txs[id];
    if t.canPause {
      var s1 := s.(txs := s.txs[id := AfterEnd(t, onSuccess, onError)]);
      var s2 := AddStatement(s1.(txs := s1.txs[id := s1.txs[id].(finalized := true)]), id, Commit);
      RunCalm(s1, id);
      RunCalm(s2, id);
    }
  }

  lemma OnlySendsNothing(log: seq<Entry>)
    ensures OnlySends(log, log)
  {
  }

  lemma ExecuteSqlCalm(s: State, id: nat, st: Statement)
    requires Steady(s) && id < |s.txs| && st.Sql?
    ensures Calm(s, DoExecuteSql(s, id, st))
  {
    hide OnlySends, Run;
    OnlySendsNothing(s.log);
    var s1 := AddStatement(s, id, st);
    var s2 := s1.(txs := s1.txs[id := s1.txs[id].(isPaused := false)]);
    RunCalm(s2, id);
  }

  lemma AbortCalm(s: State, id: nat, onError: bool)
    requires Steady(s) && id < |s.txs|
    ensures Calm(s, DoAbort(s, id, onError))
  {
    hide OnlySends, Run;
    OnlySendsNothing(s.log);
    var t := s.txs[id];
    if t.canPause {
      RunCalm(AddStatement(s.(txs := s.txs[id := t.(canPause := false, isPaused := false, onError := onError)]), id,
        Invalid), id);
    }
  }

  lemma ActCalm(s: State, a: Action)
    requires Steady(s)
    ensures Calm(s, Act(s, a))
  {
    hide DoEnd, DoAbort, DoExecuteSql, OnlySends;
    OnlySendsNothing(s.log);
    match a
    case End(tx, ok, err) => if tx < |s.txs| { EndCalm(s, tx, ok, err); }
    case ExecuteSql(tx, text, params, ok, err) => if tx < |s.txs| { ExecuteSqlCalm(s, tx, Sql(text, params, ok, err)); }
    case Abort(tx, err) => if tx < |s.txs| { AbortCalm(s, tx, err); }
    case _ =>
  }

  lemma {:induction false} PerformCalm(s: State, acts: seq<Action>)
    requires Steady(s)
    ensures Calm(s, Perform(s, acts))
    decreases |acts|
  {
    hide Act, OnlySends;
    if acts != [] {
      ActCalm(s, acts[0]);
      PerformCalm(Act(s, acts[0]), acts[1..]);
      CalmOn(s, Act(s, acts[0]), Perform(s, acts));
    } else {
      OnlySendsNothing(s.log);
    }
  }

  lemma InvSteady(s: State)
    requires Inv(s)
    ensures Steady(s)
  {
    forall i: nat | i < |s.txs| && s.txs[i].canPause ensures Locking(s.txs[i].request) {
      assert TxOk(s.txs[i], i, Parse(s.log));
    }
  }

  // ---- exactly when a throwing open-success callback loses the wakeup

  predicate Noticed(a: Action) {
    a.Enqueue? || a.Close? || a.Delete?
  }

  /** Not open any more, or a tick is coming. */
  predicate Safe(s: State) {
    !s.db.IsOpen? || s.ticks > 0
  }

  lemma ConcludeTicks(s: State, id: nat, failed: bool)
    requires id < |s.txs|
    ensures Conclude(s, id, failed).ticks >= s.ticks && Conclude(s, id, failed).db == s.db
  {
  }

  lemma ActSafe(s: State, a: Action)
    requires Safe(s) || (!s.inProgress && Noticed(a))
    ensures Safe(Act(s, a))
  {
    if a.End? && a.tx < |s.txs| {
      var t := s.txs[a.tx];
      ConcludeTicks(s.(txs := s.txs[a.tx := AfterEnd(t, a.onSuccess, a.onError)]),
                    a.tx, false);
    }
  }

  lemma {:induction false} PerformSafe(s: State, acts: seq<Action>)
    requires Safe(s)
    ensures Safe(Perform(s, acts))
    decreases |acts|
  {
    if acts != [] {
      ActSafe(s, acts[0]);
      PerformSafe(Act(s, acts[0]), acts[1..]);
    }
  }

  /** With the lock free, a call that is not noticed leaves the scheduler's fields alone. */
  lemma UnnoticedAct(s: State, a: Action)
    requires Core(s) && !s.inProgress && s.db.IsOpen? && !Noticed(a)
    ensures var s1 := Act(s, a);
            s1.ticks == s.ticks && s1.queue == s.queue && s1.db == s.db && !s1.inProgress && |s1.txs| == |s.txs|
  {
    if a.End? && a.tx < |s.txs| {
      assert TxOk(s.txs[a.tx], a.tx, Parse(s.log));
    }
  }

  /** Running the callback's calls on an open, idle, silent scheduler. */
  lemma {:induction false} PerformIdle(s: State, acts: seq<Action>)
    requires Undisturbed(s) && !s.inProgress && s.db.IsOpen? && !Perform(s, acts).misuse
    ensures var s1 := Perform(s, acts);
            if exists a :: a in acts && Noticed(a) then Safe(s1)
            else s1.ticks == s.ticks && s1.queue == s.queue && s1.db == s.db && !s1.inProgress && |s1.txs| == |s.txs|
    decreases |acts|
  {
    if acts != [] {
      var s1 := Act(s, acts[0]);
      MisuseSticks(s1, acts[1..]);
      ActKeeps(s, acts[0]);
      assert acts == [acts[0]] + acts[1..];
      if Noticed(acts[0]) {
        ActSafe(s, acts[0]);
        PerformSafe(s1, acts[1..]);
      } else {
        UnnoticedAct(s, acts[0]);
        PerformIdle(s1, acts[1..]);
      }
    }
  }

  /** A throwing open-success callback loses the wakeup exactly when the database has not been closed meanwhile,
      the lock is free, transactions wait, no tick is pending, and the callback neither queues another one nor
      closes the database. */
  lemma WakeupIff(s: State, script: Script)
    requires Inv(s) && s.opens > 0 && script.outcome.Throws?
    requires !OpenOk(s.(opens := s.opens - 1), script).misuse
    ensures !Wakeful(OpenOk(s.(opens := s.opens - 1), script))
            <==> !s.db.NotOpen? && !s.inProgress && s.queue != [] && s.ticks == 0
                 && forall a :: a in script.acts ==> !Noticed(a)
  {
    hide Act;
    var s0 := s.(opens := s.opens - 1);
    var s1 := if s0.db.NotOpen? then s0 else s0.(db := IsOpen);
    assert Inv(s1) && OpenOk(s0, script) == Perform(s1, script.acts);
    InvSteady(s1);
    PerformCalm(s1, script.acts);
    if s1.db.IsOpen? && !s.inProgress {
      PerformIdle(s1, script.acts);
    }
  }

  // ---- exactly when a name is left opening for good

  /** No reply is due any more, `open` finds the name and does nothing, and no transaction starts. */
  predicate Stranded(s: State) {
    s.db.OpenPending? && s.opens == 0
  }

  predicate Closes(s: State, a: Action) {
    a.Delete? || (a.Close? && !s.inProgress)
  }

  /** What a call does to the open state. */
  lemma ActConnection(s: State, a: Action)
    ensures var s1 := Act(s, a);
            if Closes(s, a) then s1.db.NotOpen? && s1.opens == s.opens
            else if a.Open? && s.db.NotOpen? then s1.db.OpenPending? && s1.opens == s.opens + 1
            else s1.db == s.db && s1.opens == s.opens
  {
    hide DoEnd, DoAbort, DoExecuteSql, NewTx;
    match a
    case End(tx, ok, err) => if tx < |s.txs| { EndConnection(s, tx, ok, err); }
    case ExecuteSql(tx, text, params, ok, err) =>
      if tx < |s.txs| { ExecuteSqlConnection(s, tx, Sql(text, params, ok, err)); }
    case Abort(tx, err) => if tx < |s.txs| { AbortConnection(s, tx, err); }
    case _ =>
  }

  lemma EndConnection(s: State, tx: nat, onSuccess: bool, onError: bool)
    requires tx < |s.txs|
    ensures var s1 := DoEnd(s, tx, onSuccess, onError); s1.db == s.db && s1.opens == s.opens
  {
  }

  lemma ExecuteSqlConnection(s: State, tx: nat, st: Statement)
    requires tx < |s.txs| && st.Sql?
    ensures var s1 := DoExecuteSql(s, tx, st); s1.db == s.db && s1.opens == s.opens
  {
  }

  lemma AbortConnection(s: State, tx: nat, onError: bool)
    requires tx < |s.txs|
    ensures var s1 := DoAbort(s, tx, onError); s1.db == s.db && s1.opens == s.opens
  {
  }

  /** After a close the name is gone, or a new request to open it is pending. */
  predicate Reopens(s: State, opens: nat) {
    !s.db.IsOpen? && s.opens >= opens && (s.db.OpenPending? ==> s.opens > opens)
  }

  lemma {:induction false} PerformReopens(s: State, acts: seq<Action>, opens: nat)
    requires Reopens(s, opens)
    ensures Reopens(Perform(s, acts), opens)
    decreases |acts|
  {
    hide Act;
    if acts != [] {
      ActConnection(s, acts[0]);
      PerformReopens(Act(s, acts[0]), acts[1..], opens);
    }
  }

  lemma {:induction false} PerformOpening(s: State, acts: seq<Action>)
    requires Steady(s) && s.db.OpenPending?
    ensures var s1 := Perform(s, acts);
            if exists a :: a in acts && Closes(s, a) then Reopens(s1, s.opens)
            else s1.db.OpenPending? && s1.opens == s.opens
    decreases |acts|
  {
    hide Act;
    if acts != [] {
      var s1 := Act(s, acts[0]);
      ActConnection(s, acts[0]);
      ActCalm(s, acts[0]);
      assert acts == [acts[0]] + acts[1..];
      assert forall a :: Closes(s, a) <==> Closes(s1, a);
      if Closes(s, acts[0]) {
        PerformReopens(s1, acts[1..], s.opens);
      } else {
        PerformOpening(s1, acts[1..]);
      }
    }
  }

  /** A name is stranded exactly by an open failure whose callback throws, if no other reply is due, the database is
      still marked as opening, and the callback has not closed it. */
  lemma StrandedIff(s: State, e: Event)
    requires Inv(s) && Awaited(s)
    ensures Stranded(Step(s, e))
            <==> e.OpenFails? && e.script.outcome.Throws? && s.opens == 1 && s.db.OpenPending?
                 && forall a :: a in e.script.acts ==> !Closes(s, a)
  {
    hide Act, Tick, Reply, OpenOk, OpenFail, Closes;
    if e.OpenFails? && s.opens > 0 {
      if e.script.outcome.Throws? {
        StrandedByThrow(s, e.script, e.aborts);
      } else {
        OpenFailMoves(s, e.script, e.aborts);
      }
    } else {
      StepAwaited(s, e);
    }
  }

  lemma StrandedByThrow(s: State, script: Script, aborts: seq<Script>)
    requires Inv(s) && s.opens > 0 && script.outcome.Throws?
    ensures Stranded(OpenFail(s, script, aborts))
            <==> s.opens == 1 && s.db.OpenPending? && forall a :: a in script.acts ==> !Closes(s, a)
  {
    hide Closes, Perform;
    InvSteady(s);
    OpensGrow(s, script.acts);
    if s.db.OpenPending? {
      PerformOpening(s, script.acts);
    } else if s.db.NotOpen? {
      PerformReopens(s, script.acts, s.opens);
    } else {
      PerformWhileOpen(s, script.acts);
    }
  }

  /** An open database stays open, or is closed; opening it again takes a new request. */
  lemma {:induction false} PerformWhileOpen(s: State, acts: seq<Action>)
    requires s.db.IsOpen?
    ensures Perform(s, acts).db.IsOpen? || Reopens(Perform(s, acts), s.opens)
    decreases |acts|
  {
    if acts != [] {
      var s1 := Act(s, acts[0]);
      ActConnection(s, acts[0]);
      if s1.db.IsOpen? {
        PerformWhileOpen(s1, acts[1..]);
      } else {
        PerformReopens(s1, acts[1..], s.opens);
      }
    }
  }

  lemma StepAwaited(s: State, e: Event)
    requires Awaited(s) && (e.OpenFails? ==> s.opens == 0)
    ensures Awaited(Step(s, e))
  {
    hide Act, Reply, Perform, Moves, Start;
    match e
    case Call(a) => ActFollows(s, a);
    case TickRuns(fn, last) =>
      if s.ticks > 0 {
        var s1 := s.(ticks := s.ticks - 1);
        if CanStart(s1) { StartFollows(Shift(s1), s1.queue[0], fn, last); }
      }
    case BatchReply(k, results, scripts, last) =>
      if k < |s.wire| && s.wire[k].id < |s.txs| { ReplyProceeds(s, k, results, scripts, last); }
    case OpenSucceeds(script) =>
      if s.opens > 0 {
        var s1 := s.(opens := s.opens - 1);
        PerformFollows(if s1.db.NotOpen? then s1 else s1.(db := IsOpen), script.acts);
      }
    case OpenFails(_, _) =>
  }

  // ---- exactly when a running transaction loses its database

  /** While a transaction runs, a callback takes the database away exactly if it deletes it. */
  lemma {:induction false} PerformDeletes(s: State, acts: seq<Action>)
    requires Steady(s) && s.inProgress && s.db.IsOpen?
    ensures Perform(s, acts).db.IsOpen? <==> Delete !in acts
    decreases |acts|
  {
    hide Act;
    if acts != [] {
      var s1 := Act(s, acts[0]);
      ActConnection(s, acts[0]);
      ActCalm(s, acts[0]);
      if acts[0].Delete? {
        PerformCalm(s1, acts[1..]);
      } else {
        PerformDeletes(s1, acts[1..]);
      }
    }
  }

  /** A handler of the rest of a batch deletes the database. */
  predicate HandlerDeletes(batch: seq<Statement>, results: seq<bool>, scripts: seq<Script>, i: nat) {
    exists j: nat :: i <= j < |batch| && Handled(batch[j], Nth(results, j, false))
      && Delete in Nth(scripts, j, Quiet).acts
  }

  lemma HandleCalm(s: State, id: nat, st: Statement, ok: bool, script: Script)
    requires Steady(s) && id < |s.txs| && !Settles(st)
    ensures Calm(s, Handle(s, id, st, ok, script).0)
    ensures s.inProgress && s.db.IsOpen? ==>
              (Handle(s, id, st, ok, script).0.db.IsOpen? <==> !(Handled(st, ok) && Delete in script.acts))
  {
    hide Perform, OnlySends;
    OnlySendsNothing(s.log);
    PerformCalm(s, script.acts);
    if s.inProgress && s.db.IsOpen? {
      PerformDeletes(s, script.acts);
    }
  }

  lemma {:induction false} HandlersDelete(s: State, id: nat, batch: seq<Statement>, results: seq<bool>,
                                          scripts: seq<Script>, i: nat, failure: Option<nat>)
    requires Steady(s) && id < |s.txs| && i <= |batch| && forall j :: i <= j < |batch| ==> !Settles(batch[j])
    ensures var s1 := HandleFrom(s, id, batch, results, scripts, i, failure).0;
            && Steady(s1) && s1.inProgress == s.inProgress && (s1.db.IsOpen? ==> s.db.IsOpen?)
            && (s.inProgress && s.db.IsOpen? ==> (s1.db.IsOpen? <==> !HandlerDeletes(batch, results, scripts, i)))
    decreases |batch| - i
  {
    hide Handle, HandleFrom;
    if i < |batch| {
      var st, ok, script := batch[i], Nth(results, i, false), Nth(scripts, i, Quiet);
      HandleFromStep(s, id, batch, results, scripts, i, failure);
      HandleCalm(s, id, st, ok, script);
      var (s1, threw) := Handle(s, id, st, ok, script);
      HandlersDelete(s1, id, batch, results, scripts, i + 1, if threw && failure.None? then Some(i) else failure);
    } else {
      HandleFromEnd(s, id, batch, results, scripts, failure);
    }
  }

  /** What happens at the end of a batch leaves the database of a transaction that goes on. */
  lemma CompleteOpen(s: State, id: nat, failed: bool, script: Script)
    requires id < |s.txs|
    ensures Complete(s, id, failed, script).inProgress ==> Complete(s, id, failed, script).db == s.db && s.inProgress
  {
    var s1 := Conclude(Verdict(s, id, failed), id, failed);
    PerformFollows(s1, script.acts);
    ConcludeOpen(Verdict(s, id, failed), id, failed);
    hide Conclude, Perform;
  }

  lemma ConcludeOpen(s: State, id: nat, failed: bool)
    requires id < |s.txs|
    ensures Conclude(s, id, failed).db == s.db && (Conclude(s, id, failed).inProgress ==> s.inProgress)
    ensures !Locking(s.txs[id].request) && !s.txs[id].finalized ==> !Conclude(s, id, failed).inProgress
  {
  }

  /** The calls and failures that take the database away from a transaction that goes on running. */
  predicate Drops(s: State, e: Event) {
    match e
    case Call(a) => a.Delete?
    case TickRuns(_, _) => false
    case BatchReply(k, results, scripts, _) =>
      k < |s.wire| && s.wire[k].id < |s.txs| && HandlerDeletes(s.wire[k].batch, results, scripts, 0)
    case OpenSucceeds(script) => s.opens > 0 && Delete in script.acts
    case OpenFails(script, _) => s.opens > 0 && (!script.outcome.Throws? || Delete in script.acts)
  }

  lemma ReplyDrops(s: State, k: nat, results: seq<bool>, scripts: seq<Script>, last: Script)
    requires Inv(s) && s.inProgress && s.db.IsOpen? && k < |s.wire| && s.wire[k].id < |s.txs|
    requires var s1 := Reply(s, k, results, scripts, last); !s1.misuse && s1.inProgress
    ensures Reply(s, k, results, scripts, last).db.IsOpen? <==> !HandlerDeletes(s.wire[k].batch, results, scripts, 0)
  {
    var Outstanding(id, batch) := s.wire[k];
    var s1 := s.(wire := s.wire[..k] + s.wire[k + 1..]);
    InvSteady(s);
    BusyBatch(s.log);
    HandleFromPersists(s1, id, batch, results, scripts, 0, None);
    var (s2, failure) := HandleFrom(s1, id, batch, results, scripts, 0, None);
    CompleteOpen(s2, id, failure.Some?, last);
    CompletePersists(s2, id, failure.Some?, last);
    if SettlesBatch(batch) {
      HandleSettlingFrom(s1, id, batch, results, scripts, 0, None, Parse(s.log).stage.request);
      assert false;
    } else {
      assert forall j :: 0 <= j < |batch| ==> !Settles(batch[j]);
      HandlersDelete(s1, id, batch, results, scripts, 0, None);
    }
  }

  lemma {:induction false} AbortFromStaysClosed(s: State, ids: seq<nat>, scripts: seq<Script>, i: nat)
    requires i <= |ids| && Steady(s)
    ensures var s1 := AbortFrom(s, ids, scripts, i).0;
            Steady(s1) && s1.inProgress == s.inProgress && (s1.db.IsOpen? ==> s.db.IsOpen?)
    decreases |ids| - i
  {
    hide AbortFrom, Perform;
    if i == |ids| {
      AbortFromEnd(s, ids, scripts);
    } else {
      var script := Nth(scripts, i, Quiet);
      AbortFromStep(s, ids, scripts, i);
      PerformCalm(Logged(s, Told(ids[i])), script.acts);
      AbortFromStaysClosed(AbortOne(s, ids[i], script).0, ids, scripts, i + 1);
    }
  }

  lemma OpenFailDrops(s: State, script: Script, aborts: seq<Script>)
    requires Inv(s) && s.inProgress && s.db.IsOpen? && s.opens > 0
    ensures OpenFail(s, script, aborts).db.IsOpen? <==> script.outcome.Throws? && Delete !in script.acts
  {
    hide Perform, AbortFrom, Removals, Inv;
    InvSteady(s);
    PerformDeletes(s, script.acts);
    PerformCalm(s, script.acts);
    OpensGrow(s, script.acts);
    var s1 := Perform(s, script.acts);
    var s2 := s1.(opens := s1.opens - 1, db := NotOpen);
    AbortFromStaysClosed(s2, s2.queue, aborts, 0);
  }

  /** A transaction that goes on running loses its database exactly if a call made in the step is a delete, or an open
      that was still pending fails and its callback returns. */
  lemma DropsIff(s: State, e: Event)
    requires Inv(s) && s.inProgress && s.db.IsOpen? && !Step(s, e).misuse && Step(s, e).inProgress
    ensures !Step(s, e).db.IsOpen? <==> Drops(s, e)
  {
    hide Inv, Tick, Reply, OpenFail, Perform, Act, HandlerDeletes;
    InvSteady(s);
    match e
    case Call(a) => ActConnection(s, a);
    case TickRuns(fn, last) => TickWhileRunning(s, fn, last);
    case BatchReply(k, results, scripts, last) =>
      if k < |s.wire| && s.wire[k].id < |s.txs| { ReplyDrops(s, k, results, scripts, last); }
    case OpenSucceeds(script) => if s.opens > 0 { PerformDeletes(s.(opens := s.opens - 1), script.acts); }
    case OpenFails(script, aborts) => if s.opens > 0 { OpenFailDrops(s, script, aborts); }
  }

  lemma TickWhileRunning(s: State, fn: Script, last: Script)
    requires s.inProgress
    ensures Tick(s, fn, last).db == s.db
  {
  }

  // ---- rules of use that a caller can keep

  lemma StepCareful(s: State, e: Event)
    requires Orderly(s)
    ensures s.rash ==> Step(s, e).rash
    ensures !Step(s, e).rash ==> Orderly(Step(s, e)) && Step(s, e).misuse == s.misuse
  {
    hide Moves, Awaited, Act, Reply, Perform, Start, AbortAll;
    match e
    case Call(a) => ActFollows(s, a);
    case TickRuns(fn, last) =>
      if s.ticks > 0 {
        var s1 := s.(ticks := s.ticks - 1);
        if CanStart(s1) { StartFollows(Shift(s1), s1.queue[0], fn, last); }
      }
    case BatchReply(k, results, scripts, last) =>
      if k < |s.wire| && s.wire[k].id < |s.txs| { ReplyProceeds(s, k, results, scripts, last); }
    case OpenSucceeds(script) =>
      if s.opens > 0 { PerformFollows(s.(opens := s.opens - 1, db := IsOpen), script.acts); }
    case OpenFails(script, aborts) =>
      if s.opens > 0 {
        PerformFollows(s, script.acts);
        OpensGrow(s, script.acts);
        var s1 := Perform(s, script.acts);
        AbortAllMoves(s1.(opens := s1.opens - 1, db := NotOpen), aborts);
      }
  }

  lemma StepRash(s: State, e: Event)
    ensures s.rash ==> Step(s, e).rash
  {
    hide Moves, Awaited, Orderly, Act, Reply, Perform, Start, AbortAll;
    match e
    case Call(a) => ActFollows(s, a);
    case TickRuns(fn, last) =>
      if s.ticks > 0 {
        var s1 := s.(ticks := s.ticks - 1);
        if CanStart(s1) { StartFollows(Shift(s1), s1.queue[0], fn, last); }
      }
    case BatchReply(k, results, scripts, last) =>
      if k < |s.wire| && s.wire[k].id < |s.txs| { ReplyProceeds(s, k, results, scripts, last); }
    case OpenSucceeds(script) =>
      if s.opens > 0 {
        var s1 := s.(opens := s.opens - 1);
        PerformFollows(if s1.db.NotOpen? then s1 else s1.(db := IsOpen), script.acts);
      }
    case OpenFails(script, aborts) =>
      if s.opens > 0 {
        PerformFollows(s, script.acts);
        var s1 := Perform(s, script.acts);
        var s2 := if s1.opens == 0 then s1 else s1.(opens := s1.opens - 1);
        AbortAllMoves(s2.(db := NotOpen), aborts);
      }
  }

  lemma {:induction false} RunCareful(s: State, events: seq<Event>)
    requires s.rash || (Orderly(s) && !s.misuse)
    ensures var s1 := RunFrom(s, events); s1.rash || (Orderly(s1) && !s1.misuse)
    decreases |events|
  {
    hide Step, Orderly;
    if events != [] {
      StepRash(s, events[0]);
      if !s.rash {
        StepCareful(s, events[0]);
      }
      RunCareful(Step(s, events[0]), events[1..]);
    }
  }

  /** Rules that a caller can keep suffice: no close or delete while an open is unanswered, no delete while a
      transaction runs, no `abort` of a failed multi-part transaction.  Then the invariant holds, at most one reply to
      an open is due and only while nothing runs, so that no open failure ever meets a running transaction; and batches
      are sent to, and transactions run on, open databases only. */
  lemma CarefulRun(events: seq<Event>)
    requires !After(events).rash
    ensures var s := After(events);
            && !s.misuse && Inv(s)
            && s.opens <= 1 && (s.opens == 1 ==> s.db.OpenPending? && !s.inProgress)
            && (s.inProgress ==> s.db.IsOpen?) && (s.wire != [] ==> s.db.IsOpen?)
  {
    RunCareful(Initial, events);
    EveryRun(events);
  }
}
