/** What a start and a reply do, written out: the calls made, the batch sent, the release, the callback. */
module Transitions {
  import opened Statements
  import opened Protocol
  import opened Scheduler
  import opened Invariant
  import opened Histories
  import opened Runs
  import opened Theorems

  // ---- the pieces

  /** A batch handed to native code; the transaction object is `t` from now on. */
  function HandedOver(s: State, id: nat, t: Tx, b: seq<Statement>): State
    requires id < |s.txs|
  {
    s.(txs := s.txs[id := t], wire := s.wire + [Outstanding(id, b)], log := s.log + [Sent(id, b)])
  }

  /** The lock given back, a tick for the next transaction, and the callback's entry if there is a callback to run. */
  function Unlocked(s: State, id: nat, how: How, called: bool): State {
    var ok := how == CommitOk || how == PlainOk;
    s.(inProgress := false, ticks := s.ticks + 1,
       log := s.log + (if called then [Released(id, how), Final(id, ok)] else [Released(id, how)]))
  }

  /** The calls of one statement's handler; only statements of the application have handlers that call. */
  function CallsOf(st: Statement, ok: bool, script: Script): seq<Action> {
    match st
    case Sql(_, _, onSuccess, onError) => if (ok && onSuccess) || (!ok && onError) then script.acts else []
    case _ => []
  }

  /** The calls of the handlers of statements `i` to `n - 1`, in order. */
  function HandledCalls(batch: seq<Statement>, results: seq<bool>, scripts: seq<Script>, i: nat, n: nat): seq<Action>
    requires i <= n <= |batch|
    decreases n - i
  {
    if i == n then []
    else CallsOf(batch[i], Nth(results, i, false), Nth(scripts, i, Quiet))
         + HandledCalls(batch, results, scripts, i + 1, n)
  }

  /** One of the statements `i` to `n - 1` fails for good. */
  predicate SomeFails(batch: seq<Statement>, results: seq<bool>, scripts: seq<Script>, i: nat, n: nat)
    requires n <= |batch|
  {
    exists j: nat :: i <= j < n && FailsIn(batch, results, scripts, j)
  }

  lemma {:induction false} PerformSplit(s: State, a: seq<Action>, b: seq<Action>)
    ensures Perform(s, a + b) == Perform(Perform(s, a), b)
    decreases |a|
  {
    if a == [] {
      assert a + b == b;
    } else {
      assert (a + b)[1..] == a[1..] + b;
      PerformSplit(Act(s, a[0]), a[1..], b);
    }
  }

  lemma HandlerCalls(s: State, id: nat, st: Statement, ok: bool, script: Script)
    requires id < |s.txs| && !Settles(st)
    ensures Handle(s, id, st, ok, script) == (Perform(s, CallsOf(st, ok, script)), FailsAt(st, ok, script))
  {
    assert Perform(s, []) == s;
  }

  /** The handlers of statements that do not settle: their calls in order, whatever fails on the way. */
  lemma {:induction false} HandlersAreCalls(s: State, id: nat, batch: seq<Statement>, results: seq<bool>,
                                            scripts: seq<Script>, i: nat, n: nat, failure: Option<nat>)
    returns (failure1: Option<nat>)
    requires id < |s.txs| && i <= n <= |batch|
    requires forall j: nat :: i <= j < n ==> !Settles(batch[j])
    ensures var s1 := Perform(s, HandledCalls(batch, results, scripts, i, n));
            id < |s1.txs| && s1.txs[id].request == s.txs[id].request
            && HandleFrom(s, id, batch, results, scripts, i, failure)
               == HandleFrom(s1, id, batch, results, scripts, n, failure1)
    ensures failure1.Some? <==> failure.Some? || SomeFails(batch, results, scripts, i, n)
    decreases n - i
  {
    hide Handle, HandleFrom, FailsIn, CallsOf, SomeFails, Perform, HandledCalls, FailsAt;
    failure1 := failure;
    if i < n {
      var st, ok, script := batch[i], Nth(results, i, false), Nth(scripts, i, Quiet);
      var calls := CallsOf(st, ok, script);
      var more := HandledCalls(batch, results, scripts, i + 1, n);
      HandlerCalls(s, id, st, ok, script);
      HandleFromStep(s, id, batch, results, scripts, i, failure);
      PerformPersists(s, calls, id);
      var next := if FailsAt(st, ok, script) && failure.None? then Some(i) else failure;
      failure1 := HandlersAreCalls(Perform(s, calls), id, batch, results, scripts, i + 1, n, next);
      PerformSplit(s, calls, more);
      SomeFailsStep(batch, results, scripts, i, n);
      HandledCallsStep(batch, results, scripts, i, n);
      PerformPersists(s, calls + more, id);
    } else {
      NothingHandled(s, batch, results, scripts, n);
    }
  }

  lemma NothingHandled(s: State, batch: seq<Statement>, results: seq<bool>, scripts: seq<Script>, n: nat)
    requires n <= |batch|
    ensures Perform(s, HandledCalls(batch, results, scripts, n, n)) == s
    ensures !SomeFails(batch, results, scripts, n, n)
  {
  }

  lemma HandledCallsStep(batch: seq<Statement>, results: seq<bool>, scripts: seq<Script>, i: nat, n: nat)
    requires i < n <= |batch|
    ensures HandledCalls(batch, results, scripts, i, n)
            == CallsOf(batch[i], Nth(results, i, false), Nth(scripts, i, Quiet))
               + HandledCalls(batch, results, scripts, i + 1, n)
  {
  }

  lemma SomeFailsStep(batch: seq<Statement>, results: seq<bool>, scripts: seq<Script>, i: nat, n: nat)
    requires i < n <= |batch|
    ensures SomeFails(batch, results, scripts, i, n)
            <==> FailsAt(batch[i], Nth(results, i, false), Nth(scripts, i, Quiet))
                 || SomeFails(batch, results, scripts, i + 1, n)
  {
    assert FailsIn(batch, results, scripts, i) == FailsAt(batch[i], Nth(results, i, false), Nth(scripts, i, Quiet));
  }

  // ---- the reply to a batch that does not settle

  /** Nothing more is to come: COMMIT or, with all pending statements, ROLLBACK; a plain transaction is released. */
  function Concluding(s: State, id: nat, failed: bool): State
    requires id < |s.txs|
  {
    var t := s.txs[id];
    if t.request.Transaction? || t.request.Batch? || t.request.MultiPart? then
      HandedOver(s, id, t.(finalized := true, executes := []), t.executes + (if failed then [Rollback] else [Commit]))
    else
      Unlocked(s.(txs := s.txs[id := t.(finalized := true)]), id, if failed then PlainFailed else PlainOk,
               if failed then t.onError else t.onSuccess)
  }

  lemma ConcludedExactly(s: State, id: nat, failed: bool)
    requires id < |s.txs|
    ensures Conclude(s, id, failed) == if s.txs[id].finalized then s else Concluding(s, id, failed)
  {
    var t := s.txs[id];
    if !t.finalized {
      if Locking(t.request) {
        Concluded(s, id, failed);
        hide Conclude;
      } else {
        ConcludedPlain(s, id, failed);
        hide Conclude, Unlocked;
      }
    }
  }

  /** What becomes of transaction `id`, answered in `s`: the next batch, a pause, or the conclusion, with the callback
      of a plain transaction. */
  function Answering(s: State, id: nat, failed: bool, last: Script): State
    requires id < |s.txs|
  {
    var t := s.txs[id];
    var s1 := s.(log := s.log + [Answered(id, failed)]);
    if !failed && t.executes != [] then HandedOver(s1, id, t.(executes := []), t.executes)
    else if !failed && t.canPause then s1.(txs := s1.txs[id := t.(isPaused := true)])
    else
      var s2 := Concluding(s1, id, failed);
      var called := (t.request.Single? || t.request.ReadTransaction?) && if failed then t.onError else t.onSuccess;
      if called then Perform(s2, last.acts) else s2
  }

  lemma CompleteExactly(s: State, id: nat, failed: bool, last: Script)
    requires id < |s.txs| && !s.txs[id].finalized
    ensures Complete(s, id, failed, last) == Answering(s, id, failed, last)
  {
    hide Conclude, Concluding, Perform;
    ConcludedExactly(Logged(s, Answered(id, failed)), id, failed);
  }

  lemma ConcludedPlain(s: State, id: nat, failed: bool)
    requires id < |s.txs| && !s.txs[id].finalized && !Locking(s.txs[id].request)
    ensures var t := s.txs[id];
            Conclude(s, id, failed)
            == Unlocked(s.(txs := s.txs[id := t.(finalized := true)]), id, if failed then PlainFailed else PlainOk,
                        if failed then t.onError else t.onSuccess)
  {
    var t := s.txs[id];
    var how := if failed then PlainFailed else PlainOk;
    ReleasedExactly(s.(txs := s.txs[id := t.(finalized := true)]), id, how);
  }

  /** A release, written out. */
  lemma ReleasedExactly(s: State, id: nat, how: How)
    requires id < |s.txs|
    ensures Release(s, id, how)
            == Unlocked(s, id, how, if how == CommitOk
              || how == PlainOk then s.txs[id].onSuccess else s.txs[id].onError)
  {
    var ok := Succeeds(how);
    assert s.log + [Released(id, how)] + [Final(id, ok)] == s.log + [Released(id, how), Final(id, ok)];
  }

  /** The holder's batch is answered: its handlers run, in order and each for its own result, and then the transaction
      goes on, pauses or ends, exactly once. */
  lemma PlainReply(s: State, k: nat, results: seq<bool>, scripts: seq<Script>, last: Script)
    requires Inv(s) && k < |s.wire| && s.wire[k].id < |s.txs| && !SettlesBatch(s.wire[k].batch)
    ensures var Outstanding(id, batch) := s.wire[k];
            var s1 := Perform(s.(wire := []), HandledCalls(batch, results, scripts, 0, |batch|));
            var after := Reply(s, k, results, scripts, last);
            after.misuse
            || (id < |s1.txs| && after == Answering(s1, id, SomeFails(batch, results, scripts, 0, |batch|), last))
  {
    hide HandleFrom, Complete, Answering, SomeFails, HandledCalls, Perform, Inv, Undisturbed, FailsIn;
    var Outstanding(id, batch) := s.wire[k];
    var s0 := s.(wire := []);
    TakenOff(s, k);
    HandleFromPersists(s0, id, batch, results, scripts, 0, None);
    var failure := HandlersAreCalls(s0, id, batch, results, scripts, 0, |batch|, None);
    var calls := HandledCalls(batch, results, scripts, 0, |batch|);
    var s1 := Perform(s0, calls);
    HandleFromEnd(s1, id, batch, results, scripts, failure);
    PerformKeeps(s0, calls);
    CompletePersists(s1, id, failure.Some?, last);
    if !s1.misuse {
      StillLive(s0, s1, id);
      CompleteExactly(s1, id, failure.Some?, last);
    }
  }

  /** The one outstanding batch is the holder's. */
  lemma TakenOff(s: State, k: nat)
    requires Inv(s) && k < |s.wire|
    ensures var Outstanding(id, batch) := s.wire[k]; var p := Parse(s.log); var s0 := s.(wire := []);
            && s0 == s.(wire := s.wire[..k] + s.wire[k + 1..]) && Undisturbed(s0)
            && p.At? && p.stage.Busy? && p.stage.id == id && p.stage.batch == batch && batch != []
            && forall j: nat :: j < |batch| - 1 ==> !Settles(batch[j])
  {
    BusyBatch(s.log);
  }

  lemma StillLive(s: State, s1: State, id: nat)
    requires Accepted(s.log) && Parse(s.log).stage.Busy? && Parse(s.log).stage.id == id
    requires !SettlesBatch(Parse(s.log).stage.batch) && Silent(s, s1) && !s1.misuse && id < |s1.txs|
    ensures !s1.txs[id].finalized
  {
    assert TxOk(s1.txs[id], id, Parse(s.log));
  }

  // ---- the reply to a batch that ends in COMMIT or ROLLBACK

  function SettledBy(st: Statement, ok: bool): How {
    if st.Commit? then (if ok then CommitOk else CommitFailed) else if ok then RollbackOk else RollbackFailed
  }

  /** The success callback is for a COMMIT that has succeeded, and for nothing else. */
  predicate CalledBack(t: Tx, st: Statement, ok: bool) {
    if st.Commit? && ok then t.onSuccess else t.onError
  }

  /** The lock is given back first; then the callback runs, if there is one. */
  function Settling(s: State, id: nat, st: Statement, ok: bool, script: Script): State
    requires id < |s.txs|
  {
    var called := CalledBack(s.txs[id], st, ok);
    var s1 := Unlocked(s, id, SettledBy(st, ok), called);
    if called then Perform(s1, script.acts) else s1
  }

  lemma HandleSettling(s: State, id: nat, st: Statement, ok: bool, script: Script)
    requires id < |s.txs| && Settles(st)
    ensures Handle(s, id, st, ok, script)
            == (Settling(s, id, st, ok, script), !ok || (CalledBack(s.txs[id], st, ok) && script.outcome.Throws?))
  {
    hide Perform, Release, Unlocked;
    ReleasedExactly(s, id, SettledBy(st, ok));
  }

  /** Any handler. */
  lemma HandleExactly(s: State, id: nat, st: Statement, ok: bool, script: Script)
    requires id < |s.txs|
    ensures Handle(s, id, st, ok, script).0
            == if Settles(st) then Settling(s, id, st, ok, script) else Perform(s, CallsOf(st, ok, script))
  {
    hide Handle, Perform, Settling;
    if Settles(st) {
      HandleSettling(s, id, st, ok, script);
    } else {
      HandlerCalls(s, id, st, ok, script);
    }
  }

  /** The transaction is over; if it can still pause, and nothing has failed, it is marked as paused. */
  function Over(s: State, id: nat, failed: bool): State
    requires id < |s.txs|
  {
    if s.txs[id].canPause && !failed then s.(txs := s.txs[id := s.txs[id].(isPaused := true)]) else s
  }

  lemma CompleteOver(s: State, id: nat, failed: bool, last: Script)
    requires id < |s.txs| && s.txs[id].finalized && s.txs[id].executes == [] && Locking(s.txs[id].request)
    ensures Complete(s, id, failed, last) == Over(s, id, failed)
  {
  }

  /** The holder's last batch is answered: the handlers of the statements before, then the release by COMMIT or
      ROLLBACK, as it was answered, and the final callback with all its calls, if there is one. */
  lemma SettlingReply(s: State, k: nat, results: seq<bool>, scripts: seq<Script>, last: Script)
    requires Inv(s) && k < |s.wire| && s.wire[k].id < |s.txs| && SettlesBatch(s.wire[k].batch)
    ensures var Outstanding(id, batch) := s.wire[k];
            var n := |batch| - 1;
            var s1 := Perform(s.(wire := []), HandledCalls(batch, results, scripts, 0, n));
            var ok, script := Nth(results, n, false), Nth(scripts, n, Quiet);
            && id < |s1.txs|
            && var s2 := Settling(s1, id, batch[n], ok, script);
               var failed := || !ok || (CalledBack(s1.txs[id], batch[n], ok) && script.outcome.Throws?)
                             || SomeFails(batch, results, scripts, 0, n);
               var after := Reply(s, k, results, scripts, last);
               after.misuse || (!s2.misuse && id < |s2.txs| && after == Over(s2, id, failed))
  {
    hide HandleFrom, Complete, Settling, SomeFails, HandledCalls, Perform, Inv, Undisturbed, FailsIn, Handle;
    var Outstanding(id, batch) := s.wire[k];
    var n := |batch| - 1;
    var s0 := s.(wire := []);
    TakenOff(s, k);
    HandleFromPersists(s0, id, batch, results, scripts, 0, None);
    var failure := HandlersAreCalls(s0, id, batch, results, scripts, 0, n, None);
    var s1 := Perform(s0, HandledCalls(batch, results, scripts, 0, n));
    HandleFromStep(s1, id, batch, results, scripts, n, failure);
    HandleSettling(s1, id, batch[n], Nth(results, n, false), Nth(scripts, n, Quiet));
    var (s2, threw) := Handle(s1, id, batch[n], Nth(results, n, false), Nth(scripts, n, Quiet));
    HandleFromEnd(s2, id, batch, results, scripts, if threw && failure.None? then Some(n) else failure);
    var failed := threw || failure.Some?;
    CompletePersists(s2, id, failed, last);
    SettlesOnlyLocking(s.log);
    HandleSettlingFrom(s0, id, batch, results, scripts, 0, None, Parse(s.log).stage.request);
    if !s2.misuse {
      SettlingHolder(s, id);
      NothingLeft(s2, id);
      CompleteOver(s2, id, failed, last);
    }
  }

  lemma SettlingHolder(s: State, id: nat)
    requires Inv(s) && id < |s.txs| && Parse(s.log).stage.Busy? && Parse(s.log).stage.id == id
    requires SettlesBatch(Parse(s.log).stage.batch)
    ensures s.txs[id].finalized && Parse(s.log).stage.request == s.txs[id].request
  {
    assert TxOk(s.txs[id], id, Parse(s.log));
  }

  lemma NothingLeft(s: State, id: nat)
    requires Undisturbed(s) && id < |s.txs| && s.txs[id].finalized && Locking(s.txs[id].request)
    ensures s.txs[id].executes == []
  {
    assert TxOk(s.txs[id], id, Parse(s.log));
  }

  // ---- starting

  /** What a tick finds: transaction `id` off the queue, with the lock. */
  function Taken(s: State, id: nat): State
    requires id < |s.txs| && s.ticks > 0 && s.queue != []
  {
    s.(ticks := s.ticks - 1, inProgress := true, queue := s.queue[1..], log := s.log + [Started(id, s.txs[id].request)])
  }

  /** The body of a `transaction` or `readTransaction` makes its calls; then what is queued is sent, or, if the body
      has thrown, the lock is given back and the error callback runs. */
  lemma BodyStarts(s: State, fn: Script, last: Script)
    requires Inv(s) && s.ticks > 0 && s.db.IsOpen? && s.queue != [] && !s.inProgress
    requires var r := s.txs[s.queue[0]].request; r.Transaction? || r.ReadTransaction?
    ensures var id := s.queue[0];
            var s1 := Perform(Taken(s, id), fn.acts);
            Tick(s, fn, last).misuse ||
            (&& id < |s1.txs|
             && var t := s1.txs[id];
                if fn.outcome.Throws? then
                  var s2 := Unlocked(s1, id, FnThrew, t.onError);
                  Tick(s, fn, last) == if t.onError then Perform(s2, last.acts) else s2
                else Tick(s, fn, last) == HandedOver(s1, id, t.(executes := []), t.executes))
  {
    hide Perform, Release, Unlocked, Inv, Core, Tick;
    var id := s.queue[0];
    TickStarts(s, fn, last);
    var s0 := Taken(s, id);
    PerformPersists(s0, fn.acts, id);
    var s1 := Perform(s0, fn.acts);
    ReleasedExactly(s1, id, FnThrew);
    PerformKeeps(s0, fn.acts);
    SettlePersists(s1, id, FnThrew, last);
    if !s1.misuse {
      SomethingQueued(s1, id);
    }
  }

  lemma SomethingQueued(s: State, id: nat)
    requires Core(s) && id < |s.txs| && Parse(s.log).stage.Opened? && Parse(s.log).stage.id == id
    ensures s.txs[id].executes != []
  {
    assert TxOk(s.txs[id], id, Parse(s.log));
  }

  lemma TickStarts(s: State, fn: Script, last: Script)
    requires Inv(s) && s.ticks > 0 && s.db.IsOpen? && s.queue != [] && !s.inProgress
    ensures var id := s.queue[0];
            && id < |s.txs|
            && var s0 := Taken(s, id);
               && Undisturbed(s0) && Parse(s0.log).stage == Opened(id, s.txs[id].request)
               && Tick(s, fn, last) == Start(s0, id, fn, last)
  {
    hide Start, Taken, CoreAt, WiredAt;
    StartsFirst(s);
    ShiftKeeps(s.(ticks := s.ticks - 1));
  }

  lemma StartsFirst(s: State)
    requires Inv(s) && s.ticks > 0 && s.db.IsOpen? && s.queue != [] && !s.inProgress
    ensures var s1 := s.(ticks := s.ticks - 1);
            Inv(s1) && CanStart(s1) && Shift(s1) == Taken(s, s.queue[0])
  {
  }

  /** What the bodies made by the plugin queue. */
  predicate BodyOf(r: Request, more: seq<Statement>) {
    match r
    case Single(text, params) => more == [Sql(text, params, true, true)]
    case Batch(items, _, _) =>
      |more| == |items| && forall i :: 0 <= i < |items| ==> more[i] == Sql(items[i].0, items[i].1, false, false)
    case MultiPart(_) => more == []
    case _ => false
  }

  /** `executeSql`, `sqlBatch` and `beginTransaction` start: what has been queued before and the statements asked for,
      in their order, are sent as one batch. */
  lemma PluginStarts(s: State, fn: Script, last: Script) returns (more: seq<Statement>)
    requires Inv(s) && s.ticks > 0 && s.db.IsOpen? && s.queue != [] && !s.inProgress
    requires var r := s.txs[s.queue[0]].request; r.Single? || r.Batch? || r.MultiPart?
    ensures s.queue[0] < |s.txs|
    ensures var id := s.queue[0]; var t := s.txs[id];
            BodyOf(t.request, more)
            && Tick(s, fn, last) == HandedOver(Taken(s, id), id, t.(executes := []), t.executes + more)
  {
    hide Inv, Core, Tick;
    var id := s.queue[0];
    TickStarts(s, fn, last);
    more := PluginBody(s.txs[id].request);
    var s0 := Taken(s, id);
    SomethingQueued(s0, id);
    QueuedRuns(s0, id, more);
    PerformPersists(s0, fn.acts, id);
    hide PluginBody, Queued, Taken;
  }

  lemma QueuedRuns(s: State, id: nat, more: seq<Statement>)
    requires id < |s.txs|
    ensures var t := s.txs[id];
            var s1 := Queued(s, id, more);
            s1.txs[id].executes == t.executes + more
            && Run(s1, id) == HandedOver(s, id, t.(executes := []), t.executes + more)
  {
  }

  /** Without a free lock, an open database and somebody to start, a tick is only consumed. */
  lemma TickIdles(s: State, fn: Script, last: Script)
    requires Inv(s) && s.ticks > 0 && (!s.db.IsOpen? || s.queue == [] || s.inProgress)
    ensures Tick(s, fn, last) == s.(ticks := s.ticks - 1)
  {
  }

  // ---- calls

  /** A new transaction: at the end of the queue, with its opening queued and the callbacks it was given.  On an unknown
      or closed name `transaction`, `readTransaction` and `beginTransaction` are refused. */
  lemma Enqueues(s: State, r: Request)
    ensures var refused := s.db.NotOpen? && (r.Transaction? || r.ReadTransaction? || r.MultiPart?);
            var s1 := Act(s, Enqueue(r));
            if refused then s1 == s
            else
              && |s1.txs| == |s.txs| + 1
              && s1 == s.(txs := s.txs + [s1.txs[|s.txs|]], queue := s.queue + [|s.txs|],
                          ticks := if s.db.IsOpen? then s.ticks + 1 else s.ticks)
              && var t := s1.txs[|s.txs|];
                 && t.request == r && !t.finalized && !t.isPaused && t.canPause == r.MultiPart?
                 && t.onSuccess == (!r.Single? && !r.MultiPart? && r.onSuccess)
                      && t.onError == (!r.Single? && r.onError)
                 && t.executes == if r.MultiPart? then [SelectOne, Begin]
                                  else if r.Transaction? || r.Batch? then [Begin] else [SelectOne]
  {
  }

  /** `executeSql` on a transaction: refused after its end, or for a write in a read transaction; sent at once if the
      transaction is paused. */
  lemma Queues(s: State, id: nat, text: string, params: seq<Value>, onSuccess: bool, onError: bool)
    requires id < |s.txs|
    ensures var t := s.txs[id];
            var executes := t.executes + [Sql(text, params, onSuccess, onError)];
            Act(s, ExecuteSql(id, text, params, onSuccess, onError))
            == if t.finalized || (t.request.ReadTransaction? && Modifies(text)) then s
               else if t.isPaused then HandedOver(s, id, t.(executes := [], isPaused := false), executes)
               else s.(txs := s.txs[id := t.(executes := executes)])
  {
  }

  /** `end` on a transaction that waits for it takes the two callbacks and, if it is paused, sends COMMIT. */
  lemma EndCommits(s: State, id: nat, onSuccess: bool, onError: bool)
    requires Inv(s) && id < |s.txs|
    ensures var t := s.txs[id];
            var t1 := t.(canPause := false, isPaused := false, onSuccess := onSuccess, onError := onError);
            Act(s, End(id, onSuccess, onError))
            == if !t.canPause then s
               else if t.isPaused && !t.finalized then HandedOver(s, id, t1.(finalized := true), [Commit])
               else s.(txs := s.txs[id := t1])
  {
    var t := s.txs[id];
    assert TxOk(t, id, Parse(s.log));
    if t.canPause && t.isPaused && !t.finalized {
      var s1 := s.(txs := s.txs[id := AfterEnd(t, onSuccess, onError)]);
      Concluded(s1, id, false);
      hide Conclude;
      assert [] + [Commit] == [Commit];
    }
  }

  /** `abort` takes the error callback, and queues a statement that fails; if the transaction is paused, it is sent. */
  lemma AbortInvalidates(s: State, id: nat, onError: bool)
    requires id < |s.txs| && Allowed(s, Abort(id, onError))
    ensures var t := s.txs[id];
            var t1 := t.(canPause := false, isPaused := false, onError := onError);
            Act(s, Abort(id, onError)).(rash := s.rash)
            == if !t.canPause then s
               else if t.isPaused then HandedOver(s, id, t1.(executes := []), t.executes + [Invalid])
               else s.(txs := s.txs[id := t1.(executes := t.executes + [Invalid])])
  {
  }

  /** The calls on the database itself: nothing else changes. */
  lemma DatabaseCalls(s: State, a: Action)
    requires a.Open? || a.Close? || a.Delete?
    ensures var s1 := Act(s, a);
            && s1 == s.(db := s1.db, opens := s1.opens, rash := s1.rash)
            && s1.opens == s.opens + (if a.Open? && s.db.NotOpen? then 1 else 0)
            && s1.db == (if a.Delete? || (a.Close? && !s.inProgress) then NotOpen
                         else if a.Open? && s.db.NotOpen? then OpenPending else s.db)
            && (s1.rash <==> s.rash || (!a.Open? && s.opens > 0) || (a.Delete? && s.inProgress))
  {
  }

  // ---- replies to `open`

  /** A successful open: the database is open unless it has been closed meanwhile; the callback makes its calls; then,
      unless it throws, one tick is asked for if a transaction waits and none runs. */
  lemma OpenReplies(s: State, script: Script)
    requires s.opens > 0
    ensures var s1 := Perform(s.(opens := s.opens - 1, db := if s.db.NotOpen? then NotOpen else IsOpen), script.acts);
            Step(s, OpenSucceeds(script))
            == if script.outcome.Throws? || s1.queue == [] || s1.inProgress then s1 else s1.(ticks := s1.ticks + 1)
  {
    hide Perform;
  }

  /** A failed open: the callback makes its calls first; nothing more happens if it throws, and the name is forgotten
      otherwise.  With an empty queue that is all. */
  lemma OpenFailure(s: State, script: Script, aborts: seq<Script>)
    requires s.opens > 0
    ensures var s1 := Perform(s, script.acts);
            && s1.opens > 0
            && var s2 := s1.(opens := s1.opens - 1);
               (script.outcome.Throws? || s1.queue == [] ==>
                  Step(s, OpenFails(script, aborts))
                  == if script.outcome.Throws? then s2 else s2.(db := NotOpen))
  {
    hide Perform, AbortFrom;
    OpensGrow(s, script.acts);
  }

  // ---- calls made while an open fails

  /** The calls made by the callbacks of the abort loop, until one of them throws. */
  function LoopCalls(s: State, ids: seq<nat>, scripts: seq<Script>, i: nat): seq<Action>
    requires i <= |ids|
    decreases |ids| - i
  {
    if i == |ids| then [] else
    var script := Nth(scripts, i, Quiet);
    var (s1, threw) := AbortOne(s, ids[i], script);
    (if ids[i] < |s.txs| && s.txs[ids[i]].onError then script.acts else [])
    + (if threw then [] else LoopCalls(s1, ids, scripts, i + 1))
  }

  /** All calls made when an open fails. */
  function FailureCalls(s: State, script: Script, aborts: seq<Script>): seq<Action> {
    var s1 := Perform(s, script.acts);
    var s2 := (if s1.opens == 0 then s1 else s1.(opens := s1.opens - 1)).(db := NotOpen);
    script.acts + (if script.outcome.Throws? then [] else LoopCalls(s2, s2.queue, aborts, 0))
  }
}
