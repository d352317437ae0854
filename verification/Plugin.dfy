/** The plugin's objects, updated in place: every method does to the object graph what the scheduler's
    step function does to its value. */
module Plugin {
  import opened Statements
  import opened Protocol
  import opened Scheduler
  import Wire
  import Transitions
  import opened Invariant
  import opened Runs
  import opened Theorems

  class Transaction {
    ghost const id: nat
    const db: Database
    const request: Request
    var executes: seq<Statement>
    var finalized: bool
    var canPause: bool
    var isPaused: bool
    var onSuccess: bool
    var onError: bool

    ghost function Value(): Tx
      reads this
    {
      Tx(request, executes, finalized, canPause, isPaused, onSuccess, onError)
    }

    constructor (db: Database, request: Request, ghost id: nat)
      ensures Value() == NewTx(request) && this.db == db && this.id == id && this.request == request
    {
      this.db := db;
      this.request := request;
      this.id := id;
      executes := Opening(request);
      finalized, isPaused := false, false;
      canPause := request.MultiPart?;
      onSuccess := match request
        case Transaction(s, _) => s
        case ReadTransaction(s, _) => s
        case Batch(_, s, _) => s
        case _ => false;
      onError := match request
        case Transaction(_, e) => e
        case ReadTransaction(_, e) => e
        case Batch(_, _, e) => e
        case MultiPart(e) => e
        case _ => false;
    }

    /** One of the transactions of a consistent database object. */
    ghost predicate Registered()
      reads this, db, db.handles
    {
      db.Valid() && id < |db.handles| && db.handles[id] == this
    }

    method AddStatement(st: Statement)
      requires Registered()
      modifies this`executes
      ensures Registered() && db.Model() == Scheduler.AddStatement(old(db.Model()), id, st)
    {
      executes := executes + [st];
      assert db.Model().txs == old(db.Model()).txs[id := Value()];
    }

    method Run()
      requires Registered()
      modifies this`executes, db`wire, db`log
      ensures Registered() && db.Model() == Scheduler.Run(old(db.Model()), id)
    {
      var batchExecutes := executes;
      executes := [];
      db.RunBatch(this, batchExecutes);
      assert db.Model().txs == old(db.Model()).txs[id := Value()];
      assert db.Model().wire == old(db.Model()).wire + [Outstanding(id, batchExecutes)];
    }

    /** `$finish` (not failed) and `$abort` (failed), up to the final callback. */
    method Conclude(failed: bool)
      requires Registered()
      modifies this`executes, this`finalized, db`wire, db`log, db`inProgress, db`ticks
      ensures Registered() && db.Model() == Scheduler.Conclude(old(db.Model()), id, failed)
      ensures !old(finalized) ==> db.Model() == Transitions.Concluding(old(db.Model()), id, failed)
      ensures old(finalized) ==> db.Model() == old(db.Model())
    {
      Transitions.ConcludedExactly(db.Model(), id, failed);
      hide Transitions.Concluding;
      if finalized {
        return;
      }
      finalized := true;
      assert db.Model().txs == old(db.Model()).txs[id := Value()];
      if Locking(request) {
        AddStatement(if failed then Rollback else Commit);
        Run();
      } else {
        Release(if failed then PlainFailed else PlainOk);
      }
    }

    method Release(how: How)
      requires Registered()
      modifies db`log, db`inProgress, db`ticks
      ensures Registered() && db.Model() == Scheduler.Release(old(db.Model()), id, how)
      ensures db.Model() == Transitions.Unlocked(old(db.Model()), id, how,
                                                 if how == CommitOk || how == PlainOk then onSuccess else onError)
    {
      Transitions.ReleasedExactly(db.Model(), id, how);
      hide Ids, OnWire, Values, Transitions.Unlocked;
      db.inProgress := false;
      db.log := db.log + [Released(id, how)];
      db.StartNextTransaction();
      if (if Succeeds(how) then onSuccess else onError) {
        db.log := db.log + [Final(id, Succeeds(how))];
      }
    }

    method ExecuteSql(st: Statement)
      requires Registered() && st.Sql?
      modifies this`executes, this`isPaused, db`wire, db`log
      ensures Registered() && db.Model() == DoExecuteSql(old(db.Model()), id, st)
    {
      if finalized {
        return; // throws InvalidStateError
      }
      if request.ReadTransaction? && Modifies(st.text) {
        return; // the error handler is called, or its absence throws
      }
      AddStatement(st);
      if isPaused {
        label added:
        isPaused := false;
        OnlyThis@added();
        Run();
      }
    }

    /** `end`; an exception ("invalid usage") leaves everything as it is. */
    method End(onSuccess: bool, onError: bool)
      requires Registered()
      modifies this, db`wire, db`log, db`inProgress, db`ticks
      ensures Registered() && db.Model() == DoEnd(old(db.Model()), id, onSuccess, onError)
    {
      if !canPause {
        return;
      }
      var wasPaused := isPaused;
      canPause, this.onSuccess, this.onError := false, onSuccess, onError;
      if wasPaused {
        isPaused := false;
        OnlyThis();
        if executes == [] {
          Conclude(false);
        } else {
          Run();
        }
      } else {
        OnlyThis();
      }
    }

    method Abort(onError: bool)
      requires Registered()
      modifies this, db`wire, db`log
      ensures Registered() && db.Model() == DoAbort(old(db.Model()), id, onError)
    {
      hide Scheduler.Run, Scheduler.AddStatement;
      if !canPause {
        return;
      }
      var wasPaused := isPaused;
      canPause, this.onError := false, onError;
      isPaused := false;
      OnlyThis();
      AddStatement(Invalid);
      if wasPaused {
        Run();
      }
    }

    /** When only this transaction object has changed, so has only its entry of the model. */
    twostate lemma OnlyThis()
      requires old(Registered()) && unchanged(db)
      requires forall t :: t in db.handles && t != this ==> unchanged(t)
      ensures Registered() && db.Model() == old(db.Model()).(txs := old(db.Model()).txs[id := Value()])
    {
      forall j | 0 <= j < |db.handles| && j != id ensures db.Model().txs[j] == old(db.Model()).txs[j] {
        assert db.handles[j].id == j && db.handles[j] in db.handles;
      }
      assert db.Model().txs == old(db.Model()).txs[id := Value()];
    }

    /** `start`: run the body, then send what it queued; a throwing body gives the lock back. */
    method Start(fn: Script, last: Script)
      requires Registered()
      modifies db, db.handles
      ensures db.Grown() && db.Model() == Scheduler.Start(old(db.Model()), id, fn, last)
    {
      PerformPersists(db.Model(), fn.acts, id);
      if UserBody(request) {
        db.Perform(fn.acts);
        if fn.outcome.Throws? {
          var _ := db.Settle(this, FnThrew, last);
          return;
        }
      } else {
        executes := executes + PluginBody(request);
        OnlyThis();
      }
      if executes != [] {
        Run();
      }
    }
  }

  ghost function Ids(queue: seq<Transaction>): (r: seq<nat>)
    ensures |r| == |queue| && forall i :: 0 <= i < |queue| ==> r[i] == queue[i].id
  {
    seq(|queue|, (i: nat) requires i < |queue| => queue[i].id)
  }

  ghost function Values(handles: seq<Transaction>): (r: seq<Tx>)
    reads handles
    ensures |r| == |handles| && forall i :: 0 <= i < |handles| ==> r[i] == handles[i].Value()
  {
    seq(|handles|, (i: nat) requires i < |handles| reads handles => handles[i].Value())
  }

  ghost function OnWire(wire: seq<(Transaction, seq<Statement>)>): (r: seq<Outstanding>)
    ensures |r| == |wire| && forall i :: 0 <= i < |wire| ==> r[i] == Outstanding(wire[i].0.id, wire[i].1)
  {
    seq(|wire|, (i: nat) requires i < |wire| => Outstanding(wire[i].0.id, wire[i].1))
  }

  /** Which results report success. */
  function Succeeded(rs: seq<Wire.Result>): seq<bool> {
    seq(|rs|, i requires 0 <= i < |rs| => !rs[i].Failed?)
  }

  class Database {
    var state: Connection
    var inProgress: bool
    var queue: seq<Transaction>
    var handles: seq<Transaction>
    var ticks: nat
    var opens: nat
    var wire: seq<(Transaction, seq<Statement>)>
    ghost var log: seq<Entry>
    ghost var misuse: bool
    ghost var rash: bool

    ghost predicate Valid()
      reads this, handles
    {
      && (forall i :: 0 <= i < |handles| ==> handles[i].id == i && handles[i].db == this)
      && (forall i :: 0 <= i < |queue| ==> queue[i] in handles)
      && (forall i :: 0 <= i < |wire| ==> wire[i].0 in handles)
    }

    ghost function Model(): State
      reads this, handles
    {
      State(state, inProgress, Ids(queue), Values(handles), ticks, opens, OnWire(wire), log, misuse, rash)
    }

    constructor ()
      ensures Valid() && Model() == Initial
    {
      state, inProgress, queue, handles := NotOpen, false, [], [];
      ticks, opens, wire := 0, 0, [];
      log, misuse, rash := [], false, false;
    }

    method StartNextTransaction()
      modifies this`ticks
      ensures ticks == old(ticks) + 1
    {
      ticks := ticks + 1;
    }

    method RunBatch(tx: Transaction, batch: seq<Statement>)
      modifies this`wire, this`log
      ensures wire == old(wire) + [(tx, batch)] && log == old(log) + [Sent(tx.id, batch)]
    {
      wire := wire + [(tx, batch)];
      log := log + [Sent(tx.id, batch)];
    }

    /** Transactions have been created at most; every object keeps its number. */
    twostate predicate Grown()
      reads this, handles
    {
      && Valid() && old(handles) <= handles
      && forall i :: |old(handles)| <= i < |handles| ==> fresh(handles[i])
    }

    method AddTransaction(request: Request)
      requires Valid()
      modifies this
      ensures Grown() && Model() == Scheduler.AddTransaction(old(Model()), NewTx(request))
    {
      hide NewTx, Ids, OnWire, Values;
      var t := new Transaction(this, request, |handles|);
      handles := handles + [t];
      queue := queue + [t];
      if state.IsOpen? {
        StartNextTransaction();
      }
      assert Model().txs == old(Model()).txs + [NewTx(request)];
      assert Model().queue == old(Model()).queue + [t.id];
      assert Model().wire == old(Model()).wire;
    }

    method Open()
      requires Valid()
      modifies this
      ensures Valid() && Model() == Effect(old(Model()), Scheduler.Open) && handles == old(handles)
    {
      if state.NotOpen? {
        state := OpenPending;
        opens := opens + 1;
      }
    }

    method Close()
      requires Valid()
      modifies this
      ensures Valid() && Model() == Effect(old(Model()), Scheduler.Close) && handles == old(handles)
    {
      if !state.NotOpen? && !inProgress {
        Forget();
      }
    }

    /** A call on a transaction object. */
    method CallOn(tx: Transaction, a: Action)
      requires tx.Registered() && tx.db == this
      requires (a.ExecuteSql? || a.End? || a.Abort?) && a.tx == tx.id
      modifies tx, this`wire, this`log, this`inProgress, this`ticks
      ensures Valid() && Model() == Effect(old(Model()), a)
    {
      hide DoEnd, DoAbort, DoExecuteSql;
      match a {
        case ExecuteSql(_, text, params, ok, err) => tx.ExecuteSql(Sql(text, params, ok, err));
        case End(_, ok, err) => tx.End(ok, err);
        case Abort(_, err) => tx.Abort(err);
      }
    }

    /** One call made by the application. */
    method Call(a: Action)
      requires Valid()
      modifies this, handles
      ensures Grown() && Model() == Act(old(Model()), a)
    {
      hide Effect, Allowed, Careful, Model;
      ghost var allowed, careful := Allowed(Model(), a), Careful(Model(), a);
      Dispatch(a);
      NoteCall(allowed, careful);
    }

    /** Whether the rules have been kept. */
    ghost method NoteCall(allowed: bool, careful: bool)
      requires Valid()
      modifies this`misuse, this`rash
      ensures Valid()
      ensures var s := old(Model()); Model() == s.(misuse := s.misuse || !allowed, rash := s.rash || !careful)
    {
      misuse, rash := misuse || !allowed, rash || !careful;
    }

    method Dispatch(a: Action)
      requires Valid()
      modifies this, handles
      ensures Grown() && Model() == Effect(old(Model()), a)
    {
      hide DoEnd, DoAbort, DoExecuteSql, Scheduler.AddTransaction, NewTx;
      if a.ExecuteSql? || a.End? || a.Abort? {
        if a.tx < |handles| {
          CallOn(handles[a.tx], a);
        }
      } else {
        match a {
          case Enqueue(request) => if !ChecksOpen(request) || !state.NotOpen? { AddTransaction(request); }
          case Open => Open();
          case Close => Close();
          case Delete => Forget();
        }
      }
    }

    /** The calls a callback makes. */
    method Perform(acts: seq<Action>)
      requires Valid()
      modifies this, handles
      ensures Grown() && Model() == Scheduler.Perform(old(Model()), acts)
    {
      hide Act;
      for i := 0 to |acts|
        invariant Grown()
        invariant Scheduler.Perform(Model(), acts[i..]) == Scheduler.Perform(old(Model()), acts)
      {
        assert acts[i..][0] == acts[i] && acts[i..][1..] == acts[i + 1..];
        Call(acts[i]);
      }
    }

    /** Release the lock and run the final callback. */
    method Settle(tx: Transaction, how: How, script: Script) returns (threw: bool)
      requires tx.Registered() && tx.db == this
      modifies this, handles
      ensures Grown() && (Model(), threw) == Scheduler.Settle(old(Model()), tx.id, how, script)
    {
      var calls := if Succeeds(how) then tx.onSuccess else tx.onError;
      tx.Release(how);
      threw := false;
      if calls {
        Perform(script.acts);
        threw := script.outcome.Throws?;
      }
    }

    /** `handleStatementSuccess`; the flag says that an exception reached the caller. */
    method HandleStatementSuccess(tx: Transaction, st: Statement, script: Script) returns (threw: bool)
      requires tx.Registered() && tx.db == this
      modifies this, handles
      ensures Grown() && (Model(), threw) == Handle(old(Model()), tx.id, st, true, script)
      ensures if Settles(st) then Model() == Transitions.Settling(old(Model()), tx.id, st, true, script)
              else Model() == Scheduler.Perform(old(Model()), Transitions.CallsOf(st, true, script))
    {
      Transitions.HandleExactly(Model(), tx.id, st, true, script);
      hide Scheduler.Settle, Scheduler.Perform;
      threw := false;
      match st {
        case Commit => threw := Settle(tx, CommitOk, script);
        case Rollback => threw := Settle(tx, RollbackOk, script);
        case Sql(_, _, onSuccess, _) =>
          if onSuccess {
            Perform(script.acts);
            threw := script.outcome.Throws?;
          }
        case _ =>
      }
    }

    /** `handleStatementFailure`: without a handler, or unless the handler returns `false`, an exception reaches
        the caller. */
    method HandleStatementFailure(tx: Transaction, st: Statement, script: Script) returns (threw: bool)
      requires tx.Registered() && tx.db == this
      modifies this, handles
      ensures Grown() && (Model(), threw) == Handle(old(Model()), tx.id, st, false, script)
      ensures if Settles(st) then Model() == Transitions.Settling(old(Model()), tx.id, st, false, script)
              else Model() == Scheduler.Perform(old(Model()), Transitions.CallsOf(st, false, script))
    {
      Transitions.HandleExactly(Model(), tx.id, st, false, script);
      hide Scheduler.Settle, Scheduler.Perform;
      threw := true;
      match st {
        case Commit => var _ := Settle(tx, CommitFailed, script);
        case Rollback => var _ := Settle(tx, RollbackFailed, script);
        case Sql(_, _, _, onError) =>
          if onError {
            Perform(script.acts);
            threw := !script.outcome.ReturnsFalse?;
          }
        case _ =>
      }
    }

    method HandleResult(tx: Transaction, st: Statement, ok: bool, script: Script) returns (threw: bool)
      requires tx.Registered() && tx.db == this
      modifies this, handles
      ensures Grown() && (Model(), threw) == Handle(old(Model()), tx.id, st, ok, script)
    {
      if ok {
        threw := HandleStatementSuccess(tx, st, script);
      } else {
        threw := HandleStatementFailure(tx, st, script);
      }
    }

    /** `$finish` or `$abort`, with the final callback of a transaction that has nothing more to send. */
    method Finish(tx: Transaction, failed: bool, script: Script)
      requires tx.Registered() && tx.db == this
      modifies this, handles
      ensures Grown()
      ensures var s, t, how := old(Model()), old(tx.Value()), if failed then PlainFailed else PlainOk;
              var s1 := Scheduler.Conclude(s, tx.id, failed);
              var calls := !t.finalized && !Locking(t.request) && CallsFinal(t, how);
              Model() == if calls then Scheduler.Perform(s1, script.acts) else s1
    {
      hide Scheduler.Perform, Scheduler.Conclude;
      var how := if failed then PlainFailed else PlainOk;
      var calls := !tx.finalized && !Locking(tx.request) && (if Succeeds(how) then tx.onSuccess else tx.onError);
      tx.Conclude(failed);
      if calls {
        Perform(script.acts);
      }
    }

    /** When the last handler of a batch has run. */
    method BatchDone(tx: Transaction, failed: bool, script: Script)
      requires tx.Registered() && tx.db == this
      modifies this, handles
      ensures Grown() && Model() == Complete(old(Model()), tx.id, failed, script)
    {
      hide Scheduler.Perform, Scheduler.Run, Scheduler.Conclude;
      if !tx.finalized {
        log := log + [Answered(tx.id, failed)];
      }
      if !failed && tx.executes != [] {
        tx.Run();
      } else if !failed && tx.canPause {
        label answered:
        tx.isPaused := true;
        tx.OnlyThis@answered();
      } else {
        Finish(tx, failed, script);
      }
    }

    /** Take an answered batch off the wire. */
    method Take(k: nat) returns (tx: Transaction, batch: seq<Statement>)
      requires Valid() && k < |wire|
      modifies this`wire
      ensures Valid() && tx.Registered() && tx.db == this && (tx, batch) == old(wire[k])
      ensures var s := old(Model());
              Model() == s.(wire := s.wire[..k] + s.wire[k + 1..]) && s.wire[k] == Outstanding(tx.id, batch)
    {
      tx, batch := wire[k].0, wire[k].1;
      wire := wire[..k] + wire[k + 1..];
      assert Model().wire == old(Model()).wire[..k] + old(Model()).wire[k + 1..];
    }

    /** The reply to one outstanding batch: every handler runs, in order; `waiting` counts them down and its
        reaching zero completes the batch, once. */
    method Reply(k: nat, results: seq<bool>, scripts: seq<Script>, last: Script) returns (completions: nat)
      requires Valid() && k < |wire|
      modifies this, handles
      ensures Grown() && old(wire[k].0.id) < |old(Model()).txs|
      ensures Model() == Scheduler.Reply(old(Model()), k, results, scripts, last)
      ensures completions == if old(wire[k].1) == [] then 0 else 1
    {
      hide HandleFrom, Handle, Complete;
      var tx, batch := Take(k);
      ghost var s := Model();
      HandleFromPersists(s, tx.id, batch, results, scripts, 0, None);
      completions := HandleAll(tx, batch, results, scripts, last);
    }

    /** The handler of statement `i`: the first exception is recorded. */
    method HandlerFor(tx: Transaction, batch: seq<Statement>, i: nat, results: seq<bool>, scripts: seq<Script>,
                      txFailure: Option<nat>)
      returns (txFailure1: Option<nat>)
      requires tx.Registered() && tx.db == this && i < |batch|
      modifies this, handles
      ensures Grown() && tx.id < |old(Model()).txs| && tx.id < |Model().txs|
      ensures HandleFrom(Model(), tx.id, batch, results, scripts, i + 1, txFailure1)
              == HandleFrom(old(Model()), tx.id, batch, results, scripts, i, txFailure)
    {
      hide HandleFrom, Handle;
      HandleFromStep(Model(), tx.id, batch, results, scripts, i, txFailure);
      var threw := HandleResult(tx, batch[i], Nth(results, i, false), Nth(scripts, i, Quiet));
      txFailure1 := if threw && txFailure.None? then Some(i) else txFailure;
    }

    lemma EveryHandleIsModelled()
      ensures |Model().txs| == |handles|
    {
    }

    /** `--waiting`, and the completion if that was the last one. */
    method CountDown(tx: Transaction, waiting: nat, failed: bool, last: Script) returns (left: nat, completed: bool)
      requires tx.Registered() && tx.db == this && waiting > 0
      modifies this, handles
      ensures Grown() && left == waiting - 1 && completed == (left == 0)
      ensures Model() == if completed then Complete(old(Model()), tx.id, failed, last) else old(Model())
    {
      hide Complete;
      left := waiting - 1;
      completed := left == 0;
      if completed {
        BatchDone(tx, failed, last);
      }
    }

    /** The handlers of a batch and, after the last of them, its completion. */
    method HandleAll(tx: Transaction, batch: seq<Statement>, results: seq<bool>, scripts: seq<Script>, last: Script)
      returns (completions: nat)
      requires tx.Registered() && tx.db == this
      modifies this, handles
      ensures Grown()
      ensures var (s1, failure) := HandleFrom(old(Model()), tx.id, batch, results, scripts, 0, None);
              tx.id < |s1.txs| && Model() == if batch == [] then s1 else Complete(s1, tx.id, failure.Some?, last)
      ensures completions == if batch == [] then 0 else 1
    {
      hide HandleFrom, Complete, Model;
      EveryHandleIsModelled();
      HandleFromPersists(Model(), tx.id, batch, results, scripts, 0, None);
      ghost var s0 := Model();
      var txFailure: Option<nat> := None;
      var waiting := |batch|;
      completions := 0;
      for i := 0 to |batch|
        invariant Grown() && tx.Registered() && tx.id < |Model().txs|
        invariant waiting == |batch| - i
        invariant waiting > 0 || batch == [] ==>
          completions == 0 &&
          HandleFrom(Model(), tx.id, batch, results, scripts, i, txFailure)
            == HandleFrom(s0, tx.id, batch, results, scripts, 0, None)
        invariant waiting == 0 && batch != [] ==>
          completions == 1 &&
          var (done, first) := HandleFrom(s0, tx.id, batch, results, scripts, 0, None);
          tx.id < |done.txs| && Model() == Complete(done, tx.id, first.Some?, last)
      {
        txFailure := HandlerFor(tx, batch, i, results, scripts, txFailure);
        if waiting == 1 {
          HandleFromEnd(Model(), tx.id, batch, results, scripts, txFailure);
        }
        var completed;
        waiting, completed := CountDown(tx, waiting, txFailure.Some?, last);
        if completed {
          completions := completions + 1;
        }
        EveryHandleIsModelled();
      }
      if batch == [] {
        HandleFromEnd(Model(), tx.id, batch, results, scripts, txFailure);
      }
    }

    method AbortFromQ(tx: Transaction, script: Script) returns (threw: bool)
      requires tx.Registered() && tx.db == this
      modifies this, handles
      ensures Grown() && (Model(), threw) == AbortOne(old(Model()), tx.id, script)
    {
      hide Scheduler.Perform;
      threw := false;
      if tx.onError {
        log := log + [Told(tx.id)];
        Perform(script.acts);
        threw := script.outcome.Throws?;
      }
    }

    /** The loop runs over the queue as it was when it began, although callbacks may extend it. */
    method AbortPending(pending: seq<Transaction>, scripts: seq<Script>) returns (threw: bool)
      requires Valid() && forall j :: 0 <= j < |pending| ==> pending[j] in handles
      modifies this, handles
      ensures Grown() && (Model(), threw) == AbortFrom(old(Model()), Ids(pending), scripts, 0)
    {
      hide AbortFrom, AbortOne, Model;
      for i := 0 to |pending|
        invariant Grown()
        invariant AbortFrom(Model(), Ids(pending), scripts, i) == AbortFrom(old(Model()), Ids(pending), scripts, 0)
      {
        AbortFromStep(Model(), Ids(pending), scripts, i);
        threw := AbortFromQ(pending[i], Nth(scripts, i, Quiet));
        if threw {
          return;
        }
      }
      threw := false;
      AbortFromEnd(Model(), Ids(pending), scripts);
    }

    method AbortAllPendingTransactions(scripts: seq<Script>)
      requires Valid()
      modifies this, handles
      ensures Grown() && Model() == AbortAll(old(Model()), scripts)
    {
      hide AbortFrom, Scheduler.EmptyQueue, Model;
      QueueIsModelled();
      if queue == [] {
        return;
      }
      ghost var n := |queue|;
      var threw := AbortPending(queue, scripts);
      if !threw {
        EmptyQueue(n);
      }
    }

    lemma QueueIsModelled()
      ensures Model().queue == Ids(queue) && Model().inProgress == inProgress
    {
    }

    /** `txLock.queue = []; txLock.inProgress = false`, whoever holds the lock. */
    method EmptyQueue(ghost n: nat)
      requires Valid()
      modifies this
      ensures Valid() && handles == old(handles) && Model() == Scheduler.EmptyQueue(old(Model()), n)
    {
      hide Removals;
      log := log + Removals(Ids(queue), n);
      misuse := misuse || inProgress;
      queue := [];
      inProgress := false;
    }

    /** The reply to an open request: failure. */
    method OpenFailed(script: Script, aborts: seq<Script>)
      requires Valid() && opens > 0
      modifies this, handles
      ensures Grown() && Model() == Step(old(Model()), OpenFails(script, aborts))
    {
      hide Scheduler.Perform, AbortAll, Model;
      OpensIsModelled();
      OpensGrow(Model(), script.acts);
      Perform(script.acts);
      OpensIsModelled();
      Answer();
      if !script.outcome.Throws? {
        GiveUp(aborts);
      }
    }

    lemma OpensIsModelled()
      ensures Model().opens == opens
    {
    }

    /** One open request has been answered. */
    method Answer()
      requires Valid() && opens > 0
      modifies this`opens
      ensures Valid() && Model() == old(Model()).(opens := old(Model()).opens - 1)
    {
      opens := opens - 1;
    }

    /** `delete openDBs[dbname]`. */
    method Forget()
      requires Valid()
      modifies this`state
      ensures Valid() && Model() == old(Model()).(db := NotOpen)
    {
      state := NotOpen;
    }

    /** The database is not open after all. */
    method GiveUp(aborts: seq<Script>)
      requires Valid()
      modifies this, handles
      ensures Grown() && Model() == AbortAll(old(Model()).(db := NotOpen), aborts)
    {
      hide AbortAll;
      Forget();
      AbortAllPendingTransactions(aborts);
    }

    /** The flat reply to a batch: parsed into one result per statement, then handled. */
    method ReceiveReply(k: nat, flat: seq<Value>, ghost rs: seq<Wire.Result>, scripts: seq<Script>, last: Script)
      returns (completions: nat)
      requires Valid() && k < |wire| && flat == Wire.EncodeAll(rs) && |rs| == |wire[k].1|
      modifies this, handles
      ensures Grown() && old(wire[k].0.id) < |old(Model()).txs|
      ensures Model() == Scheduler.Reply(old(Model()), k, Succeeded(rs), scripts, last)
      ensures completions == if old(wire[k].1) == [] then 0 else 1
    {
      hide Scheduler.Reply;
      var calls := Wire.ParseReply(flat, rs);
      var results := seq(|calls|, i requires 0 <= i < |calls| => calls[i].1.Success?);
      assert results == Succeeded(rs);
      completions := Reply(k, results, scripts, last);
    }

    /** The body of a tick of `startNextTransaction`. */
    method TickRuns(fn: Script, last: Script)
      requires Valid() && ticks > 0
      modifies this, handles
      ensures Grown() && Model() == Tick(old(Model()), fn, last)
    {
      hide Scheduler.Start, Values, OnWire;
      ticks := ticks - 1;
      if state.IsOpen? && queue != [] && !inProgress {
        var tx := queue[0];
        inProgress := true;
        queue := queue[1..];
        log := log + [Started(tx.id, tx.request)];
        assert Model().queue == old(Model()).queue[1..];
        tx.Start(fn, last);
      }
    }

    /** The reply to an open request: success. */
    method OpenSucceeded(script: Script)
      requires Valid() && opens > 0
      modifies this, handles
      ensures Grown() && Model() == Step(old(Model()), OpenSucceeds(script))
    {
      hide Scheduler.Perform;
      MarkOpen();
      Perform(script.acts);
      if script.outcome.Throws? {
        return;
      }
      QueueIsModelled();
      hide Model;
      if queue != [] && !inProgress {
        WakeUp();
      }
    }

    method MarkOpen()
      requires Valid() && opens > 0
      modifies this`opens, this`state
      ensures Valid()
      ensures var s := old(Model());
              Model() == s.(opens := s.opens - 1, db := if s.db.NotOpen? then NotOpen else IsOpen)
    {
      opens := opens - 1;
      if !state.NotOpen? {
        state := IsOpen;
      }
    }

    method WakeUp()
      requires Valid()
      modifies this`ticks
      ensures Valid() && Model() == StartNext(old(Model()))
    {
      StartNextTransaction();
    }

    /** Whatever happens next: a call, a tick, or a reply; events that nothing is waiting for are not delivered. */
    method Occur(e: Event)
      requires Valid()
      modifies this, handles
      ensures Grown() && Model() == Step(old(Model()), e)
    {
      hide Act, Tick, Scheduler.Reply, OpenOk, OpenFail;
      EveryHandleIsModelled();
      match e {
        case Call(a) => Call(a);
        case TickRuns(fn, last) =>
          NoTick(Model(), fn, last);
          if ticks > 0 { TickRuns(fn, last); }
        case BatchReply(k, results, scripts, last) =>
          if k < |wire| {
            var _ := Reply(k, results, scripts, last);
          }
        case OpenSucceeds(script) => if opens > 0 { OpenSucceeded(script); }
        case OpenFails(script, aborts) => if opens > 0 { OpenFailed(script, aborts); }
      }
    }
  }

  lemma NoTick(s: State, fn: Script, last: Script)
    ensures s.ticks == 0 ==> Tick(s, fn, last) == s
  {
  }

  /** A whole run on the objects, from a new database name: the objects end in the state of the model's run, and
      unless the rules of use were broken the invariant holds of them throughout. */
  method RunEvents(events: seq<Event>) returns (database: Database)
    ensures fresh(database) && database.Valid() && database.Model() == After(events)
    ensures database.Model().misuse || (Inv(database.Model()) && Exclusive(database.Model()))
  {
    hide Step, Inv, Exclusive;
    database := new Database();
    EveryRun([]);
    InvExclusive(Initial);
    for i := 0 to |events|
      invariant fresh(database) && database.Valid() && fresh(database.handles)
      invariant RunFrom(database.Model(), events[i..]) == After(events)
      invariant database.Model() == After(events[..i])
      invariant database.Model().misuse || (Inv(database.Model()) && Exclusive(database.Model()))
    {
      assert events[i..][0] == events[i] && events[i..][1..] == events[i + 1..];
      RunSnoc(Initial, events[..i], events[i]);
      assert events[..i + 1] == events[..i] + [events[i]];
      database.Occur(events[i]);
      if !database.Model().misuse {
        EveryRun(events[..i + 1]);
        InvExclusive(database.Model());
      }
    }
    assert events[..|events|] == events;
  }
}
