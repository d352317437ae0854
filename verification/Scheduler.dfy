/** The transaction scheduler and executor of one database name, as a step function over events.
    Application code run by the plugin is given by scripts: the calls it makes, in order,
    and how it ends.  Scripts are arbitrary, so the environment is unconstrained. */
module Scheduler {
  import opened Statements
  import opened Protocol

  /** A transaction object. */
  datatype Tx = Tx(
    request: Request,
    executes: seq<Statement>,
    finalized: bool,
    canPause: bool,
    isPaused: bool,
    onSuccess: bool,
    onError: bool)

  function NewTx(r: Request): Tx {
    match r
    case Transaction(s, e) => Tx(r, Opening(r), false, false, false, s, e)
    case ReadTransaction(s, e) => Tx(r, Opening(r), false, false, false, s, e)
    case Single(_, _) => Tx(r, Opening(r), false, false, false, false, false)
    case Batch(_, s, e) => Tx(r, Opening(r), false, false, false, s, e)
    case MultiPart(e) => Tx(r, Opening(r), false, true, false, false, e)
  }

  /** A call into the plugin; transactions are named by their creation order. */
  datatype Action =
    | Enqueue(request: Request)
    | ExecuteSql(tx: nat, text: string, params: seq<Value>, onSuccess: bool, onError: bool)
    | End(tx: nat, onSuccess: bool, onError: bool)
    | Abort(tx: nat, onError: bool)
    | Open
    | Close
    | Delete

  datatype Outcome = ReturnsFalse | ReturnsOther | Throws

  datatype Script = Script(acts: seq<Action>, outcome: Outcome)

  datatype Connection = NotOpen | OpenPending | IsOpen

  /** A batch handed to native code and not answered yet. */
  datatype Outstanding = Outstanding(id: nat, batch: seq<Statement>)

  datatype State = State(
    db: Connection,              // openDBs[dbname]: absent, INIT, OPEN
    inProgress: bool,            // txLocks[dbname].inProgress; an absent lock reads as idle and empty
    queue: seq<nat>,             // txLocks[dbname].queue
    txs: seq<Tx>,                // every transaction object ever created
    ticks: nat,                  // startNextTransaction ticks not yet run
    opens: nat,                  // open requests whose reply has not been dealt with
    wire: seq<Outstanding>,
    log: seq<Entry>,             // history
    misuse: bool,                // a call was not Allowed, or the lock was taken away from a running transaction
    rash: bool)                  // a call was not Careful

  const Initial := State(NotOpen, false, [], [], 0, 0, [], [], false, false)

  function Nth<T>(xs: seq<T>, i: nat, default: T): T {
    if i < |xs| then xs[i] else default
  }

  const Quiet := Script([], ReturnsOther)

  function Logged(s: State, e: Entry): State {
    s.(log := s.log + [e])
  }

  function StartNext(s: State): State {
    s.(ticks := s.ticks + 1)
  }

  function AddTransaction(s: State, t: Tx): State {
    var s1 := s.(txs := s.txs + [t], queue := s.queue + [|s.txs|]);
    if s1.db.IsOpen? then StartNext(s1) else s1
  }

  // ---- one transaction

  function AddStatement(s: State, id: nat, st: Statement): State
    requires id < |s.txs|
  {
    s.(txs := s.txs[id := s.txs[id].(executes := s.txs[id].executes + [st])])
  }

  function Run(s: State, id: nat): State
    requires id < |s.txs|
  {
    var t := s.txs[id];
    Logged(s.(txs := s.txs[id := t.(executes := [])], wire := s.wire + [Outstanding(id, t.executes)]),
           Sent(id, t.executes))
  }

  predicate CallsFinal(t: Tx, how: How) {
    if Succeeds(how) then t.onSuccess else t.onError
  }

  /** Give the lock back, ask for the next transaction, then call back if there is a callback. */
  function Release(s: State, id: nat, how: How): State
    requires id < |s.txs|
  {
    var s1 := StartNext(Logged(s.(inProgress := false), Released(id, how)));
    if CallsFinal(s.txs[id], how) then Logged(s1, Final(id, Succeeds(how))) else s1
  }

  /** `$finish` and `$abort`; only a locking transaction still has a statement to send. */
  function Conclude(s: State, id: nat, failed: bool): State
    requires id < |s.txs|
  {
    var t := s.txs[id];
    if t.finalized then s
    else
      var s1 := s.(txs := s.txs[id := t.(finalized := true)]);
      if Locking(t.request) then Run(AddStatement(s1, id, if failed then Rollback else Commit), id)
      else Release(s1, id, if failed then PlainFailed else PlainOk)
  }

  // ---- calls made by the application

  /** No `abort` of a multi-part transaction that has already failed. */
  predicate Allowed(s: State, a: Action) {
    match a
    case Abort(id, _) => id < |s.txs| && s.txs[id].canPause ==> !s.txs[id].finalized
    case _ => true
  }

  /** What a caller can check who wants the database to stay open under running transactions: also no close or delete
      while an open request is unanswered, and no delete while a transaction runs. */
  predicate Careful(s: State, a: Action) {
    && Allowed(s, a)
    && (a.Close? ==> s.opens == 0)
    && (a.Delete? ==> s.opens == 0 && !s.inProgress)
  }

  /** `beginTransaction`, `transaction` and `readTransaction` look at openDBs first. */
  predicate ChecksOpen(r: Request) {
    r.Transaction? || r.ReadTransaction? || r.MultiPart?
  }

  function DoExecuteSql(s: State, id: nat, st: Statement): State
    requires id < |s.txs| && st.Sql?
  {
    var t := s.txs[id];
    if t.finalized || (t.request.ReadTransaction? && Modifies(st.text)) then s
    else
      var s1 := AddStatement(s, id, st);
      if t.isPaused then Run(s1.(txs := s1.txs[id := s1.txs[id].(isPaused := false)]), id) else s1
  }

  /** A transaction that `end` has been called on: nothing more will come. */
  function AfterEnd(t: Tx, onSuccess: bool, onError: bool): Tx {
    t.(canPause := false, isPaused := false, onSuccess := onSuccess, onError := onError)
  }

  function DoEnd(s: State, id: nat, onSuccess: bool, onError: bool): State
    requires id < |s.txs|
  {
    var t := s.txs[id];
    if !t.canPause then s
    else
      var s1 := s.(txs := s.txs[id := AfterEnd(t, onSuccess, onError)]);
      if !t.isPaused then s1
      else if t.executes == [] then Conclude(s1, id, false)
      else Run(s1, id)
  }

  function DoAbort(s: State, id: nat, onError: bool): State
    requires id < |s.txs|
  {
    var t := s.txs[id];
    if !t.canPause then s
    else
      var s1 := AddStatement(s.(txs := s.txs[id := t.(canPause := false, isPaused := false, onError := onError)]),
        id, Invalid);
      if t.isPaused then Run(s1, id) else s1
  }

  function Effect(s: State, a: Action): State {
    match a
    case Enqueue(r) => if ChecksOpen(r) && s.db.NotOpen? then s else AddTransaction(s, NewTx(r))
    case ExecuteSql(id, text, params, ok, err) =>
      if id < |s.txs| then DoExecuteSql(s, id, Sql(text, params, ok, err)) else s
    case End(id, ok, err) => if id < |s.txs| then DoEnd(s, id, ok, err) else s
    case Abort(id, err) => if id < |s.txs| then DoAbort(s, id, err) else s
    case Open => if s.db.NotOpen? then s.(db := OpenPending, opens := s.opens + 1) else s
    case Close => if s.inProgress then s else s.(db := NotOpen)
    case Delete => s.(db := NotOpen)
  }

  function Act(s: State, a: Action): State {
    var s1 := Effect(s, a);
    s1.(misuse := s1.misuse || !Allowed(s, a), rash := s1.rash || !Careful(s, a))
  }

  function Perform(s: State, acts: seq<Action>): State
    decreases |acts|
  {
    if acts == [] then s else Perform(Act(s, acts[0]), acts[1..])
  }

  // ---- replies

  /** Give the lock back and run the final callback, if there is one; the flag says that it threw. */
  function Settle(s: State, id: nat, how: How, script: Script): (State, bool)
    requires id < |s.txs|
  {
    var s1 := Release(s, id, how);
    if CallsFinal(s.txs[id], how) then (Perform(s1, script.acts), script.outcome.Throws?) else (s1, false)
  }

  /** The handler for one statement's result; the flag says that an exception reached `handlerFor`. */
  function Handle(s: State, id: nat, st: Statement, ok: bool, script: Script): (State, bool)
    requires id < |s.txs|
  {
    match st
    case Begin => (s, !ok)
    case SelectOne => (s, !ok)
    case Invalid => (s, !ok)
    case Commit =>
      if ok then Settle(s, id, CommitOk, script) else (Settle(s, id, CommitFailed, script).0, true)
    case Rollback =>
      if ok then Settle(s, id, RollbackOk, script) else (Settle(s, id, RollbackFailed, script).0, true)
    case Sql(_, _, onSuccess, onError) =>
      if ok then
        if onSuccess then (Perform(s, script.acts), script.outcome.Throws?) else (s, false)
      else
        if onError then (Perform(s, script.acts), !script.outcome.ReturnsFalse?) else (s, true)
  }

  /** `id` is still there in `s1`, for the same request, and final if it was; misuse is never forgotten. */
  predicate Persists(s: State, s1: State, id: nat) {
    && id < |s.txs| <= |s1.txs|
    && s1.txs[id].request == s.txs[id].request
    && (s.txs[id].finalized ==> s1.txs[id].finalized)
    && (s.misuse ==> s1.misuse)
  }

  lemma EndPersists(s: State, tx: nat, onSuccess: bool, onError: bool, id: nat)
    requires tx < |s.txs| && id < |s.txs|
    ensures Persists(s, DoEnd(s, tx, onSuccess, onError), id)
  {
    hide Conclude, Release, Run;
    var t := s.txs[tx];
    if t.canPause {
      var s1 := s.(txs := s.txs[tx := AfterEnd(t, onSuccess, onError)]);
      ConcludePersists(s1, tx, false, id);
      RunPersists(s1, tx, id);
    }
  }

  lemma ConcludePersists(s: State, tx: nat, failed: bool, id: nat)
    requires tx < |s.txs| && id < |s.txs|
    ensures Persists(s, Conclude(s, tx, failed), id)
  {
  }

  lemma RunPersists(s: State, tx: nat, id: nat)
    requires tx < |s.txs| && id < |s.txs|
    ensures Persists(s, Run(s, tx), id)
  {
  }

  lemma ExecuteSqlPersists(s: State, tx: nat, st: Statement, id: nat)
    requires tx < |s.txs| && id < |s.txs| && st.Sql?
    ensures Persists(s, DoExecuteSql(s, tx, st), id)
  {
  }

  lemma AbortPersists(s: State, tx: nat, onError: bool, id: nat)
    requires tx < |s.txs| && id < |s.txs|
    ensures Persists(s, DoAbort(s, tx, onError), id)
  {
  }

  lemma ActPersists(s: State, a: Action, id: nat)
    requires id < |s.txs|
    ensures Persists(s, Act(s, a), id)
  {
    hide DoEnd, DoAbort, DoExecuteSql, NewTx;
    match a
    case End(tx, onSuccess, onError) => if tx < |s.txs| { EndPersists(s, tx, onSuccess, onError, id); }
    case ExecuteSql(tx, text, params, ok, err) =>
      if tx < |s.txs| { ExecuteSqlPersists(s, tx, Sql(text, params, ok, err), id); }
    case Abort(tx, onError) => if tx < |s.txs| { AbortPersists(s, tx, onError, id); }
    case _ =>
  }

  lemma {:induction false} PerformPersists(s: State, acts: seq<Action>, id: nat)
    requires id < |s.txs|
    ensures Persists(s, Perform(s, acts), id)
    decreases |acts|
  {
    if acts != [] {
      ActPersists(s, acts[0], id);
      PerformPersists(Act(s, acts[0]), acts[1..], id);
    }
  }

  lemma SettlePersists(s: State, id: nat, how: How, script: Script)
    requires id < |s.txs|
    ensures Persists(s, Settle(s, id, how, script).0, id)
  {
    PerformPersists(Release(s, id, how), script.acts, id);
  }

  lemma HandlePersists(s: State, id: nat, st: Statement, ok: bool, script: Script)
    requires id < |s.txs|
    ensures Persists(s, Handle(s, id, st, ok, script).0, id)
  {
    match st
    case Commit => SettlePersists(s, id, if ok then CommitOk else CommitFailed, script);
    case Rollback => SettlePersists(s, id, if ok then RollbackOk else RollbackFailed, script);
    case Sql(_, _, _, _) => PerformPersists(s, script.acts, id);
    case _ =>
  }

  /** The handlers of a batch from statement `i` on; `failure` is the recorded `txFailure`, by index. */
  function HandleFrom(s: State, id: nat, batch: seq<Statement>, results: seq<bool>, scripts: seq<Script>,
                      i: nat, failure: Option<nat>): (State, Option<nat>)
    requires id < |s.txs| && i <= |batch|
    decreases |batch| - i
  {
    if i == |batch| then (s, failure)
    else
      HandlePersists(s, id, batch[i], Nth(results, i, false), Nth(scripts, i, Quiet));
      var (s1, threw) := Handle(s, id, batch[i], Nth(results, i, false), Nth(scripts, i, Quiet));
      HandleFrom(s1, id, batch, results, scripts, i + 1, if threw && failure.None? then Some(i) else failure)
  }

  /** What happens when `waiting` reaches zero. */
  function Complete(s: State, id: nat, failed: bool, script: Script): State
    requires id < |s.txs|
  {
    var t := s.txs[id];
    var s1 := if t.finalized then s else Logged(s, Answered(id, failed));
    if !failed && t.executes != [] then Run(s1, id)
    else if !failed && t.canPause then s1.(txs := s1.txs[id := t.(isPaused := true)])
    else
      var s2 := Conclude(s1, id, failed);
      var how := if failed then PlainFailed else PlainOk;
      if !t.finalized && !Locking(t.request) && CallsFinal(t, how) then Perform(s2, script.acts) else s2
  }

  lemma {:induction false} HandleFromPersists(s: State, id: nat, batch: seq<Statement>, results: seq<bool>,
                                              scripts: seq<Script>, i: nat, failure: Option<nat>)
    requires id < |s.txs| && i <= |batch|
    ensures Persists(s, HandleFrom(s, id, batch, results, scripts, i, failure).0, id)
    decreases |batch| - i
  {
    if i < |batch| {
      HandlePersists(s, id, batch[i], Nth(results, i, false), Nth(scripts, i, Quiet));
      var (s1, threw) := Handle(s, id, batch[i], Nth(results, i, false), Nth(scripts, i, Quiet));
      HandleFromPersists(s1, id, batch, results, scripts, i + 1, if threw && failure.None? then Some(i) else failure);
    }
  }

  lemma HandleFromStep(s: State, id: nat, batch: seq<Statement>, results: seq<bool>, scripts: seq<Script>,
                       i: nat, failure: Option<nat>)
    requires id < |s.txs| && i < |batch|
    ensures var (s1, threw) := Handle(s, id, batch[i], Nth(results, i, false), Nth(scripts, i, Quiet));
            id < |s1.txs| &&
            HandleFrom(s, id, batch, results, scripts, i, failure)
            == HandleFrom(s1, id, batch, results, scripts, i + 1, if threw && failure.None? then Some(i) else failure)
  {
    HandlePersists(s, id, batch[i], Nth(results, i, false), Nth(scripts, i, Quiet));
  }

  lemma HandleFromEnd(s: State, id: nat, batch: seq<Statement>, results: seq<bool>, scripts: seq<Script>,
                      failure: Option<nat>)
    requires id < |s.txs|
    ensures HandleFrom(s, id, batch, results, scripts, |batch|, failure) == (s, failure)
  {
  }

  /** All results of one outstanding batch arrive; with no result, `waiting` never reaches zero. */
  function Reply(s: State, k: nat, results: seq<bool>, scripts: seq<Script>, last: Script): State
    requires k < |s.wire| && s.wire[k].id < |s.txs|
  {
    var Outstanding(id, batch) := s.wire[k];
    var s1 := s.(wire := s.wire[..k] + s.wire[k + 1..]);
    HandleFromPersists(s1, id, batch, results, scripts, 0, None);
    var (s2, failure) := HandleFrom(s1, id, batch, results, scripts, 0, None);
    if batch == [] then s2 else Complete(s2, id, failure.Some?, last)
  }

  // ---- starting

  function Queued(s: State, id: nat, body: seq<Statement>): State
    requires id < |s.txs|
  {
    s.(txs := s.txs[id := s.txs[id].(executes := s.txs[id].executes + body)])
  }

  function Start(s: State, id: nat, fn: Script, last: Script): State
    requires id < |s.txs|
  {
    var r := s.txs[id].request;
    PerformPersists(s, fn.acts, id);
    var s1 := if UserBody(r) then Perform(s, fn.acts) else Queued(s, id, PluginBody(r));
    if UserBody(r) && fn.outcome.Throws? then Settle(s1, id, FnThrew, last).0
    else if s1.txs[id].executes != [] then Run(s1, id)
    else s1
  }

  predicate CanStart(s: State) {
    s.db.IsOpen? && s.queue != [] && !s.inProgress && s.queue[0] < |s.txs|
  }

  /** Take the lock and shift the first transaction off the queue. */
  function Shift(s: State): State
    requires CanStart(s)
  {
    var id := s.queue[0];
    Logged(s.(inProgress := true, queue := s.queue[1..]), Started(id, s.txs[id].request))
  }

  function Tick(s: State, fn: Script, last: Script): State {
    if s.ticks == 0 then s else
    var s1 := s.(ticks := s.ticks - 1);
    if CanStart(s1) then Start(Shift(s1), s1.queue[0], fn, last) else s1
  }

  // ---- replies to `open`

  function OpenOk(s: State, script: Script): State {
    var s1 := if s.db.NotOpen? then s else s.(db := IsOpen);
    var s2 := Perform(s1, script.acts);
    if script.outcome.Throws? then s2
    else if s2.queue != [] && !s2.inProgress then StartNext(s2)
    else s2
  }

  /** `abortFromQ`: a queued transaction is told of its failure; the flag says that its callback threw. */
  function AbortOne(s: State, id: nat, script: Script): (State, bool) {
    if id < |s.txs| && s.txs[id].onError then (Perform(Logged(s, Told(id)), script.acts), script.outcome.Throws?)
    else (s, false)
  }

  /** The loop over the queue as it was; the flag says that a callback threw out of the loop. */
  function AbortFrom(s: State, ids: seq<nat>, scripts: seq<Script>, i: nat): (State, bool)
    requires i <= |ids|
    decreases |ids| - i
  {
    if i == |ids| then (s, false)
    else
      var (s1, threw) := AbortOne(s, ids[i], Nth(scripts, i, Quiet));
      if threw then (s1, true) else AbortFrom(s1, ids, scripts, i + 1)
  }

  /** The first `n` have been dealt with by the loop; the others have been queued by its callbacks. */
  function Removals(ids: seq<nat>, n: nat): seq<Entry> {
    seq(|ids|, i requires 0 <= i < |ids| => if i < n then Aborted(ids[i]) else Lost(ids[i]))
  }

  /** After the loop queue and lock are cleared, also if a transaction runs: then the lock is taken away from it. */
  function EmptyQueue(s: State, n: nat): State {
    s.(queue := [], inProgress := false, log := s.log + Removals(s.queue, n), misuse := s.misuse || s.inProgress)
  }

  function AbortAll(s: State, scripts: seq<Script>): State {
    if s.queue == [] then s
    else
      var (s1, threw) := AbortFrom(s, s.queue, scripts, 0);
      if threw then s1 else EmptyQueue(s1, |s.queue|)
  }

  function OpenFail(s: State, script: Script, scripts: seq<Script>): State {
    var s1 := Perform(s, script.acts);
    var s2 := if s1.opens == 0 then s1 else s1.(opens := s1.opens - 1);
    if script.outcome.Throws? then s2 else AbortAll(s2.(db := NotOpen), scripts)
  }

  lemma EffectOpens(s: State, a: Action)
    ensures s.opens <= Effect(s, a).opens
  {
    hide NewTx;
    if a.End? && a.tx < |s.txs| {
      EndOpens(s, a.tx, a.onSuccess, a.onError);
      hide DoEnd;
    }
  }

  lemma EndOpens(s: State, id: nat, onSuccess: bool, onError: bool)
    requires id < |s.txs|
    ensures DoEnd(s, id, onSuccess, onError).opens == s.opens
  {
  }

  lemma {:induction false} OpensGrow(s: State, acts: seq<Action>)
    ensures s.opens <= Perform(s, acts).opens
    decreases |acts|
  {
    hide DoEnd, DoAbort, DoExecuteSql, NewTx;
    if acts != [] {
      EffectOpens(s, acts[0]);
      OpensGrow(Act(s, acts[0]), acts[1..]);
    }
  }

  lemma AbortFromStep(s: State, ids: seq<nat>, scripts: seq<Script>, i: nat)
    requires i < |ids|
    ensures var (s1, threw) := AbortOne(s, ids[i], Nth(scripts, i, Quiet));
            AbortFrom(s, ids, scripts, i) == if threw then (s1, true) else AbortFrom(s1, ids, scripts, i + 1)
  {
  }

  lemma AbortFromEnd(s: State, ids: seq<nat>, scripts: seq<Script>)
    ensures AbortFrom(s, ids, scripts, |ids|) == (s, false)
  {
  }

  // ---- runs

  datatype Event =
    | Call(act: Action)                                                    // application code outside any callback
    | TickRuns(fn: Script, last: Script)
    | BatchReply(k: nat, results: seq<bool>, scripts: seq<Script>, last: Script)
    | OpenSucceeds(script: Script)
    | OpenFails(script: Script, aborts: seq<Script>)

  function Step(s: State, e: Event): State {
    match e
    case Call(a) => Act(s, a)
    case TickRuns(fn, last) => Tick(s, fn, last)
    case BatchReply(k, results, scripts, last) =>
      if k < |s.wire| && s.wire[k].id < |s.txs| then Reply(s, k, results, scripts, last) else s
    case OpenSucceeds(script) => if s.opens == 0 then s else OpenOk(s.(opens := s.opens - 1), script)
    case OpenFails(script, aborts) => if s.opens == 0 then s else OpenFail(s, script, aborts)
  }

  function RunFrom(s: State, events: seq<Event>): State
    decreases |events|
  {
    if events == [] then s else RunFrom(Step(s, events[0]), events[1..])
  }

  /** Every reachable state is `After(events)` for some events. */
  function After(events: seq<Event>): State {
    RunFrom(Initial, events)
  }
}
