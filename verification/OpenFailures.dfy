/** Failing to open: what becomes of the transactions in the queue, of the lock, and of their callbacks. */
module OpenFailures {
  import opened Statements
  import opened Protocol
  import opened Scheduler
  import opened Invariant
  import opened Histories
  import opened Runs
  import opened Steps
  import opened Theorems
  import opened Lifecycle

  // ---- exactly when an abort callback throws out of the loop

  /** A transaction's callbacks, and whether `end` or `abort` may still replace them. */
  datatype Handler = Handler(canPause: bool, onSuccess: bool, onError: bool)

  function HandlerOf(t: Tx): Handler {
    Handler(t.canPause, t.onSuccess, t.onError)
  }

  /** What a call does to the callbacks of transaction `id`: the first `end` gives both, the first `abort` one. */
  function AfterCall(h: Handler, id: nat, a: Action): Handler {
    match a
    case End(tx, onSuccess, onError) => if tx == id && h.canPause then Handler(false, onSuccess, onError) else h
    case Abort(tx, onError) => if tx == id && h.canPause then Handler(false, h.onSuccess, onError) else h
    case _ => h
  }

  function AfterCalls(h: Handler, id: nat, acts: seq<Action>): Handler
    decreases |acts|
  {
    if acts == [] then h else AfterCalls(AfterCall(h, id, acts[0]), id, acts[1..])
  }

  lemma EndHandler(s: State, tx: nat, onSuccess: bool, onError: bool, id: nat)
    requires id < |s.txs| && tx < |s.txs|
    ensures |DoEnd(s, tx, onSuccess, onError).txs| == |s.txs|
    ensures HandlerOf(DoEnd(s, tx, onSuccess, onError).txs[id])
            == AfterCall(HandlerOf(s.txs[id]), id, End(tx, onSuccess, onError))
  {
    hide Conclude, Release;
    var t := s.txs[tx];
    if t.canPause {
      var t1 := AfterEnd(t, onSuccess, onError);
      ConcludeHandler(s.(txs := s.txs[tx := t1]), tx, id);
    }
  }

  lemma ConcludeHandler(s: State, tx: nat, id: nat)
    requires id < |s.txs| && tx < |s.txs|
    ensures |Conclude(s, tx, false).txs| == |s.txs| && HandlerOf(Conclude(s, tx, false).txs[id]) == HandlerOf(s.txs[id])
  {
  }

  lemma ExecuteSqlHandler(s: State, tx: nat, st: Statement, id: nat)
    requires id < |s.txs| && tx < |s.txs| && st.Sql?
    ensures |DoExecuteSql(s, tx, st).txs| == |s.txs|
            && HandlerOf(DoExecuteSql(s, tx, st).txs[id]) == HandlerOf(s.txs[id])
  {
  }

  lemma AbortHandler(s: State, tx: nat, onError: bool, id: nat)
    requires id < |s.txs| && tx < |s.txs|
    ensures |DoAbort(s, tx, onError).txs| == |s.txs|
    ensures HandlerOf(DoAbort(s, tx, onError).txs[id]) == AfterCall(HandlerOf(s.txs[id]), id, Abort(tx, onError))
  {
  }

  lemma ActHandler(s: State, a: Action, id: nat)
    requires id < |s.txs|
    ensures id < |Act(s, a).txs| && HandlerOf(Act(s, a).txs[id]) == AfterCall(HandlerOf(s.txs[id]), id, a)
  {
    hide NewTx, DoEnd, DoAbort, DoExecuteSql, HandlerOf;
    match a
    case End(tx, ok, err) => if tx < |s.txs| { EndHandler(s, tx, ok, err, id); }
    case ExecuteSql(tx, text, params, ok, err) =>
      if tx < |s.txs| { ExecuteSqlHandler(s, tx, Sql(text, params, ok, err), id); }
    case Abort(tx, err) => if tx < |s.txs| { AbortHandler(s, tx, err, id); }
    case _ =>
  }

  lemma {:induction false} PerformHandler(s: State, acts: seq<Action>, id: nat)
    requires id < |s.txs|
    ensures id < |Perform(s, acts).txs|
    ensures HandlerOf(Perform(s, acts).txs[id]) == AfterCalls(HandlerOf(s.txs[id]), id, acts)
    decreases |acts|
  {
    hide Act, AfterCall;
    if acts != [] {
      ActHandler(s, acts[0], id);
      PerformHandler(Act(s, acts[0]), acts[1..], id);
    }
  }

  lemma {:induction false} AfterMoreCalls(h: Handler, id: nat, a: seq<Action>, b: seq<Action>)
    ensures AfterCalls(h, id, a + b) == AfterCalls(AfterCalls(h, id, a), id, b)
    decreases |a|
  {
    if a == [] {
      assert a + b == b;
    } else {
      assert (a + b)[1..] == a[1..] + b;
      AfterMoreCalls(AfterCall(h, id, a[0]), id, a[1..], b);
    }
  }

  /** Callbacks that cannot be replaced any more stay as they are. */
  lemma {:induction false} SettledHandler(h: Handler, id: nat, acts: seq<Action>)
    requires !h.canPause
    ensures AfterCalls(h, id, acts) == h
    decreases |acts|
  {
    if acts != [] {
      SettledHandler(AfterCall(h, id, acts[0]), id, acts[1..]);
    }
  }

  predicate Known(txs: seq<Tx>, ids: seq<nat>) {
    forall j :: 0 <= j < |ids| ==> ids[j] < |txs|
  }

  /** The calls made by the callbacks of the first `i` transactions of the loop; a transaction has a callback
      unless none was given or an earlier call has taken it away. */
  function CallsBefore(txs: seq<Tx>, ids: seq<nat>, scripts: seq<Script>, i: nat): seq<Action>
    requires i <= |ids| && Known(txs, ids)
    decreases i
  {
    if i == 0 then [] else
    var calls := CallsBefore(txs, ids, scripts, i - 1);
    if AfterCalls(HandlerOf(txs[ids[i - 1]]), ids[i - 1], calls).onError then calls + Nth(scripts, i - 1, Quiet).acts
      else calls
  }

  predicate ThrowsAt(txs: seq<Tx>, ids: seq<nat>, scripts: seq<Script>, i: nat)
    requires i < |ids| && Known(txs, ids)
  {
    AfterCalls(HandlerOf(txs[ids[i]]), ids[i], CallsBefore(txs, ids, scripts, i)).onError
      && Nth(scripts, i, Quiet).outcome.Throws?
  }

  /** Some transaction of the loop has a callback that throws. */
  predicate SomeCallbackThrows(txs: seq<Tx>, ids: seq<nat>, scripts: seq<Script>)
    requires Known(txs, ids)
  {
    exists i: nat :: i < |ids| && ThrowsAt(txs, ids, scripts, i)
  }

  /** Before step `i` of the loop, handlers are what the callbacks so far have made of them. */
  predicate Reached(txs: seq<Tx>, ids: seq<nat>, scripts: seq<Script>, i: nat, s: State)
    requires i <= |ids| && Known(txs, ids)
  {
    && |txs| <= |s.txs|
    && forall id: nat :: id < |txs| ==>
         HandlerOf(s.txs[id]) == AfterCalls(HandlerOf(txs[id]), id, CallsBefore(txs, ids, scripts, i))
  }

  lemma AbortOneReached(txs: seq<Tx>, ids: seq<nat>, scripts: seq<Script>, i: nat, s: State)
    requires i < |ids| && Known(txs, ids) && Reached(txs, ids, scripts, i, s)
    ensures var (s1, threw) := AbortOne(s, ids[i], Nth(scripts, i, Quiet));
            (threw <==> ThrowsAt(txs, ids, scripts, i)) && Reached(txs, ids, scripts, i + 1, s1)
  {
    hide AfterCalls, Perform;
    var script := Nth(scripts, i, Quiet);
    var s0 := Logged(s, Told(ids[i]));
    var calls := CallsBefore(txs, ids, scripts, i);
    if s.txs[ids[i]].onError {
      PerformPersists(s0, script.acts, ids[i]);
      PerformFollows(s0, script.acts);
      forall id: nat | id < |txs|
        ensures HandlerOf(Perform(s0, script.acts).txs[id]) == AfterCalls(HandlerOf(txs[id]), id, calls + script.acts)
      {
        PerformHandler(s0, script.acts, id);
        AfterMoreCalls(HandlerOf(txs[id]), id, calls, script.acts);
      }
    }
  }

  /** The abort loop is left by an exception exactly if some callback that it reaches throws; which those are can be
      told from the handlers and the scripts alone. */
  lemma {:induction false} LoopThrowsIff(txs: seq<Tx>, ids: seq<nat>, scripts: seq<Script>, i: nat, s: State)
    requires i <= |ids| && Known(txs, ids) && Reached(txs, ids, scripts, i, s)
    ensures AbortFrom(s, ids, scripts, i).1 <==> exists j: nat :: i <= j < |ids| && ThrowsAt(txs, ids, scripts, j)
    decreases |ids| - i
  {
    hide AbortFrom, AbortOne, ThrowsAt, Reached;
    if i == |ids| {
      AbortFromEnd(s, ids, scripts);
    } else {
      AbortFromStep(s, ids, scripts, i);
      AbortOneReached(txs, ids, scripts, i, s);
      var (s1, threw) := AbortOne(s, ids[i], Nth(scripts, i, Quiet));
      if !threw {
        LoopThrowsIff(txs, ids, scripts, i + 1, s1);
      }
    }
  }

  lemma QueueKnown(s: State)
    requires Inv(s)
    ensures Known(s.txs, s.queue)
  {
  }

  lemma WholeLoopThrowsIff(s: State, ids: seq<nat>, scripts: seq<Script>)
    requires Known(s.txs, ids)
    ensures AbortFrom(s, ids, scripts, 0).1 <==> SomeCallbackThrows(s.txs, ids, scripts)
  {
    LoopThrowsIff(s.txs, ids, scripts, 0, s);
  }

  /** If no transaction of the loop can pause, the callbacks given when they were queued are the ones that count. */
  lemma PlainCallbacks(txs: seq<Tx>, ids: seq<nat>, scripts: seq<Script>)
    requires Known(txs, ids) && forall j :: 0 <= j < |ids| ==> !txs[ids[j]].canPause
    ensures SomeCallbackThrows(txs, ids, scripts)
            <==> exists j: nat :: j < |ids| && txs[ids[j]].onError && Nth(scripts, j, Quiet).outcome.Throws?
  {
    forall j: nat | j < |ids|
      ensures ThrowsAt(txs, ids, scripts, j) <==> txs[ids[j]].onError && Nth(scripts, j, Quiet).outcome.Throws?
    {
      SettledHandler(HandlerOf(txs[ids[j]]), ids[j], CallsBefore(txs, ids, scripts, j));
    }
  }

  /** A transaction has been told of its failure and is still queued: it may start later and report again. */
  ghost predicate ToldAndQueued(s: State) {
    exists id: nat :: id in s.queue && Told(id) in s.log
  }

  /** The transaction whose callback throws has been told, and is still on the queue. */
  lemma {:induction false} ThrowerTold(s: State, ids: seq<nat>, scripts: seq<Script>, i: nat)
    requires i <= |ids| && AbortFrom(s, ids, scripts, i).1
    ensures exists j: nat :: i <= j < |ids| && Told(ids[j]) in AbortFrom(s, ids, scripts, i).0.log
    decreases |ids| - i
  {
    hide AbortFrom, AbortOne;
    if i == |ids| {
      AbortFromEnd(s, ids, scripts);
    } else {
      var script := Nth(scripts, i, Quiet);
      AbortFromStep(s, ids, scripts, i);
      var (s1, threw) := AbortOne(s, ids[i], script);
      if threw {
        TellsFirst(s, ids[i], script);
      } else {
        ThrowerTold(s1, ids, scripts, i + 1);
      }
    }
  }

  lemma TellsFirst(s: State, id: nat, script: Script)
    requires AbortOne(s, id, script).1
    ensures Told(id) in AbortOne(s, id, script).0.log
  {
    PerformFollows(Logged(s, Told(id)), script.acts);
    assert Logged(s, Told(id)).log[|s.log|] == Told(id);
    hide Perform;
  }

  /** Aborting the queue leaves a transaction that has been told of its failure on the queue exactly if some callback
      that the loop reaches throws. */
  lemma ToldAndQueuedIff(s: State, scripts: seq<Script>)
    requires Inv(s) && s.queue != []
    ensures Known(s.txs, s.queue)
    ensures ToldAndQueued(AbortAll(s, scripts)) <==> SomeCallbackThrows(s.txs, s.queue, scripts)
  {
    hide SomeCallbackThrows, AbortFrom, Inv;
    QueueKnown(s);
    WholeLoopThrowsIff(s, s.queue, scripts);
    if AbortFrom(s, s.queue, scripts, 0).1 {
      ThrowerTold(s, s.queue, scripts, 0);
      AbortFromQueue(s, s.queue, scripts, 0);
      var s1 := AbortFrom(s, s.queue, scripts, 0).0;
      var j: nat :| j < |s.queue| && Told(s.queue[j]) in s1.log;
      assert s1.queue[j] == s.queue[j];
    }
  }

  // ---- exactly when a failing open takes the lock away

  lemma {:induction false} AbortFromLock(s: State, ids: seq<nat>, scripts: seq<Script>, i: nat)
    requires i <= |ids| && Steady(s)
    ensures var s1 := AbortFrom(s, ids, scripts, i).0;
            Steady(s1) && s1.inProgress == s.inProgress && Starts(s1.log) == Starts(s.log)
              && Releases(s1.log) == Releases(s.log)
    decreases |ids| - i
  {
    hide AbortFrom, Perform, Starts, Releases, OnlySends;
    if i == |ids| {
      AbortFromEnd(s, ids, scripts);
    } else {
      var script := Nth(scripts, i, Quiet);
      AbortFromStep(s, ids, scripts, i);
      LogSnoc(s.log, Told(ids[i]));
      var s0 := Logged(s, Told(ids[i]));
      PerformCalm(s0, script.acts);
      SendsKeepLock(s0.log, Perform(s0, script.acts).log);
      AbortFromLock(AbortOne(s, ids[i], script).0, ids, scripts, i + 1);
    }
  }

  lemma {:induction false} RemovalsKeepLock(log: seq<Entry>, ids: seq<nat>, n: nat)
    ensures Starts(log + Removals(ids, n)) == Starts(log) && Releases(log + Removals(ids, n)) == Releases(log)
    decreases |ids|
  {
    hide Starts, Releases;
    if ids == [] {
      assert log + Removals(ids, n) == log;
    } else {
      var m := |ids| - 1;
      var e := if m < n then Aborted(ids[m]) else Lost(ids[m]);
      RemovalsKeepLock(log, ids[..m], n);
      assert log + Removals(ids, n) == (log + Removals(ids[..m], n)) + [e];
      LogSnoc(log + Removals(ids[..m], n), e);
    }
  }

  /** Aborting the queue touches the lock only by clearing it at the end. */
  lemma AbortAllLock(s: State, scripts: seq<Script>)
    requires Steady(s) && Known(s.txs, s.queue)
    ensures var s1 := AbortAll(s, scripts);
            && Starts(s1.log) == Starts(s.log) && Releases(s1.log) == Releases(s.log)
            && (s1.inProgress <==> s.inProgress && (s.queue == [] || SomeCallbackThrows(s.txs, s.queue, scripts)))
  {
    hide AbortFrom, SomeCallbackThrows, Starts, Releases, Removals;
    if s.queue != [] {
      AbortFromLock(s, s.queue, scripts, 0);
      WholeLoopThrowsIff(s, s.queue, scripts);
      var s1 := AbortFrom(s, s.queue, scripts, 0).0;
      RemovalsKeepLock(s1.log, s1.queue, |s.queue|);
    }
  }

  /** An open failure breaks mutual exclusion exactly if a transaction runs, the queue that it empties is not empty, and
      no callback throws before it does so. */
  lemma ExclusionIff(s: State, script: Script, scripts: seq<Script>)
    requires Inv(s) && s.opens > 0
    ensures var s0 := Perform(s, script.acts);
            && Known(s0.txs, s0.queue)
            && (!Exclusive(OpenFail(s, script, scripts))
                <==> (!script.outcome.Throws? && s.inProgress && s0.queue != []
                      && !SomeCallbackThrows(s0.txs, s0.queue, scripts)))
  {
    hide AbortAll, SomeCallbackThrows, Perform, Inv, Known, Starts, Releases, Exclusive, OnlySends;
    InvSteady(s);
    InvExclusive(s);
    QueueKnown(s);
    PerformCalm(s, script.acts);
    var s0 := Perform(s, script.acts);
    SendsKeepLock(s.log, s0.log);
    PerformCreates(s, script.acts);
    OpensGrow(s, script.acts);
    AbortAllLock(s0.(opens := s0.opens - 1, db := NotOpen), scripts);
    LockIff(s, OpenFail(s, script, scripts));
  }

  lemma LockIff(s: State, s1: State)
    requires Exclusive(s) && Starts(s1.log) == Starts(s.log) && Releases(s1.log) == Releases(s.log)
    ensures Exclusive(s1) <==> s1.inProgress == s.inProgress
  {
  }

  // ---- exactly which transactions are lost

  /** What calls make of the open state, told from the calls alone. */
  function ConnectionAfter(db: Connection, inProgress: bool, acts: seq<Action>): Connection
    decreases |acts|
  {
    if acts == [] then db else ConnectionAfter(ConnectionAfterOne(db, inProgress, acts[0]), inProgress, acts[1..])
  }

  function ConnectionAfterOne(db: Connection, inProgress: bool, a: Action): Connection {
    match a
    case Open => if db.NotOpen? then OpenPending else db
    case Close => if inProgress then db else NotOpen
    case Delete => NotOpen
    case _ => db
  }

  /** How many transactions calls create, told from the calls alone. */
  function Created(db: Connection, inProgress: bool, acts: seq<Action>): nat
    decreases |acts|
  {
    if acts == [] then 0 else
    CreatedByOne(db, acts[0]) + Created(ConnectionAfterOne(db, inProgress, acts[0]), inProgress, acts[1..])
  }

  function CreatedByOne(db: Connection, a: Action): nat {
    if a.Enqueue? && !(ChecksOpen(a.request) && db.NotOpen?) then 1 else 0
  }

  lemma {:induction false} CreatedSplit(db: Connection, inProgress: bool, a: seq<Action>, b: seq<Action>)
    ensures ConnectionAfter(db, inProgress, a + b) == ConnectionAfter(ConnectionAfter(db, inProgress, a), inProgress, b)
    ensures Created(db, inProgress, a + b)
            == Created(db, inProgress, a) + Created(ConnectionAfter(db, inProgress, a), inProgress, b)
    decreases |a|
  {
    if a == [] {
      assert a + b == b;
    } else {
      assert (a + b)[1..] == a[1..] + b;
      CreatedSplit(ConnectionAfterOne(db, inProgress, a[0]), inProgress, a[1..], b);
    }
  }

  /** `n` new transactions, in the order of their creation, stand at the end of the queue. */
  predicate Creates(s: State, s1: State, n: nat) {
    && |s1.txs| == |s.txs| + n
    && |s1.queue| == |s.queue| + n && s.queue <= s1.queue
    && forall j :: |s.queue| <= j < |s1.queue| ==> s1.queue[j] == |s.txs| + (j - |s.queue|)
  }

  lemma CreatesOn(s: State, s1: State, s2: State, m: nat, n: nat)
    requires Creates(s, s1, m) && Creates(s1, s2, n)
    ensures Creates(s, s2, m + n)
  {
    forall j | |s.queue| <= j < |s2.queue| ensures s2.queue[j] == |s.txs| + (j - |s.queue|) {
      if j < |s1.queue| {
        assert s2.queue[j] == s1.queue[j];
      }
    }
  }

  lemma EffectCreates(s: State, a: Action)
    ensures Creates(s, Effect(s, a), CreatedByOne(s.db, a))
  {
    hide NewTx, DoEnd, DoAbort, DoExecuteSql;
    match a
    case End(tx, ok, err) => if tx < |s.txs| { EndQueue(s, tx, ok, err); EndHandler(s, tx, ok, err, tx); }
    case ExecuteSql(tx, text, params, ok, err) =>
      if tx < |s.txs| { ExecuteSqlQueue(s, tx, Sql(text, params, ok, err)); }
    case Abort(tx, err) => if tx < |s.txs| { AbortQueue(s, tx, err); }
    case _ =>
  }

  lemma ExecuteSqlQueue(s: State, id: nat, st: Statement)
    requires id < |s.txs| && st.Sql?
    ensures DoExecuteSql(s, id, st).queue == s.queue && |DoExecuteSql(s, id, st).txs| == |s.txs|
  {
  }

  lemma AbortQueue(s: State, id: nat, onError: bool)
    requires id < |s.txs|
    ensures DoAbort(s, id, onError).queue == s.queue && |DoAbort(s, id, onError).txs| == |s.txs|
  {
  }

  lemma {:induction false} PerformCreates(s: State, acts: seq<Action>)
    requires Steady(s)
    ensures var s1 := Perform(s, acts);
            && Creates(s, s1, Created(s.db, s.inProgress, acts)) && s1.db == ConnectionAfter(s.db, s.inProgress, acts)
            && s1.inProgress == s.inProgress && (Known(s.txs, s.queue) ==> Known(s1.txs, s1.queue))
    decreases |acts|
  {
    hide Effect, OnlySends;
    if acts != [] {
      var s1 := Act(s, acts[0]);
      EffectCreates(s, acts[0]);
      ActConnection(s, acts[0]);
      ActCalm(s, acts[0]);
      PerformCreates(s1, acts[1..]);
      CreatesOn(s, s1, Perform(s, acts), CreatedByOne(s.db, acts[0]), Created(s1.db, s1.inProgress, acts[1..]));
    }
  }

  /** Before step `i` of the loop: what its callbacks so far have created. */
  predicate HasCreated(s0: State, ids: seq<nat>, scripts: seq<Script>, i: nat, s: State)
    requires i <= |ids| && Known(s0.txs, ids)
  {
    var calls := CallsBefore(s0.txs, ids, scripts, i);
    && Steady(s) && s.inProgress == s0.inProgress
    && Creates(s0, s, Created(s0.db, s0.inProgress, calls)) && s.db == ConnectionAfter(s0.db, s0.inProgress, calls)
  }

  lemma AbortOneGrown(s0: State, ids: seq<nat>, scripts: seq<Script>, i: nat, s: State)
    requires i < |ids| && Known(s0.txs, ids) && HasCreated(s0, ids, scripts, i, s)
             && Reached(s0.txs, ids, scripts, i, s)
    ensures HasCreated(s0, ids, scripts, i + 1, AbortOne(s, ids[i], Nth(scripts, i, Quiet)).0)
  {
    hide Perform, Created, ConnectionAfter, Creates, OnlySends;
    var script := Nth(scripts, i, Quiet);
    var calls := CallsBefore(s0.txs, ids, scripts, i);
    var s1 := Logged(s, Told(ids[i]));
    PerformCalm(s1, script.acts);
    PerformCreates(s1, script.acts);
    SameCreates(s0, s, s1, Created(s0.db, s0.inProgress, calls));
    CreatesOn(s0, s1, Perform(s1, script.acts), Created(s0.db, s0.inProgress, calls),
      Created(s1.db, s1.inProgress, script.acts));
    CreatedSplit(s0.db, s0.inProgress, calls, script.acts);
  }

  lemma SameCreates(s0: State, s: State, s1: State, n: nat)
    requires Creates(s0, s, n) && s1.txs == s.txs && s1.queue == s.queue
    ensures Creates(s0, s1, n)
  {
  }

  lemma {:induction false} LoopCreates(s0: State, ids: seq<nat>, scripts: seq<Script>, i: nat, s: State)
    requires i <= |ids| && Known(s0.txs, ids) && HasCreated(s0, ids, scripts, i, s)
             && Reached(s0.txs, ids, scripts, i, s)
    ensures var (s1, threw) := AbortFrom(s, ids, scripts, i); !threw ==> HasCreated(s0, ids, scripts, |ids|, s1)
    decreases |ids| - i
  {
    hide AbortFrom, AbortOne, HasCreated, Reached, ThrowsAt;
    if i == |ids| {
      AbortFromEnd(s, ids, scripts);
    } else {
      AbortFromStep(s, ids, scripts, i);
      AbortOneReached(s0.txs, ids, scripts, i, s);
      AbortOneGrown(s0, ids, scripts, i, s);
      LoopCreates(s0, ids, scripts, i + 1, AbortOne(s, ids[i], Nth(scripts, i, Quiet)).0);
    }
  }

  /** What the loop logs: callbacks of transactions in its list, from `i` on and each of them once, and what they
      send. */
  predicate Tells(log: seq<Entry>, log1: seq<Entry>, ids: seq<nat>) {
    && log <= log1
    && (forall a :: |log| <= a < |log1| ==> log1[a].Sent? || log1[a].Told?)
    && (forall a :: |log| <= a < |log1| && log1[a].Told? ==> log1[a].id in ids)
    && (forall a, b :: |log| <= a < b < |log1| && log1[a].Told? && log1[b].Told? ==> log1[a].id < log1[b].id)
  }

  predicate Ascending(ids: seq<nat>) {
    forall j, k :: 0 <= j < k < |ids| ==> ids[j] < ids[k]
  }

  lemma AbortOneTells(s: State, id: nat, script: Script)
    requires Steady(s)
    ensures var s1 := AbortOne(s, id, script).0;
            && Steady(s1) && s.log <= s1.log && (forall a :: |s.log| < a < |s1.log| ==> s1.log[a].Sent?)
            && (|s.log| < |s1.log| ==> s1.log[|s.log|] == Told(id))
  {
    hide Perform;
    var s0 := Logged(s, Told(id));
    PerformCalm(s0, script.acts);
    var s1 := Perform(s0, script.acts);
    forall a | |s.log| < a < |s1.log| ensures s1.log[a].Sent? {
      assert s1.log[|s0.log|..][a - |s0.log|] == s1.log[a];
    }
  }

  lemma {:induction false} AbortFromTells(s: State, ids: seq<nat>, scripts: seq<Script>, i: nat)
    requires i <= |ids| && Steady(s) && Ascending(ids)
    ensures Tells(s.log, AbortFrom(s, ids, scripts, i).0.log, ids[i..])
    decreases |ids| - i
  {
    hide AbortFrom, AbortOne, Steady;
    if i == |ids| {
      AbortFromEnd(s, ids, scripts);
    } else {
      var script := Nth(scripts, i, Quiet);
      AbortFromStep(s, ids, scripts, i);
      AbortOneTells(s, ids[i], script);
      var (s1, threw) := AbortOne(s, ids[i], script);
      if !threw {
        AbortFromTells(s1, ids, scripts, i + 1);
        assert ids[i..] == [ids[i]] + ids[i + 1..];
        assert forall k :: i < k < |ids| ==> ids[i] < ids[k];
      }
    }
  }

  lemma RemovalsLost(ids: seq<nat>, n: nat, first: nat, id: nat)
    requires n <= |ids| && forall j :: n <= j < |ids| ==> ids[j] == first + (j - n)
    ensures Lost(id) in Removals(ids, n) <==> first <= id < first + (|ids| - n)
  {
    if first <= id < first + (|ids| - n) {
      assert Removals(ids, n)[n + (id - first)] == Lost(id);
    }
  }

  /** Failing to open drops exactly the transactions that the callbacks of the loop create, unless one of them throws;
      which those are can be told beforehand, from the open state, the handlers and the scripts. */
  lemma LostIff(s: State, scripts: seq<Script>, id: nat)
    requires Inv(s)
    ensures var s1 := AbortAll(s, scripts);
            && Known(s.txs, s.queue) && s.log <= s1.log
            && (Lost(id) in s1.log[|s.log|..]
                <==> (s.queue != [] && !SomeCallbackThrows(s.txs, s.queue, scripts)
                      && var calls := CallsBefore(s.txs, s.queue, scripts, |s.queue|);
                         |s.txs| <= id < |s.txs| + Created(s.db, s.inProgress, calls)))
  {
    hide Inv, AbortFrom, SomeCallbackThrows, EmptyQueue, Created, CallsBefore, Tells;
    QueueKnown(s);
    InvSteady(s);
    QueueAscends(s);
    if s.queue != [] {
      WholeLoopThrowsIff(s, s.queue, scripts);
      AbortFromTells(s, s.queue, scripts, 0);
      assert s.queue[0..] == s.queue;
      var (s1, threw) := AbortFrom(s, s.queue, scripts, 0);
      TellsLost(s.log, s1.log, s.queue, id);
      if !threw {
        StartsGrown(s, s.queue, scripts);
        LoopCreates(s, s.queue, scripts, 0, s);
        EmptyQueueLost(s, s1, s.queue, scripts, id);
      }
    }
  }

  lemma TellsLost(log: seq<Entry>, log1: seq<Entry>, ids: seq<nat>, id: nat)
    requires Tells(log, log1, ids)
    ensures log <= log1 && Lost(id) !in log1[|log|..]
  {
  }

  lemma EmptyQueueLost(s: State, s1: State, ids: seq<nat>, scripts: seq<Script>, id: nat)
    requires Known(s.txs, ids) && ids == s.queue && HasCreated(s, ids, scripts, |ids|, s1)
    requires s.log <= s1.log && Lost(id) !in s1.log[|s.log|..]
    ensures var calls := CallsBefore(s.txs, ids, scripts, |ids|); var log := EmptyQueue(s1, |ids|).log;
            && s.log <= log
            && (Lost(id) in log[|s.log|..] <==> |s.txs| <= id < |s.txs| + Created(s.db, s.inProgress, calls))
  {
    hide Removals, CallsBefore, Created, ConnectionAfter;
    RemovalsLost(s1.queue, |ids|, |s.txs|, id);
    assert EmptyQueue(s1, |ids|).log[|s.log|..] == s1.log[|s.log|..] + Removals(s1.queue, |ids|);
  }

  lemma StartsGrown(s: State, ids: seq<nat>, scripts: seq<Script>)
    requires Known(s.txs, ids) && Steady(s)
    ensures HasCreated(s, ids, scripts, 0, s) && Reached(s.txs, ids, scripts, 0, s)
  {
  }

  lemma QueueAscends(s: State)
    requires Inv(s)
    ensures Ascending(s.queue)
  {
  }

  // ---- at most one report

  predicate Reports(e: Entry) {
    e.Told? || e.Final?
  }

  predicate OneReport(log: seq<Entry>) {
    forall i, j :: 0 <= i < j < |log| && Reports(log[i]) && Reports(log[j]) ==> log[i].id != log[j].id
  }

  /** Whoever has been told of a failure in the queue has been dropped from it. */
  ghost predicate Cleared(log: seq<Entry>) {
    forall id: nat :: Told(id) in log ==> Aborted(id) in log
  }

  /** A transaction that leaves the queue in one way does not leave it in another. */
  lemma AbortedNeverReleases(log: seq<Entry>, id: nat, how: How)
    requires Accepted(log) && Aborted(id) in log && Released(id, how) in log
    ensures false
  {
    var r := EntryWasStarted(log, Released(id, how));
    AbortedNeverStarts(log, id, r);
  }

  lemma {:induction false} AbortedNeverStarts(log: seq<Entry>, id: nat, r: Request)
    requires Accepted(log) && Aborted(id) in log && Started(id, r) in log
    ensures false
    decreases |log|
  {
    Unsnoc(log);
    var front, e := Front(log), Last(log);
    if Aborted(id) in front && Started(id, r) in front {
      AbortedNeverStarts(front, id, r);
    } else {
      var other := if e.Aborted? then Started(id, r) else Aborted(id);
      var i :| 0 <= i < |front| && front[i] == other;
      IdsBelowNext(front, i);
    }
  }

  /** As long as nobody is told anything in the queue. */
  lemma UntoldReports(log: seq<Entry>, log1: seq<Entry>)
    requires OneReport(log) && Cleared(log) && log <= log1 && Untold(log, log1) && Accepted(log1)
    ensures OneReport(log1) && Cleared(log1)
  {
    forall a | |log| <= a < |log1| ensures !log1[a].Told? {
      assert log1[a] == log1[|log|..][a - |log|];
    }
    forall i, j | 0 <= i < j < |log1| && Reports(log1[i]) && Reports(log1[j]) ensures log1[i].id != log1[j].id {
      if j >= |log| && log1[i].id == log1[j].id {
        EndsOnce(log1, i, j);
        FinalReports(log1, j);
        assert log1[i] == Told(log1[j].id) && log1[i] in log;
        assert log1[j - 1] == Released(log1[j].id, log1[j - 1].how) && log1[j - 1] in log1;
        AbortedNeverReleases(log1, log1[j].id, log1[j - 1].how);
      }
    }
    forall id: nat | Told(id) in log1 ensures Aborted(id) in log1 {
      var a :| 0 <= a < |log1| && log1[a] == Told(id);
      assert Told(id) in log;
    }
  }

  /** A loop that returns tells transactions of the queue, each once, and then drops them. */
  lemma LoopReports(log: seq<Entry>, log1: seq<Entry>, ids: seq<nat>, queue: seq<nat>)
    requires OneReport(log) && Cleared(log) && Accepted(log)
    requires Tells(log, log1, ids) && ids <= queue && forall j :: 0 <= j < |ids| ==> ids[j] >= Parse(log).next
    ensures var log2 := log1 + Removals(queue, |ids|); OneReport(log2) && Cleared(log2)
  {
    var log2 := log1 + Removals(queue, |ids|);
    forall i, j | 0 <= i < j < |log2| && Reports(log2[i]) && Reports(log2[j]) ensures log2[i].id != log2[j].id {
      if i < |log| <= j {
        ReportedLeft(log, i);
        assert log2[j] == log1[j];
      }
    }
    forall id: nat | Told(id) in log2 ensures Aborted(id) in log2 {
      var a :| 0 <= a < |log2| && log2[a] == Told(id);
      if a < |log| {
        assert Told(id) in log && Aborted(id) in log;
      } else {
        var j :| 0 <= j < |ids| && ids[j] == id;
        assert Removals(queue, |ids|)[j] == Aborted(id);
        assert log2[|log1| + j] == Aborted(id);
      }
    }
  }

  /** Whoever has reported has left the queue. */
  lemma ReportedLeft(log: seq<Entry>, i: nat)
    requires Cleared(log) && Accepted(log) && i < |log| && Reports(log[i])
    ensures log[i].id < Parse(log).next
  {
    if log[i].Told? {
      assert log[i] in log;
      var a :| 0 <= a < |log| && log[a] == Aborted(log[i].id);
      IdsBelowNext(log, a);
    } else {
      IdsBelowNext(log, i);
    }
  }

  /** An open failure in which an abort callback throws out of the loop. */
  predicate LoopThrows(s: State, e: Event) {
    && e.OpenFails? && s.opens > 0 && !e.script.outcome.Throws?
    && var s0 := Perform(s, e.script.acts);
       s0.queue != [] && Known(s0.txs, s0.queue) && SomeCallbackThrows(s0.txs, s0.queue, e.aborts)
  }

  lemma ReplyUntold(s: State, k: nat, results: seq<bool>, scripts: seq<Script>, last: Script)
    requires k < |s.wire| && s.wire[k].id < |s.txs|
    ensures s.log <= Reply(s, k, results, scripts, last).log && Untold(s.log, Reply(s, k, results, scripts, last).log)
  {
    hide Complete, HandleFrom, Excused, Awaited, Orderly;
    var Outstanding(id, batch) := s.wire[k];
    var s1 := s.(wire := s.wire[..k] + s.wire[k + 1..]);
    HandleFromPersists(s1, id, batch, results, scripts, 0, None);
    HandleFromFollows(s1, id, batch, results, scripts, 0, None);
    var (s2, failure) := HandleFrom(s1, id, batch, results, scripts, 0, None);
    CompleteFollows(s2, id, failure.Some?, last);
    UntoldOn(s.log, s2.log, Verdict(s2, id, failure.Some?).log);
    UntoldOn(s.log, Verdict(s2, id, failure.Some?).log, Complete(s2, id, failure.Some?, last).log);
  }

  lemma FollowsUntold(s: State, s1: State)
    requires Follows(s, s1)
    ensures s.log <= s1.log && Untold(s.log, s1.log)
  {
  }

  lemma StepUntold(s: State, e: Event)
    requires !e.OpenFails? || e.script.outcome.Throws? || s.opens == 0
    ensures s.log <= Step(s, e).log && Untold(s.log, Step(s, e).log)
  {
    hide Follows, Untold, Perform, Act, Start, Reply;
    FollowsItself(s);
    FollowsUntold(s, s);
    match e
    case Call(a) => ActFollows(s, a); FollowsUntold(s, Act(s, a));
    case TickRuns(fn, last) => TickUntold(s, fn, last);
    case BatchReply(k, results, scripts, last) =>
      if k < |s.wire| && s.wire[k].id < |s.txs| { ReplyUntold(s, k, results, scripts, last); }
    case OpenSucceeds(script) =>
      if s.opens > 0 {
        var s1 := s.(opens := s.opens - 1);
        var s2 := if s1.db.NotOpen? then s1 else s1.(db := IsOpen);
        PerformFollows(s2, script.acts);
        FollowsUntold(s2, Perform(s2, script.acts));
      }
    case OpenFails(script, aborts) =>
      PerformFollows(s, script.acts);
      FollowsUntold(s, Perform(s, script.acts));
  }

  lemma TickUntold(s: State, fn: Script, last: Script)
    ensures s.log <= Tick(s, fn, last).log && Untold(s.log, Tick(s, fn, last).log)
  {
    hide Start;
    if s.ticks > 0 {
      var s1 := s.(ticks := s.ticks - 1);
      if CanStart(s1) {
        var s2 := Start(Shift(s1), s1.queue[0], fn, last);
        StartFollows(Shift(s1), s1.queue[0], fn, last);
        assert s2.log[|s.log|..] == [s2.log[|s.log|]] + s2.log[|s.log| + 1..];
      }
    }
  }

  lemma AbortAllReports(s: State, scripts: seq<Script>)
    requires Inv(s) && s.queue != [] && OneReport(s.log) && Cleared(s.log)
    requires Known(s.txs, s.queue) && !SomeCallbackThrows(s.txs, s.queue, scripts)
    ensures OneReport(AbortAll(s, scripts).log) && Cleared(AbortAll(s, scripts).log)
  {
    hide AbortFrom, SomeCallbackThrows, OneReport, Cleared, Tells, Removals;
    InvSteady(s);
    QueueAscends(s);
    QueueAhead(s);
    WholeLoopThrowsIff(s, s.queue, scripts);
    AbortFromTells(s, s.queue, scripts, 0);
    assert s.queue[0..] == s.queue;
    var s1 := AbortFrom(s, s.queue, scripts, 0).0;
    AbortFromQueue(s, s.queue, scripts, 0);
    LoopReports(s.log, s1.log, s.queue, s1.queue);
  }

  lemma QueueAhead(s: State)
    requires Inv(s)
    ensures Accepted(s.log) && forall j :: 0 <= j < |s.queue| ==> s.queue[j] >= Parse(s.log).next
  {
  }

  lemma StepReports(s: State, e: Event)
    requires Inv(s) && OneReport(s.log) && Cleared(s.log) && !LoopThrows(s, e) && !Step(s, e).misuse
    ensures OneReport(Step(s, e).log) && Cleared(Step(s, e).log)
  {
    hide OneReport, Cleared, Untold, Perform, AbortAll, Inv, SomeCallbackThrows;
    StepKeeps(s, e);
    if e.OpenFails? && s.opens > 0 && !e.script.outcome.Throws? {
      var s0 := Perform(s, e.script.acts);
      PerformFollows(s, e.script.acts);
      FollowsUntold(s, s0);
      OpensGrow(s, e.script.acts);
      var s1 := s0.(opens := s0.opens - 1, db := NotOpen);
      PerformKeepsInv(s, e.script.acts);
      AbortAllSticks(s1, e.aborts);
      OpenEnds(s0);
      QueueAhead(s0);
      UntoldReports(s.log, s0.log);
      if s0.queue != [] {
        QueueKnown(s0);
        AbortAllReports(s1, e.aborts);
      } else {
        NothingToAbort(s1, e.aborts);
      }
    } else {
      StepUntold(s, e);
      QueueAhead(Step(s, e));
      UntoldReports(s.log, Step(s, e).log);
    }
  }

  lemma NothingToAbort(s: State, scripts: seq<Script>)
    requires s.queue == []
    ensures AbortAll(s, scripts) == s
  {
  }

  predicate LoopsReturn(s: State, events: seq<Event>)
    decreases |events|
  {
    events == [] || (!LoopThrows(s, events[0]) && LoopsReturn(Step(s, events[0]), events[1..]))
  }

  lemma {:induction false} RunReports(s: State, events: seq<Event>)
    requires Inv(s) && !RunFrom(s, events).misuse && OneReport(s.log) && Cleared(s.log) && LoopsReturn(s, events)
    ensures OneReport(RunFrom(s, events).log) && Cleared(RunFrom(s, events).log)
    decreases |events|
  {
    hide Step, Inv, OneReport, Cleared, LoopThrows;
    if events != [] {
      var s1 := Step(s, events[0]);
      RunMisused(s1, events[1..]);
      StepKeeps(s, events[0]);
      StepReports(s, events[0]);
      RunReports(s1, events[1..]);
    }
  }

  /** Final callback exclusivity, over every run in which no abort callback throws: of the transaction-level callbacks
      of a transaction, in the queue or at its end, at most one runs, and at most once; and whoever has been told of a
      failure in the queue has left it. */
  lemma ReportsOnce(events: seq<Event>)
    requires !After(events).misuse && LoopsReturn(Initial, events)
    ensures OneReport(After(events).log) && Cleared(After(events).log) && !ToldAndQueued(After(events))
  {
    RunReports(Initial, events);
    EveryRun(events);
    var s := After(events);
    QueueAhead(s);
    forall id: nat | id in s.queue && Told(id) in s.log ensures false {
      var a :| 0 <= a < |s.log| && s.log[a] == Aborted(id);
      IdsBelowNext(s.log, a);
    }
  }
}
