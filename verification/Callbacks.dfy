/** Transaction-level callbacks: which one runs at the end of a transaction, exactly when, and whose handlers count. */
module Callbacks {
  import opened Statements
  import opened Protocol
  import opened Scheduler
  import opened Invariant
  import opened Histories
  import opened Runs
  import opened Steps
  import opened Lifecycle
  import opened OpenFailures
  import opened Transitions

  /** The callbacks a request asks for; those of a multi-part transaction may still be replaced. */
  function Asked(r: Request): Handler {
    match r
    case Transaction(onSuccess, onError) => Handler(false, onSuccess, onError)
    case ReadTransaction(onSuccess, onError) => Handler(false, onSuccess, onError)
    case Batch(_, onSuccess, onError) => Handler(false, onSuccess, onError)
    case Single(_, _) => Handler(false, false, false)
    case MultiPart(onError) => Handler(true, false, onError)
  }

  predicate Next(log: seq<Entry>, i: nat, e: Entry) {
    i + 1 < |log| && log[i + 1] == e
  }

  /** The release is followed at once by the success callback, or the error callback, if `h` has it and the release
      calls for it, and by neither otherwise. */
  predicate Reported(log: seq<Entry>, i: nat, h: Handler)
    requires i < |log| && log[i].Released?
  {
    var Released(id, how) := log[i];
    && (Next(log, i, Final(id, true)) <==> h.onSuccess && (how == CommitOk || how == PlainOk))
    && (Next(log, i, Final(id, false)) <==> h.onError && how != CommitOk && how != PlainOk)
  }

  // ---- what every piece of a run adds

  predicate KeptCallbacks(t: Tx) {
    !t.request.MultiPart? ==> HandlerOf(t) == Asked(t.request)
  }

  predicate Faithful(txs: seq<Tx>) {
    forall i :: 0 <= i < |txs| ==> KeptCallbacks(txs[i])
  }

  predicate ReportedFrom(s: State, n: nat) {
    && (n < |s.log| ==> !s.log[n].Final?)
    && forall i :: n <= i < |s.log| && s.log[i].Released? ==>
         && s.log[i].id < |s.txs|
         && var r := s.txs[s.log[i].id].request; (!r.MultiPart? ==> Reported(s.log, i, Asked(r)))
  }

  /** From `s` to `s1` requests stay, and what is logged reports as asked. */
  predicate Onward(s: State, s1: State) {
    && |s.txs| <= |s1.txs| && s.log <= s1.log
    && (forall i :: 0 <= i < |s.txs| ==> s1.txs[i].request == s.txs[i].request)
    && (Faithful(s.txs) ==> Faithful(s1.txs) && ReportedFrom(s1, |s.log|))
  }

  lemma OnwardOn(s: State, s1: State, s2: State)
    requires Onward(s, s1) && Onward(s1, s2)
    ensures Onward(s, s2)
  {
    hide Faithful, Asked;
  }

  /** Nothing is logged but entries of other kinds. */
  predicate Unreleased(log: seq<Entry>, log1: seq<Entry>) {
    log <= log1 && forall i :: |log| <= i < |log1| ==> !log1[i].Released? && !log1[i].Final?
  }

  lemma QuietOnward(s: State, s1: State)
    requires |s.txs| <= |s1.txs| && Unreleased(s.log, s1.log)
    requires forall i :: 0 <= i < |s.txs| ==> Older(s.txs[i], s1.txs[i])
    requires forall i :: |s.txs| <= i < |s1.txs| ==> KeptCallbacks(s1.txs[i])
    ensures Onward(s, s1)
  {
  }

  lemma EffectKeepsCallbacks(s: State, a: Action)
    ensures var s1 := Effect(s, a);
            |s.txs| <= |s1.txs| && forall i :: |s.txs| <= i < |s1.txs| ==> KeptCallbacks(s1.txs[i])
  {
    hide DoEnd, DoAbort, DoExecuteSql, NewTx, KeptCallbacks;
    match a
    case Enqueue(r) => NewKeepsCallbacks(r);
    case End(tx, ok, err) => if tx < |s.txs| { EndHandler(s, tx, ok, err, tx); }
    case ExecuteSql(tx, text, params, ok, err) =>
      if tx < |s.txs| { ExecuteSqlHandler(s, tx, Sql(text, params, ok, err), tx); }
    case Abort(tx, err) => if tx < |s.txs| { AbortHandler(s, tx, err, tx); }
    case _ =>
  }

  lemma NewKeepsCallbacks(r: Request)
    ensures KeptCallbacks(NewTx(r))
  {
  }

  lemma {:induction false} PerformKeepsCallbacks(s: State, acts: seq<Action>)
    ensures var s1 := Perform(s, acts); Faithful(s.txs) ==> Faithful(s1.txs)
    decreases |acts|
  {
    hide Effect, KeptCallbacks;
    if acts != [] {
      ActFollows(s, acts[0]);
      EffectKeepsCallbacks(s, acts[0]);
      OlderKeeps(s.txs, Act(s, acts[0]).txs);
      PerformKeepsCallbacks(Act(s, acts[0]), acts[1..]);
    }
  }

  lemma OlderKeeps(txs: seq<Tx>, txs1: seq<Tx>)
    requires |txs| <= |txs1| && forall i :: 0 <= i < |txs| ==> Older(txs[i], txs1[i])
    requires forall i :: |txs| <= i < |txs1| ==> KeptCallbacks(txs1[i])
    ensures Faithful(txs) ==> Faithful(txs1)
  {
  }

  lemma PerformOnward(s: State, acts: seq<Action>)
    ensures Onward(s, Perform(s, acts))
  {
    hide Perform;
    PerformFollows(s, acts);
    PerformKeepsCallbacks(s, acts);
    if Faithful(s.txs) {
      assert Steady(s);
      PerformCalm(s, acts);
      var s1 := Perform(s, acts);
      forall i | |s.log| <= i < |s1.log| ensures s1.log[i].Sent? {
        assert s1.log[i] == s1.log[|s.log|..][i - |s.log|];
      }
    }
  }

  lemma ReleaseOnward(s: State, id: nat, how: How)
    requires id < |s.txs|
    ensures Onward(s, Release(s, id, how))
  {
  }

  lemma SettleOnward(s: State, id: nat, how: How, script: Script)
    requires id < |s.txs|
    ensures Onward(s, Settle(s, id, how, script).0)
  {
    hide Release, Perform, Onward;
    ReleaseOnward(s, id, how);
    PerformOnward(Release(s, id, how), script.acts);
    OnwardOn(s, Release(s, id, how), Perform(Release(s, id, how), script.acts));
  }

  lemma HandleOnward(s: State, id: nat, st: Statement, ok: bool, script: Script)
    requires id < |s.txs|
    ensures Onward(s, Handle(s, id, st, ok, script).0)
  {
    hide Settle, Perform, Onward;
    if Settles(st) {
      SettleOnward(s, id, SettledBy(st, ok), script);
    } else {
      HandlerCalls(s, id, st, ok, script);
      PerformOnward(s, CallsOf(st, ok, script));
    }
  }

  lemma {:induction false} HandleFromOnward(s: State, id: nat, batch: seq<Statement>, results: seq<bool>,
                                            scripts: seq<Script>, i: nat, failure: Option<nat>)
    requires id < |s.txs| && i <= |batch|
    ensures Onward(s, HandleFrom(s, id, batch, results, scripts, i, failure).0)
    decreases |batch| - i
  {
    hide Handle, HandleFrom, Onward;
    if i < |batch| {
      HandleFromStep(s, id, batch, results, scripts, i, failure);
      var st, ok, script := batch[i], Nth(results, i, false), Nth(scripts, i, Quiet);
      HandleOnward(s, id, st, ok, script);
      var (s1, threw) := Handle(s, id, st, ok, script);
      var failure1 := if threw && failure.None? then Some(i) else failure;
      HandleFromOnward(s1, id, batch, results, scripts, i + 1, failure1);
      OnwardOn(s, s1, HandleFrom(s1, id, batch, results, scripts, i + 1, failure1).0);
    } else {
      HandleFromEnd(s, id, batch, results, scripts, failure);
      SameOnward(s, s);
    }
  }

  lemma SameOnward(s: State, s1: State)
    requires s1.txs == s.txs && Unreleased(s.log, s1.log)
    ensures Onward(s, s1)
  {
    QuietOnward(s, s1);
  }

  /** One transaction object has moved on. */
  lemma OneOnward(s: State, s1: State, id: nat)
    requires id < |s.txs| == |s1.txs| && s1.txs == s.txs[id := s1.txs[id]] && Older(s.txs[id], s1.txs[id])
    requires Unreleased(s.log, s1.log)
    ensures Onward(s, s1)
  {
    QuietOnward(s, s1);
  }

  lemma ConcludeOnward(s: State, id: nat, failed: bool)
    requires id < |s.txs|
    ensures Onward(s, Conclude(s, id, failed))
  {
    var t := s.txs[id];
    if t.finalized {
      SameOnward(s, s);
    } else if Locking(t.request) {
      OneOnward(s, Conclude(s, id, failed), id);
    } else {
      var s1 := s.(txs := s.txs[id := t.(finalized := true)]);
      OneOnward(s, s1, id);
      ReleaseOnward(s1, id, if failed then PlainFailed else PlainOk);
      hide Onward, Release;
      OnwardOn(s, s1, Conclude(s, id, failed));
    }
  }

  lemma CompleteOnward(s: State, id: nat, failed: bool, script: Script)
    requires id < |s.txs|
    ensures Onward(s, Complete(s, id, failed, script))
  {
    hide Conclude, Perform, Onward, Run;
    var t := s.txs[id];
    var s1 := if t.finalized then s else Logged(s, Answered(id, failed));
    SameOnward(s, s1);
    if !failed && t.executes != [] {
      RunOnward(s1, id);
      OnwardOn(s, s1, Run(s1, id));
    } else if !failed && t.canPause {
      OneOnward(s, Complete(s, id, failed, script), id);
    } else {
      ConcludeOnward(s1, id, failed);
      var s2 := Conclude(s1, id, failed);
      OnwardOn(s, s1, s2);
      PerformOnward(s2, script.acts);
      OnwardOn(s, s2, Perform(s2, script.acts));
    }
  }

  lemma RunOnward(s: State, id: nat)
    requires id < |s.txs|
    ensures Onward(s, Run(s, id))
  {
    OneOnward(s, Run(s, id), id);
  }

  lemma ReplyOnward(s: State, k: nat, results: seq<bool>, scripts: seq<Script>, last: Script)
    requires k < |s.wire| && s.wire[k].id < |s.txs|
    ensures Onward(s, Reply(s, k, results, scripts, last))
  {
    hide Complete, HandleFrom, Onward;
    var Outstanding(id, batch) := s.wire[k];
    var s1 := s.(wire := s.wire[..k] + s.wire[k + 1..]);
    SameOnward(s, s1);
    HandleFromPersists(s1, id, batch, results, scripts, 0, None);
    HandleFromOnward(s1, id, batch, results, scripts, 0, None);
    var (s2, failure) := HandleFrom(s1, id, batch, results, scripts, 0, None);
    OnwardOn(s, s1, s2);
    CompleteOnward(s2, id, failure.Some?, last);
    OnwardOn(s, s2, Complete(s2, id, failure.Some?, last));
  }

  lemma StartOnward(s: State, id: nat, fn: Script, last: Script)
    requires id < |s.txs|
    ensures Onward(s, Start(s, id, fn, last))
  {
    hide Settle, Perform, Onward, Run, PluginBody;
    PerformPersists(s, fn.acts, id);
    var r := s.txs[id].request;
    var s1 := if UserBody(r) then Perform(s, fn.acts) else Queued(s, id, PluginBody(r));
    PerformOnward(s, fn.acts);
    OneOnward(s, Queued(s, id, PluginBody(r)), id);
    SettleOnward(s1, id, FnThrew, last);
    OnwardOn(s, s1, Settle(s1, id, FnThrew, last).0);
    RunOnward(s1, id);
    OnwardOn(s, s1, Run(s1, id));
  }

  lemma TickOnward(s: State, fn: Script, last: Script)
    ensures Onward(s, Tick(s, fn, last))
  {
    hide Start, Onward;
    SameOnward(s, s);
    if s.ticks > 0 {
      var s1 := s.(ticks := s.ticks - 1);
      SameOnward(s, s1);
      if CanStart(s1) {
        SameOnward(s, Shift(s1));
        StartOnward(Shift(s1), s1.queue[0], fn, last);
        OnwardOn(s, Shift(s1), Tick(s, fn, last));
      }
    }
  }

  lemma OpenOkOnward(s: State, script: Script)
    ensures Onward(s, OpenOk(s, script))
  {
    hide Perform, Onward;
    var s1 := if s.db.NotOpen? then s else s.(db := IsOpen);
    SameOnward(s, s1);
    PerformOnward(s1, script.acts);
    var s2 := Perform(s1, script.acts);
    OnwardOn(s, s1, s2);
    SameOnward(s2, OpenOk(s, script));
    OnwardOn(s, s2, OpenOk(s, script));
  }

  lemma {:induction false} AbortFromOnward(s: State, ids: seq<nat>, scripts: seq<Script>, i: nat)
    requires i <= |ids|
    ensures Onward(s, AbortFrom(s, ids, scripts, i).0)
    decreases |ids| - i
  {
    hide AbortFrom, Perform, Onward;
    SameOnward(s, s);
    if i == |ids| {
      AbortFromEnd(s, ids, scripts);
    } else {
      var script := Nth(scripts, i, Quiet);
      AbortFromStep(s, ids, scripts, i);
      var s0 := Logged(s, Told(ids[i]));
      SameOnward(s, s0);
      PerformOnward(s0, script.acts);
      OnwardOn(s, s0, Perform(s0, script.acts));
      var s1 := AbortOne(s, ids[i], script).0;
      AbortFromOnward(s1, ids, scripts, i + 1);
      OnwardOn(s, s1, AbortFrom(s1, ids, scripts, i + 1).0);
    }
  }

  lemma AbortAllOnward(s: State, scripts: seq<Script>)
    ensures Onward(s, AbortAll(s, scripts))
  {
    hide AbortFrom, Onward;
    SameOnward(s, s);
    if s.queue != [] {
      AbortFromOnward(s, s.queue, scripts, 0);
      var s1 := AbortFrom(s, s.queue, scripts, 0).0;
      SameOnward(s1, EmptyQueue(s1, |s.queue|));
      OnwardOn(s, s1, EmptyQueue(s1, |s.queue|));
    }
  }

  lemma OpenFailOnward(s: State, script: Script, scripts: seq<Script>)
    ensures Onward(s, OpenFail(s, script, scripts))
  {
    hide AbortAll, Perform, Onward;
    PerformOnward(s, script.acts);
    var s1 := Perform(s, script.acts);
    var s2 := if s1.opens == 0 then s1 else s1.(opens := s1.opens - 1);
    var s3 := s2.(db := NotOpen);
    SameOnward(s1, s2);
    SameOnward(s1, s3);
    OnwardOn(s, s1, s2);
    OnwardOn(s, s1, s3);
    AbortAllOnward(s3, scripts);
    OnwardOn(s, s3, AbortAll(s3, scripts));
  }

  lemma StepOnward(s: State, e: Event)
    ensures Onward(s, Step(s, e))
  {
    hide Act, Reply, Tick, OpenOk, OpenFail, Perform, Onward;
    SameOnward(s, s);
    match e
    case Call(a) => OneCall(s, a); PerformOnward(s, [a]);
    case TickRuns(fn, last) => TickOnward(s, fn, last);
    case BatchReply(k, results, scripts, last) =>
      if k < |s.wire| && s.wire[k].id < |s.txs| { ReplyOnward(s, k, results, scripts, last); }
    case OpenSucceeds(script) =>
      if s.opens > 0 {
        var s1 := s.(opens := s.opens - 1);
        SameOnward(s, s1);
        OpenOkOnward(s1, script);
        OnwardOn(s, s1, OpenOk(s1, script));
      }
    case OpenFails(script, aborts) => if s.opens > 0 { OpenFailOnward(s, script, aborts); }
  }

  lemma OneCall(s: State, a: Action)
    ensures Perform(s, [a]) == Act(s, a)
  {
    assert Perform(Act(s, a), []) == Act(s, a);
  }

  lemma {:induction false} RunFromOnward(s: State, events: seq<Event>)
    ensures Onward(s, RunFrom(s, events))
    decreases |events|
  {
    hide Step, Onward;
    if events == [] {
      SameOnward(s, s);
    } else {
      StepOnward(s, events[0]);
      RunFromOnward(Step(s, events[0]), events[1..]);
      OnwardOn(s, Step(s, events[0]), RunFrom(s, events));
    }
  }

  /** Final callbacks, over every run, misused or not.  A transaction that cannot be continued is released with its
      success callback right behind, if one was given, exactly if its COMMIT, or its plain statements, succeeded; with
      its error callback, if one was given, exactly if not.  `executeSql` on the database gives neither. */
  lemma FinalsOfRuns(events: seq<Event>, i: nat, id: nat, how: How)
    requires i < |After(events).log| && After(events).log[i] == Released(id, how)
    ensures var s := After(events);
            && id < |s.txs|
            && var r := s.txs[id].request;
               !r.MultiPart? ==>
                 && (Next(s.log, i, Final(id, true)) <==>
                       !r.Single? && r.onSuccess && (how == CommitOk || how == PlainOk))
                 && (Next(s.log, i, Final(id, false)) <==>
                       !r.Single? && r.onError && how != CommitOk && how != PlainOk)
  {
    RunFromOnward(Initial, events);
  }

  // ---- whose callbacks count for a multi-part transaction

  /** The calls of a final callback. */
  function FinalCalls(t: Tx, how: How, script: Script): seq<Action> {
    if (if how == CommitOk || how == PlainOk then t.onSuccess else t.onError) then script.acts else []
  }

  /** All calls made by the handlers of a batch from statement `i` on, final callbacks included. */
  function BatchCalls(s: State, id: nat, batch: seq<Statement>, results: seq<bool>, scripts: seq<Script>,
                      i: nat): seq<Action>
    requires id < |s.txs| && i <= |batch|
    decreases |batch| - i
  {
    if i == |batch| then [] else
    var st, ok, script := batch[i], Nth(results, i, false), Nth(scripts, i, Quiet);
    HandlePersists(s, id, st, ok, script);
    (if Settles(st) then FinalCalls(s.txs[id], SettledBy(st, ok), script) else CallsOf(st, ok, script))
    + BatchCalls(Handle(s, id, st, ok, script).0, id, batch, results, scripts, i + 1)
  }

  /** The calls made when all handlers of a batch have run: those of the final callback of a plain transaction. */
  function CompletionCalls(t: Tx, failed: bool, last: Script): seq<Action> {
    if t.finalized || Locking(t.request) || (!failed && (t.executes != [] || t.canPause)) then []
    else FinalCalls(t, if failed then PlainFailed else PlainOk, last)
  }

  /** All calls made in the course of an event, in order. */
  function CallsIn(s: State, e: Event): seq<Action> {
    match e
    case Call(a) => [a]
    case TickRuns(fn, last) =>
      if s.ticks == 0 || !CanStart(s) || !UserBody(s.txs[s.queue[0]].request) then []
      else
        var s1 := Shift(s.(ticks := s.ticks - 1));
        PerformPersists(s1, fn.acts, s.queue[0]);
        fn.acts + (if fn.outcome.Throws? then FinalCalls(Perform(s1, fn.acts).txs[s.queue[0]], FnThrew, last) else [])
    case BatchReply(k, results, scripts, last) =>
      if k >= |s.wire| || s.wire[k].id >= |s.txs| then [] else
      var Outstanding(id, batch) := s.wire[k];
      var s1 := s.(wire := s.wire[..k] + s.wire[k + 1..]);
      HandleFromPersists(s1, id, batch, results, scripts, 0, None);
      var (s2, failure) := HandleFrom(s1, id, batch, results, scripts, 0, None);
      BatchCalls(s1, id, batch, results, scripts, 0)
      + (if batch == [] then [] else CompletionCalls(s2.txs[id], failure.Some?, last))
    case OpenSucceeds(script) => if s.opens == 0 then [] else script.acts
    case OpenFails(script, aborts) => if s.opens == 0 then [] else FailureCalls(s, script, aborts)
  }

  function CallsDuring(s: State, events: seq<Event>): seq<Action>
    decreases |events|
  {
    if events == [] then [] else CallsIn(s, events[0]) + CallsDuring(Step(s, events[0]), events[1..])
  }

  /** From `s` to `s1` callbacks change as the calls `acts` change them, and not otherwise. */
  predicate Hears(s: State, s1: State, acts: seq<Action>) {
    && |s.txs| <= |s1.txs|
    && forall id: nat :: id < |s.txs| ==> HandlerOf(s1.txs[id]) == AfterCalls(HandlerOf(s.txs[id]), id, acts)
  }

  lemma HearsOn(s: State, s1: State, s2: State, a: seq<Action>, b: seq<Action>)
    requires Hears(s, s1, a) && Hears(s1, s2, b)
    ensures Hears(s, s2, a + b)
  {
    hide AfterCalls;
    forall id: nat | id < |s.txs| ensures HandlerOf(s2.txs[id]) == AfterCalls(HandlerOf(s.txs[id]), id, a + b) {
      AfterMoreCalls(HandlerOf(s.txs[id]), id, a, b);
    }
  }

  /** No call: the callbacks stay. */
  lemma HearsNothing(s: State, s1: State)
    requires |s1.txs| == |s.txs| && forall id :: 0 <= id < |s.txs| ==> HandlerOf(s1.txs[id]) == HandlerOf(s.txs[id])
    ensures Hears(s, s1, [])
  {
  }

  lemma PerformHears(s: State, acts: seq<Action>)
    ensures Hears(s, Perform(s, acts), acts)
  {
    hide Perform, AfterCalls;
    PerformFollows(s, acts);
    forall id: nat | id < |s.txs|
      ensures HandlerOf(Perform(s, acts).txs[id]) == AfterCalls(HandlerOf(s.txs[id]), id, acts)
    {
      PerformHandler(s, acts, id);
    }
  }

  /** First no call, then some. */
  lemma ThenHears(s: State, s1: State, s2: State, acts: seq<Action>)
    requires Hears(s, s1, []) && Hears(s1, s2, acts)
    ensures Hears(s, s2, acts)
  {
    HearsOn(s, s1, s2, [], acts);
    assert [] + acts == acts;
  }

  lemma HearsThen(s: State, s1: State, s2: State, acts: seq<Action>)
    requires Hears(s, s1, acts) && Hears(s1, s2, [])
    ensures Hears(s, s2, acts)
  {
    HearsOn(s, s1, s2, acts, []);
    assert acts + [] == acts;
  }

  lemma SettleHears(s: State, id: nat, how: How, script: Script)
    requires id < |s.txs|
    ensures Hears(s, Settle(s, id, how, script).0, FinalCalls(s.txs[id], how, script))
  {
    hide Perform, Hears;
    HearsNothing(s, Release(s, id, how));
    PerformHears(Release(s, id, how), script.acts);
    ThenHears(s, Release(s, id, how), Perform(Release(s, id, how), script.acts), script.acts);
  }

  lemma HandleHears(s: State, id: nat, st: Statement, ok: bool, script: Script)
    requires id < |s.txs|
    ensures Hears(s, Handle(s, id, st, ok, script).0,
                  if Settles(st) then FinalCalls(s.txs[id], SettledBy(st, ok), script) else CallsOf(st, ok, script))
  {
    hide Perform, Settle, Hears;
    if Settles(st) {
      SettleHears(s, id, SettledBy(st, ok), script);
    } else {
      HandlerCalls(s, id, st, ok, script);
      PerformHears(s, CallsOf(st, ok, script));
    }
  }

  lemma {:induction false} HandleFromHears(s: State, id: nat, batch: seq<Statement>, results: seq<bool>,
                                           scripts: seq<Script>, i: nat, failure: Option<nat>)
    requires id < |s.txs| && i <= |batch|
    ensures Hears(s, HandleFrom(s, id, batch, results, scripts, i, failure).0,
                  BatchCalls(s, id, batch, results, scripts, i))
    decreases |batch| - i
  {
    hide Handle, HandleFrom, Hears;
    if i < |batch| {
      HandleFromStep(s, id, batch, results, scripts, i, failure);
      var st, ok, script := batch[i], Nth(results, i, false), Nth(scripts, i, Quiet);
      HandleHears(s, id, st, ok, script);
      var (s1, threw) := Handle(s, id, st, ok, script);
      var failure1 := if threw && failure.None? then Some(i) else failure;
      HandleFromHears(s1, id, batch, results, scripts, i + 1, failure1);
      HearsOn(s, s1, HandleFrom(s1, id, batch, results, scripts, i + 1, failure1).0,
              if Settles(st) then FinalCalls(s.txs[id], SettledBy(st, ok), script) else CallsOf(st, ok, script),
              BatchCalls(s1, id, batch, results, scripts, i + 1));
    } else {
      HandleFromEnd(s, id, batch, results, scripts, failure);
      HearsNothing(s, s);
    }
  }

  lemma ConcludeHears(s: State, id: nat, failed: bool)
    requires id < |s.txs|
    ensures Hears(s, Conclude(s, id, failed), [])
  {
    hide Conclude, Locking;
    var t := s.txs[id];
    if t.finalized {
      AlreadyConcluded(s, id, failed);
      HearsNothing(s, s);
    } else if Locking(t.request) {
      Concluded(s, id, failed);
      HearsNothing(s, Conclude(s, id, failed));
    } else {
      ConcludedPlain(s, id, failed);
      HearsNothing(s, Conclude(s, id, failed));
    }
  }

  lemma AlreadyConcluded(s: State, id: nat, failed: bool)
    requires id < |s.txs| && s.txs[id].finalized
    ensures Conclude(s, id, failed) == s
  {
  }

  lemma CompleteHears(s: State, id: nat, failed: bool, last: Script)
    requires id < |s.txs|
    ensures Hears(s, Complete(s, id, failed, last), CompletionCalls(s.txs[id], failed, last))
  {
    hide Conclude, Perform, Hears;
    var t := s.txs[id];
    var s1 := if t.finalized then s else Logged(s, Answered(id, failed));
    HearsNothing(s, s1);
    if !failed && (t.executes != [] || t.canPause) {
      HearsNothing(s, Complete(s, id, failed, last));
    } else {
      var s2 := Conclude(s1, id, failed);
      ConcludeHears(s1, id, failed);
      ThenHears(s, s1, s2, []);
      PerformHears(s2, last.acts);
      ThenHears(s, s2, Perform(s2, last.acts), last.acts);
    }
  }

  lemma ReplyHears(s: State, k: nat, results: seq<bool>, scripts: seq<Script>, last: Script)
    requires k < |s.wire| && s.wire[k].id < |s.txs|
    ensures Hears(s, Reply(s, k, results, scripts, last), CallsIn(s, BatchReply(k, results, scripts, last)))
  {
    hide Complete, HandleFrom, Hears, BatchCalls, CompletionCalls;
    var Outstanding(id, batch) := s.wire[k];
    var s1 := s.(wire := s.wire[..k] + s.wire[k + 1..]);
    HearsNothing(s, s1);
    HandleFromPersists(s1, id, batch, results, scripts, 0, None);
    HandleFromHears(s1, id, batch, results, scripts, 0, None);
    var (s2, failure) := HandleFrom(s1, id, batch, results, scripts, 0, None);
    var calls := BatchCalls(s1, id, batch, results, scripts, 0);
    ThenHears(s, s1, s2, calls);
    if batch == [] {
      assert calls + [] == calls;
    } else {
      CompleteHears(s2, id, failure.Some?, last);
      HearsOn(s, s2, Complete(s2, id, failure.Some?, last), calls, CompletionCalls(s2.txs[id], failure.Some?, last));
    }
  }

  lemma StartHears(s: State, id: nat, fn: Script, last: Script)
    requires id < |s.txs|
    ensures id < |Perform(s, fn.acts).txs|
    ensures Hears(s, Start(s, id, fn, last),
                  if !UserBody(s.txs[id].request) then []
                  else fn.acts + (if fn.outcome.Throws? then FinalCalls(Perform(s, fn.acts).txs[id], FnThrew, last)
                                  else []))
  {
    hide Perform, Settle, Hears, PluginBody, FinalCalls;
    PerformPersists(s, fn.acts, id);
    var r := s.txs[id].request;
    var s1 := Perform(s, fn.acts);
    if UserBody(r) {
      PerformHears(s, fn.acts);
      SettleHears(s1, id, FnThrew, last);
      HearsOn(s, s1, Settle(s1, id, FnThrew, last).0, fn.acts, FinalCalls(s1.txs[id], FnThrew, last));
      HearsNothing(s1, Run(s1, id));
      HearsNothing(s1, s1);
      HearsOn(s, s1, Run(s1, id), fn.acts, []);
      HearsOn(s, s1, s1, fn.acts, []);
    } else {
      HearsNothing(s, Start(s, id, fn, last));
    }
  }

  lemma TickHears(s: State, fn: Script, last: Script)
    ensures Hears(s, Tick(s, fn, last), CallsIn(s, TickRuns(fn, last)))
  {
    hide Start, Hears, Perform, FinalCalls;
    if s.ticks == 0 || !CanStart(s) {
      HearsNothing(s, Tick(s, fn, last));
    } else {
      var s1 := Shift(s.(ticks := s.ticks - 1));
      HearsNothing(s, s1);
      StartHears(s1, s.queue[0], fn, last);
      ThenHears(s, s1, Start(s1, s.queue[0], fn, last), CallsIn(s, TickRuns(fn, last)));
    }
  }

  lemma {:induction false} LoopHears(s: State, ids: seq<nat>, scripts: seq<Script>, i: nat)
    requires i <= |ids|
    ensures Hears(s, AbortFrom(s, ids, scripts, i).0, LoopCalls(s, ids, scripts, i))
    decreases |ids| - i
  {
    hide AbortFrom, Perform, Hears;
    HearsNothing(s, s);
    if i == |ids| {
      AbortFromEnd(s, ids, scripts);
    } else {
      var script := Nth(scripts, i, Quiet);
      AbortFromStep(s, ids, scripts, i);
      var s0 := Logged(s, Told(ids[i]));
      HearsNothing(s, s0);
      PerformHears(s0, script.acts);
      ThenHears(s, s0, Perform(s0, script.acts), script.acts);
      var (s1, threw) := AbortOne(s, ids[i], script);
      var calls := if ids[i] < |s.txs| && s.txs[ids[i]].onError then script.acts else [];
      assert Hears(s, s1, calls);
      if threw {
        assert calls + [] == calls;
      } else {
        LoopHears(s1, ids, scripts, i + 1);
        HearsOn(s, s1, AbortFrom(s1, ids, scripts, i + 1).0, calls, LoopCalls(s1, ids, scripts, i + 1));
      }
    }
  }

  lemma AbortAllHears(s: State, scripts: seq<Script>)
    ensures Hears(s, AbortAll(s, scripts), LoopCalls(s, s.queue, scripts, 0))
  {
    hide AbortFrom, Hears;
    if s.queue == [] {
      HearsNothing(s, s);
    } else {
      LoopHears(s, s.queue, scripts, 0);
      var s1 := AbortFrom(s, s.queue, scripts, 0).0;
      HearsNothing(s1, EmptyQueue(s1, |s.queue|));
      HearsThen(s, s1, EmptyQueue(s1, |s.queue|), LoopCalls(s, s.queue, scripts, 0));
    }
  }

  lemma OpenFailHears(s: State, script: Script, scripts: seq<Script>)
    ensures Hears(s, OpenFail(s, script, scripts), FailureCalls(s, script, scripts))
  {
    hide AbortAll, Perform, Hears, LoopCalls;
    PerformHears(s, script.acts);
    var s1 := Perform(s, script.acts);
    var s2 := if s1.opens == 0 then s1 else s1.(opens := s1.opens - 1);
    var s3 := s2.(db := NotOpen);
    HearsNothing(s1, s2);
    HearsNothing(s1, s3);
    HearsThen(s, s1, s2, script.acts);
    HearsThen(s, s1, s3, script.acts);
    AbortAllHears(s3, scripts);
    HearsOn(s, s3, AbortAll(s3, scripts), script.acts, LoopCalls(s3, s3.queue, scripts, 0));
    assert script.acts + [] == script.acts;
  }

  lemma OpenOkHears(s: State, script: Script)
    ensures Hears(s, OpenOk(s, script), script.acts)
  {
    hide Perform, Hears;
    var s1 := if s.db.NotOpen? then s else s.(db := IsOpen);
    HearsNothing(s, s1);
    PerformHears(s1, script.acts);
    ThenHears(s, s1, Perform(s1, script.acts), script.acts);
    HearsNothing(Perform(s1, script.acts), OpenOk(s, script));
    HearsThen(s, Perform(s1, script.acts), OpenOk(s, script), script.acts);
  }

  lemma StepHears(s: State, e: Event)
    ensures Hears(s, Step(s, e), CallsIn(s, e))
  {
    hide Act, Reply, Tick, OpenOk, OpenFail, Perform, Hears, BatchCalls, CompletionCalls, FailureCalls, FinalCalls;
    HearsNothing(s, s);
    match e
    case Call(a) => OneCall(s, a); PerformHears(s, [a]);
    case TickRuns(fn, last) => TickHears(s, fn, last);
    case BatchReply(k, results, scripts, last) =>
      if k < |s.wire| && s.wire[k].id < |s.txs| { ReplyHears(s, k, results, scripts, last); }
    case OpenSucceeds(script) =>
      if s.opens > 0 {
        var s1 := s.(opens := s.opens - 1);
        HearsNothing(s, s1);
        OpenOkHears(s1, script);
        ThenHears(s, s1, OpenOk(s1, script), script.acts);
      }
    case OpenFails(script, aborts) => if s.opens > 0 { OpenFailHears(s, script, aborts); }
  }

  /** Over every run the callbacks of a transaction are those of its request, or those that the first effective `end`
      or `abort` of all the calls made since has given. */
  lemma {:induction false} RunHears(s: State, events: seq<Event>)
    ensures Hears(s, RunFrom(s, events), CallsDuring(s, events))
    decreases |events|
  {
    hide Step, Hears, CallsIn;
    if events == [] {
      HearsNothing(s, s);
    } else {
      StepHears(s, events[0]);
      RunHears(Step(s, events[0]), events[1..]);
      HearsOn(s, Step(s, events[0]), RunFrom(s, events), CallsIn(s, events[0]),
              CallsDuring(Step(s, events[0]), events[1..]));
    }
  }

  /** `id` is the multi-part transaction that `beginTransaction` creates after the first events. */
  predicate BeginsMultiPart(before: seq<Event>, id: nat) {
    !After(before).db.NotOpen? && id == |After(before).txs|
  }

  lemma NewMultiPart(before: seq<Event>, onError: bool, during: seq<Event>, id: nat)
    requires BeginsMultiPart(before, id)
    ensures var s := Step(After(before), Call(Enqueue(MultiPart(onError)))); var s1 := RunFrom(s, during);
            id < |s1.txs| && HandlerOf(s1.txs[id])
                             == AfterCalls(Handler(true, false, onError), id, CallsDuring(s, during))
  {
    hide Perform, AfterCalls, CallsDuring, RunFrom;
    Enqueues(After(before), MultiPart(onError));
    RunHears(Step(After(before), Call(Enqueue(MultiPart(onError)))), during);
  }

  /** The final callback of a multi-part transaction, over every run: when its COMMIT or ROLLBACK is answered, it is
      released, and the callback that runs right behind is one given by the first `end` or `abort` among all the calls
      made since its creation, in whatever callbacks, or else the error callback of `beginTransaction`. */
  lemma FinalsOfMultiParts(before: seq<Event>, onError: bool, during: seq<Event>, k: nat, results: seq<bool>,
                           scripts: seq<Script>, last: Script, later: seq<Event>, id: nat, batch: seq<Statement>)
    requires BeginsMultiPart(before, id) && SettlesBatch(batch)
    requires var s := RunFrom(Step(After(before), Call(Enqueue(MultiPart(onError)))), during);
             && k < |s.wire| && s.wire[k] == Outstanding(id, batch)
             && !Step(s, BatchReply(k, results, scripts, last)).misuse
    ensures var s0 := Step(After(before), Call(Enqueue(MultiPart(onError))));
            var s := RunFrom(s0, during);
            var n := |batch| - 1;
            var calls := CallsDuring(s0, during) + HandledCalls(batch, results, scripts, 0, n);
            var log := RunFrom(Step(s, BatchReply(k, results, scripts, last)), later).log;
            && s.log < log && log[|s.log|] == Released(id, SettledBy(batch[n], Nth(results, n, false)))
            && Reported(log, |s.log|, AfterCalls(Handler(true, false, onError), id, calls))
  {
    hide Perform, AfterCalls, CallsDuring, RunFrom, Inv, HandledCalls, Reported, Onward, Faithful, Reply;
    var e := Call(Enqueue(MultiPart(onError)));
    var s0 := Step(After(before), e);
    var s := RunFrom(s0, during);
    RunSnoc(Initial, before, e);
    RunAppend(Initial, before + [e], during);
    NewMultiPart(before, onError, during, id);
    StepSticks(s, BatchReply(k, results, scripts, last));
    EveryRun(before + [e] + during);
    RunFromOnward(Initial, before + [e] + during);
    NobodyFaithful();
    FaithfulOn(Initial, s);
    SettlingReports(s, k, results, scripts, last);
    var s1 := Reply(s, k, results, scripts, last);
    ReplyOnward(s, k, results, scripts, last);
    FaithfulOn(s, s1);
    RunFromOnward(s1, later);
    var n := |batch| - 1;
    var handled := HandledCalls(batch, results, scripts, 0, n);
    var h := Handler(true, false, onError);
    AfterMoreCalls(h, id, CallsDuring(s0, during), handled);
    ReportStays(s1, RunFrom(s1, later), |s.log|, AfterCalls(h, id, CallsDuring(s0, during) + handled));
  }

  lemma NobodyFaithful()
    ensures Faithful(Initial.txs)
  {
  }

  lemma FaithfulOn(s: State, s1: State)
    requires Faithful(s.txs) && Onward(s, s1)
    ensures Faithful(s1.txs)
  {
  }

  lemma ReportStays(s: State, s1: State, i: nat, h: Handler)
    requires Faithful(s.txs) && Onward(s, s1) && i < |s.log| && s.log[i].Released? && Reported(s.log, i, h)
    ensures s.log <= s1.log && Reported(s1.log, i, h)
  {
  }

  lemma UnlockedReports(s: State, id: nat, how: How, called: bool, h: Handler)
    requires called == if how == CommitOk || how == PlainOk then h.onSuccess else h.onError
    ensures var log := Unlocked(s, id, how, called).log;
            s.log < log && log[|s.log|] == Released(id, how) && Reported(log, |s.log|, h)
  {
  }

  /** The reply that releases a transaction reports by the callbacks that the calls of the batch's handlers have
      left. */
  lemma SettlingReports(s: State, k: nat, results: seq<bool>, scripts: seq<Script>, last: Script)
    requires Inv(s) && Faithful(s.txs)
    requires k < |s.wire| && s.wire[k].id < |s.txs| && SettlesBatch(s.wire[k].batch)
    requires !Reply(s, k, results, scripts, last).misuse
    ensures var Outstanding(id, batch) := s.wire[k];
            var n := |batch| - 1;
            var log := Reply(s, k, results, scripts, last).log;
            && s.log < log && log[|s.log|] == Released(id, SettledBy(batch[n], Nth(results, n, false)))
            && Reported(log, |s.log|,
                        AfterCalls(HandlerOf(s.txs[id]), id, HandledCalls(batch, results, scripts, 0, n)))
  {
    hide Perform, AfterCalls, Inv, Core, HandledCalls, Reported, Onward, Faithful, Reply, Undisturbed, Unlocked;
    var Outstanding(id, batch) := s.wire[k];
    var n := |batch| - 1;
    var ok, script := Nth(results, n, false), Nth(scripts, n, Quiet);
    var handled := HandledCalls(batch, results, scripts, 0, n);
    var s0 := s.(wire := []);
    var s1 := Perform(s0, handled);
    SettlingReply(s, k, results, scripts, last);
    TakenOff(s, k);
    PerformKeeps(s0, handled);
    PerformHears(s0, handled);
    PerformOnward(s0, handled);
    FaithfulOn(s0, s1);
    var h := HandlerOf(s1.txs[id]);
    var how, called := SettledBy(batch[n], ok), CalledBack(s1.txs[id], batch[n], ok);
    UnlockedReports(s1, id, how, called, h);
    var s2 := Unlocked(s1, id, how, called);
    UnlockedTxs(s1, id, how, called);
    MisuseSticks(s2, script.acts);
    assert s1.log == s.log;
    PerformOnward(s2, script.acts);
    ReportStays(s2, Perform(s2, script.acts), |s.log|, h);
  }

  lemma UnlockedTxs(s: State, id: nat, how: How, called: bool)
    ensures var s1 := Unlocked(s, id, how, called); s1.txs == s.txs && s1.misuse == s.misuse
  {
  }
}
