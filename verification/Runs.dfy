/** Every event keeps the invariant, so every run does. */
module Runs {
  import opened Statements
  import opened Protocol
  import opened Scheduler
  import opened Invariant
  import opened Histories

  /** Inside a callback: unless a call was misused, the core holds and nothing was logged or sent. */
  predicate Silent(s: State, s1: State) {
    s1.misuse || (Core(s1) && SameHistory(s, s1) && !Awaiting(s1, Parse(s1.log)))
  }

  predicate Undisturbed(s: State) {
    Core(s) && !Awaiting(s, Parse(s.log))
  }

  lemma {:induction false} MisuseSticks(s: State, acts: seq<Action>)
    ensures s.misuse ==> Perform(s, acts).misuse
    decreases |acts|
  {
    if acts != [] {
      assert s.misuse ==> Effect(s, acts[0]).misuse;
      MisuseSticks(Act(s, acts[0]), acts[1..]);
    }
  }

  lemma {:induction false} PerformKeeps(s: State, acts: seq<Action>)
    requires Undisturbed(s)
    ensures Silent(s, Perform(s, acts))
    decreases |acts|
  {
    if acts != [] {
      var s1 := Act(s, acts[0]);
      if Allowed(s, acts[0]) {
        ActKeeps(s, acts[0]);
        PerformKeeps(s1, acts[1..]);
      } else {
        MisuseSticks(s1, acts[1..]);
      }
    }
  }

  // ---- replies

  lemma {:induction false} BusyBatch(log: seq<Entry>)
    requires Accepted(log) && Parse(log).stage.Busy?
    ensures var b := Parse(log).stage.batch; b != [] && forall i: nat :: i < |b| - 1 ==> !Settles(b[i])
    decreases |log|
  {
    if log[|log| - 1].Told? {
      BusyBatch(log[..|log| - 1]);
      return;
    }
    var e := log[|log| - 1];
    var p := Parse(log[..|log| - 1]);
    var b := Parse(log).stage.batch;
    assert e.Sent?;
    forall i: nat | i < |b| - 1 ensures !Settles(b[i]) {
      if p.stage.Opened? {
        var n := |Opening(p.stage.request)|;
        if i < n {
          assert b[i] == Opening(p.stage.request)[i];
        } else {
          assert b[n..][i - n] == b[i];
          assert Permitted(p.stage.request, b[n..][i - n]);
        }
      } else if p.stage.failed {
        assert b[..|b| - 1][i] == b[i];
        assert Permitted(p.stage.request, b[..|b| - 1][i]);
      } else if |b| > 1 {
        assert Permitted(p.stage.request, b[i]);
      }
    }
  }

  lemma ReleaseKeeps(s: State, id: nat, how: How)
    requires Core(s) && id < |s.txs| && MayRelease(Parse(s.log).stage, id, how)
    requires Locking(s.txs[id].request) || !s.txs[id].isPaused
    ensures var s1 := Release(s, id, how);
            Undisturbed(s1) && s1.wire == s.wire && !Holding(Parse(s1.log).stage) && id < Parse(s1.log).next
  {
    UnlockKeeps(s, id, how);
    var s1 := StartNext(Logged(s.(inProgress := false), Released(id, how)));
    FinalKeeps(s1, id, Succeeds(how));
  }

  lemma UnlockKeeps(s: State, id: nat, how: How)
    requires Core(s) && id < |s.txs| && MayRelease(Parse(s.log).stage, id, how)
    requires Locking(s.txs[id].request) || !s.txs[id].isPaused
    ensures var s1 := StartNext(Logged(s.(inProgress := false), Released(id, how)));
            Core(s1) && Parse(s1.log).stage == Settled(id, Succeeds(how)) && id < Parse(s1.log).next
  {
    assert TxOk(s.txs[id], id, Parse(s.log));
    ParseSnoc(s.log, Released(id, how));
  }

  lemma FinalKeeps(s: State, id: nat, ok: bool)
    requires Core(s) && Parse(s.log).stage == Settled(id, ok)
    ensures var s1 := Logged(s, Final(id, ok));
            Core(s1) && Parse(s1.log).stage.Idle? && Parse(s1.log).next == Parse(s.log).next
  {
    ParseSnoc(s.log, Final(id, ok));
  }

  lemma SettleKeeps(s: State, id: nat, how: How, script: Script)
    requires Core(s) && id < |s.txs| && MayRelease(Parse(s.log).stage, id, how)
    requires Locking(s.txs[id].request) || !s.txs[id].isPaused
    ensures var s1 := Settle(s, id, how, script).0;
            s1.misuse || (Undisturbed(s1) && s1.wire == s.wire && !Holding(Parse(s1.log).stage)
              && id < Parse(s1.log).next)
  {
    ReleaseKeeps(s, id, how);
    PerformKeeps(Release(s, id, how), script.acts);
  }

  /** A reply to statement `i` of the holder's batch that does not release the lock. */
  lemma HandlePlain(s: State, id: nat, st: Statement, ok: bool, script: Script)
    requires Undisturbed(s) && id < |s.txs| && !Settles(st)
    ensures Silent(s, Handle(s, id, st, ok, script).0)
  {
    if st.Sql? {
      PerformKeeps(s, script.acts);
    }
  }

  lemma {:induction false} HandlePlainFrom(s: State, id: nat, batch: seq<Statement>, results: seq<bool>,
                                           scripts: seq<Script>, i: nat, failure: Option<nat>)
    requires Undisturbed(s) && id < |s.txs| && i <= |batch|
    requires forall j :: i <= j < |batch| ==> !Settles(batch[j])
    ensures Silent(s, HandleFrom(s, id, batch, results, scripts, i, failure).0)
    decreases |batch| - i
  {
    if i < |batch| {
      var st, ok, script := batch[i], Nth(results, i, false), Nth(scripts, i, Quiet);
      HandlePlain(s, id, st, ok, script);
      HandlePersists(s, id, st, ok, script);
      var (s1, threw) := Handle(s, id, st, ok, script);
      var failure1 := if threw && failure.None? then Some(i) else failure;
      if s1.misuse {
        HandleFromPersists(s1, id, batch, results, scripts, i + 1, failure1);
      } else {
        HandlePlainFrom(s1, id, batch, results, scripts, i + 1, failure1);
      }
    }
  }

  lemma CompletePersists(s: State, id: nat, failed: bool, script: Script)
    requires id < |s.txs|
    ensures s.misuse ==> Complete(s, id, failed, script).misuse
  {
    var t := s.txs[id];
    var s1 := if t.finalized then s else Logged(s, Answered(id, failed));
    MisuseSticks(Conclude(s1, id, failed), script.acts);
  }

  /** Only a locking transaction has a settling batch. */
  lemma {:induction false} SettlesOnlyLocking(log: seq<Entry>)
    requires Accepted(log) && Parse(log).stage.Busy? && SettlesBatch(Parse(log).stage.batch)
    ensures Locking(Parse(log).stage.request)
    decreases |log|
  {
    if log[|log| - 1].Told? {
      SettlesOnlyLocking(log[..|log| - 1]);
      return;
    }
    var p := Parse(log[..|log| - 1]);
    var b := Parse(log).stage.batch;
    var r := Parse(log).stage.request;
    if p.stage.Opened? {
      OpeningNeverSettles(r, b);
    } else if !p.stage.failed && AllPermitted(r, b) {
      assert Permitted(r, b[|b| - 1]);
    }
  }

  /** A settling batch: the lock is released by the handler of its last statement. */
  lemma {:induction false} HandleSettlingFrom(s: State, id: nat, batch: seq<Statement>, results: seq<bool>,
                                              scripts: seq<Script>, i: nat, failure: Option<nat>, r: Request)
    requires Undisturbed(s) && id < |s.txs| && i < |batch|
    requires Parse(s.log).stage == Busy(id, r, batch) && SettlesBatch(batch)
    requires forall j :: i <= j < |batch| - 1 ==> !Settles(batch[j])
    ensures var s1 := HandleFrom(s, id, batch, results, scripts, i, failure).0;
            s1.misuse || (Undisturbed(s1) && s1.wire == s.wire && !Holding(Parse(s1.log).stage)
              && id < Parse(s1.log).next)
    decreases |batch| - i
  {
    var st, ok, script := batch[i], Nth(results, i, false), Nth(scripts, i, Quiet);
    HandlePersists(s, id, st, ok, script);
    var (s1, threw) := Handle(s, id, st, ok, script);
    var failure1 := if threw && failure.None? then Some(i) else failure;
    assert TxOk(s.txs[id], id, Parse(s.log));
    HandleFromStep(s, id, batch, results, scripts, i, failure);
    hide HandleFrom, CoreAt;
    if i + 1 == |batch| {
      HandleFromEnd(s1, id, batch, results, scripts, failure1);
      var how := if st.Commit? then (if ok then CommitOk else CommitFailed)
        else (if ok then RollbackOk else RollbackFailed);
      SettleKeeps(s, id, how, script);
      assert s1 == Settle(s, id, how, script).0;
    } else {
      HandlePlain(s, id, st, ok, script);
      if s1.misuse {
        HandleFromPersists(s1, id, batch, results, scripts, i + 1, failure1);
      } else {
        HandleSettlingFrom(s1, id, batch, results, scripts, i + 1, failure1, r);
      }
    }
  }

  /** After the handlers of an ordinary batch: send more, pause, or conclude. */
  lemma CompletePlain(s: State, id: nat, failed: bool, script: Script)
    requires Undisturbed(s) && id < |s.txs| && s.wire == []
    requires Parse(s.log).stage.Busy? && Parse(s.log).stage.id == id && !SettlesBatch(Parse(s.log).stage.batch)
    ensures var s1 := Complete(s, id, failed, script); s1.misuse || Inv(s1)
  {
    var t := s.txs[id];
    assert TxOk(t, id, Parse(s.log));
    ParseSnoc(s.log, Answered(id, failed));
    var s1 := Logged(s, Answered(id, failed));
    var p1 := Parse(s1.log);
    assert CoreAt(s1, p1);
    if !failed && t.executes != [] {
      RunReady(s1, id, p1);
    } else if !failed && t.canPause {
      PauseKeeps(s1, id, p1);
    } else if Locking(t.request) {
      ConcludeReady(s1, id, p1, failed);
    } else {
      ConcludePlain(s1, id, p1, failed, script);
    }
  }

  lemma PauseKeeps(s: State, id: nat, p: Progress)
    requires p == Parse(s.log) && CoreAt(s, p) && id < |s.txs| && s.wire == []
    requires p.stage.Ready? && p.stage.id == id && !p.stage.failed
    requires s.txs[id].executes == [] && s.txs[id].canPause
    ensures Inv(s.(txs := s.txs[id := s.txs[id].(isPaused := true)]))
  {
    assert TxOk(s.txs[id].(isPaused := true), id, p);
  }

  lemma ConcludePlain(s: State, id: nat, p: Progress, failed: bool, script: Script)
    requires p == Parse(s.log) && CoreAt(s, p) && id < |s.txs| && s.wire == []
    requires p.stage.Ready? && p.stage.id == id && p.stage.failed == failed
    requires !Locking(s.txs[id].request)
    ensures var s1 := Conclude(s, id, failed);
            Inv(s1) && (var s2 := Perform(s1, script.acts); s2.misuse || Inv(s2))
  {
    var how := if failed then PlainFailed else PlainOk;
    var t := s.txs[id];
    assert TxOk(t, id, p);
    ConcludePlainRelease(s, id, p, failed);
    var s1 := Conclude(s, id, failed);
    PerformKeeps(s1, script.acts);
  }

  lemma ConcludePlainRelease(s: State, id: nat, p: Progress, failed: bool)
    requires p == Parse(s.log) && CoreAt(s, p) && id < |s.txs| && s.wire == []
    requires p.stage.Ready? && p.stage.id == id && p.stage.failed == failed
    requires !Locking(s.txs[id].request)
    ensures var s1 := Conclude(s, id, failed); Inv(s1) && Undisturbed(s1) && !Holding(Parse(s1.log).stage)
  {
    var how := if failed then PlainFailed else PlainOk;
    var t := s.txs[id];
    var s0 := s.(txs := s.txs[id := t.(finalized := true)]);
    assert TxOk(t, id, p) && TxOk(t.(finalized := true), id, Advance(p, Released(id, how)));
    FinishedPlain(s, id, p, how);
    FinalKeeps(StartNext(Logged(s0.(inProgress := false), Released(id, how))), id, Succeeds(how));
  }

  lemma FinishedPlain(s: State, id: nat, p: Progress, how: How)
    requires p == Parse(s.log) && CoreAt(s, p) && id < |s.txs| && MayRelease(p.stage, id, how)
    requires TxOk(s.txs[id].(finalized := true), id, Advance(p, Released(id, how)))
    ensures var s0 := s.(inProgress := false, txs := s.txs[id := s.txs[id].(finalized := true)]);
            var s1 := StartNext(Logged(s0, Released(id, how)));
            Core(s1) && Parse(s1.log).stage == Settled(id, Succeeds(how))
  {
    ParseSnoc(s.log, Released(id, how));
  }

  /** After the handlers of a settling batch there is nothing left to do. */
  lemma CompleteSettled(s: State, id: nat, failed: bool, script: Script)
    requires Undisturbed(s) && id < |s.txs| && s.wire == []
    requires !Holding(Parse(s.log).stage) && id < Parse(s.log).next
    requires s.txs[id].finalized && Locking(s.txs[id].request)
    ensures Inv(Complete(s, id, failed, script))
  {
    assert TxOk(s.txs[id], id, Parse(s.log));
  }

  lemma ReplyKeeps(s: State, k: nat, results: seq<bool>, scripts: seq<Script>, last: Script)
    requires Inv(s) && k < |s.wire| && s.wire[k].id < |s.txs|
    ensures var s1 := Reply(s, k, results, scripts, last); s1.misuse || Inv(s1)
  {
    var p := Parse(s.log);
    var Outstanding(id, batch) := s.wire[k];
    var s1 := s.(wire := []);
    assert s1 == s.(wire := s.wire[..k] + s.wire[k + 1..]);
    assert p.stage == Busy(id, p.stage.request, batch);
    BusyBatch(s.log);
    assert TxOk(s.txs[id], id, p);
    HandleFromPersists(s1, id, batch, results, scripts, 0, None);
    var (s2, failure) := HandleFrom(s1, id, batch, results, scripts, 0, None);
    CompletePersists(s2, id, failure.Some?, last);
    if SettlesBatch(batch) {
      HandleSettlingFrom(s1, id, batch, results, scripts, 0, None, p.stage.request);
      SettlesOnlyLocking(s.log);
      if !s2.misuse {
        CompleteSettled(s2, id, failure.Some?, last);
      }
    } else {
      assert forall j :: 0 <= j < |batch| ==> !Settles(batch[j]);
      HandlePlainFrom(s1, id, batch, results, scripts, 0, None);
      if !s2.misuse {
        CompletePlain(s2, id, failure.Some?, last);
      }
    }
  }

  // ---- starting

  lemma RunOpened(s: State, id: nat, p: Progress)
    requires p == Parse(s.log) && CoreAt(s, p) && id < |s.txs| && s.wire == []
    requires p.stage.Opened? && p.stage.id == id
    ensures s.txs[id].executes != [] && Inv(Run(s, id))
  {
    var b := s.txs[id].executes;
    var r := s.txs[id].request;
    assert TxOk(s.txs[id], id, p);
    ParseSnoc(s.log, Sent(id, b));
    OpeningNeverSettles(r, b);
    assert TxOk(Run(s, id).txs[id], id, Parse(Run(s, id).log));
  }

  lemma PluginBodyPermitted(r: Request)
    requires !UserBody(r)
    ensures AllPermitted(r, PluginBody(r))
  {
  }

  lemma QueuedKeeps(s: State, id: nat, p: Progress)
    requires p == Parse(s.log) && CoreAt(s, p) && id < |s.txs|
    requires p.stage.Opened? && p.stage.id == id && !UserBody(s.txs[id].request)
    ensures CoreAt(Queued(s, id, PluginBody(s.txs[id].request)), p)
  {
    var t := s.txs[id];
    var n := |Opening(t.request)|;
    var executes := t.executes + PluginBody(t.request);
    PluginBodyPermitted(t.request);
    assert TxOk(t, id, p);
    assert executes[n..] == t.executes[n..] + PluginBody(t.request);
    assert Opening(t.request) <= executes;
    assert TxOk(t.(executes := executes), id, p);
  }

  lemma StartKeeps(s: State, id: nat, fn: Script, last: Script)
    requires Core(s) && id < |s.txs| && s.wire == []
    requires Parse(s.log).stage.Opened? && Parse(s.log).stage.id == id
    ensures var s1 := Start(s, id, fn, last); s1.misuse || Inv(s1)
  {
    var r := s.txs[id].request;
    var p := Parse(s.log);
    assert TxOk(s.txs[id], id, p);
    PerformPersists(s, fn.acts, id);
    if UserBody(r) {
      PerformKeeps(s, fn.acts);
      var s1 := Perform(s, fn.acts);
      SettlePersists(s1, id, FnThrew, last);
      if !s1.misuse {
        assert TxOk(s1.txs[id], id, p);
        if fn.outcome.Throws? {
          SettleKeeps(s1, id, FnThrew, last);
        } else {
          RunOpened(s1, id, p);
        }
      }
    } else {
      QueuedKeeps(s, id, p);
      RunOpened(Queued(s, id, PluginBody(r)), id, p);
    }
  }

  lemma ShiftKeeps(s: State)
    requires Inv(s) && CanStart(s)
    ensures var id := s.queue[0]; var s1 := Shift(s);
            Core(s1) && s1.wire == [] && Parse(s1.log).stage == Opened(id, s.txs[id].request)
  {
    var id := s.queue[0];
    var p := Parse(s.log);
    assert TxOk(s.txs[id], id, p);
    ParseSnoc(s.log, Started(id, s.txs[id].request));
  }

  lemma TickKeeps(s: State, fn: Script, last: Script)
    requires Inv(s)
    ensures var s1 := Tick(s, fn, last); s1.misuse || Inv(s1)
  {
    if s.ticks > 0 {
      var s1 := s.(ticks := s.ticks - 1);
      assert Inv(s1);
      if CanStart(s1) {
        ShiftKeeps(s1);
        StartKeeps(Shift(s1), s1.queue[0], fn, last);
      }
    }
  }

  // ---- replies to `open`

  lemma OpenOkKeeps(s: State, script: Script)
    requires Inv(s) && s.opens > 0
    ensures var s1 := OpenOk(s.(opens := s.opens - 1), script); s1.misuse || Inv(s1)
  {
    var s1 := s.(opens := s.opens - 1);
    var s2 := if s1.db.NotOpen? then s1 else s1.(db := IsOpen);
    assert Inv(s2);
    PerformKeepsInv(s2, script.acts);
    hide Perform, WiredAt;
  }

  /** Between events, also while a transaction is paused. */
  lemma {:induction false} PerformKeepsInv(s: State, acts: seq<Action>)
    requires Inv(s)
    ensures var s1 := Perform(s, acts); s1.misuse || Inv(s1)
    decreases |acts|
  {
    hide Act, Allowed, Inv;
    if acts != [] {
      var s1 := Act(s, acts[0]);
      AllowedOrMisuse(s, acts[0]);
      if Allowed(s, acts[0]) {
        ActKeepsIff(s, acts[0]);
        PerformKeepsInv(s1, acts[1..]);
      } else {
        MisuseSticks(s1, acts[1..]);
      }
    }
  }

  lemma AllowedOrMisuse(s: State, a: Action)
    ensures !Allowed(s, a) ==> Act(s, a).misuse
  {
  }

  /** Calls only append to the queue. */
  lemma EndQueue(s: State, id: nat, onSuccess: bool, onError: bool)
    requires id < |s.txs|
    ensures DoEnd(s, id, onSuccess, onError).queue == s.queue
  {
  }

  lemma ActQueue(s: State, a: Action)
    ensures s.queue <= Act(s, a).queue
  {
    hide NewTx;
    if a.End? && a.tx < |s.txs| {
      EndQueue(s, a.tx, a.onSuccess, a.onError);
      hide DoEnd;
    }
  }

  lemma {:induction false} PerformQueue(s: State, acts: seq<Action>)
    ensures s.queue <= Perform(s, acts).queue
    decreases |acts|
  {
    hide Act;
    if acts != [] {
      ActQueue(s, acts[0]);
      PerformQueue(Act(s, acts[0]), acts[1..]);
    }
  }

  /** Whoever is told of a failure in the queue is still there, and whoever runs goes on. */
  lemma ToldKeeps(s: State, id: nat)
    requires Inv(s) && id in s.queue
    ensures id < |s.txs| && Inv(Logged(s, Told(id))) && Parse(s.log + [Told(id)]).next == Parse(s.log).next
    ensures Holding(Parse(s.log + [Told(id)]).stage) == Holding(Parse(s.log).stage)
  {
    var p := Parse(s.log);
    ParseSnoc(s.log, Told(id));
    if p.stage.Ready? {
      assert TxOk(s.txs[p.stage.id], p.stage.id, p);
    }
    var p1 := Parse(s.log + [Told(id)]);
    forall i: nat | i < |s.txs| ensures TxOk(s.txs[i], i, p1) {
      assert TxOk(s.txs[i], i, p);
    }
  }

  lemma AbortOneSticks(s: State, id: nat, script: Script)
    ensures s.misuse ==> AbortOne(s, id, script).0.misuse
  {
    MisuseSticks(Logged(s, Told(id)), script.acts);
  }

  /** One turn of the loop, whether its callback throws or not. */
  lemma AbortOneKeeps(s: State, id: nat, script: Script)
    requires Inv(s) && id in s.queue
    ensures var s1 := AbortOne(s, id, script).0; (s1.misuse || Inv(s1)) && s.queue <= s1.queue
  {
    hide Inv, Perform;
    ToldKeeps(s, id);
    PerformKeepsInv(Logged(s, Told(id)), script.acts);
    PerformQueue(Logged(s, Told(id)), script.acts);
  }

  /** The loop keeps the invariant, whatever its callbacks call and whether or not one of them throws. */
  lemma {:induction false} AbortFromKeeps(s: State, ids: seq<nat>, scripts: seq<Script>, i: nat)
    requires i <= |ids| && Inv(s) && ids <= s.queue
    ensures var s1 := AbortFrom(s, ids, scripts, i).0; (s1.misuse || Inv(s1)) && s.queue <= s1.queue
    decreases |ids| - i
  {
    hide AbortFrom, AbortOne, Inv;
    if i == |ids| {
      AbortFromEnd(s, ids, scripts);
    } else {
      var script := Nth(scripts, i, Quiet);
      AbortFromStep(s, ids, scripts, i);
      assert s.queue[i] == ids[i];
      AbortOneKeeps(s, ids[i], script);
      var (s1, threw) := AbortOne(s, ids[i], script);
      if !threw {
        if s1.misuse {
          AbortFromSticks(s1, ids, scripts, i + 1);
          AbortFromQueue(s1, ids, scripts, i + 1);
        } else {
          AbortFromKeeps(s1, ids, scripts, i + 1);
        }
      }
    }
  }

  lemma {:induction false} AbortFromQueue(s: State, ids: seq<nat>, scripts: seq<Script>, i: nat)
    requires i <= |ids|
    ensures s.queue <= AbortFrom(s, ids, scripts, i).0.queue
    decreases |ids| - i
  {
    if i < |ids| {
      var script := Nth(scripts, i, Quiet);
      PerformQueue(Logged(s, Told(ids[i])), script.acts);
      AbortFromQueue(AbortOne(s, ids[i], script).0, ids, scripts, i + 1);
    }
  }

  lemma {:induction false} AbortFromSticks(s: State, ids: seq<nat>, scripts: seq<Script>, i: nat)
    requires i <= |ids|
    ensures s.misuse ==> AbortFrom(s, ids, scripts, i).0.misuse
    decreases |ids| - i
  {
    if i < |ids| {
      var script := Nth(scripts, i, Quiet);
      AbortOneSticks(s, ids[i], script);
      AbortFromSticks(AbortOne(s, ids[i], script).0, ids, scripts, i + 1);
    }
  }

  /** Emptying the queue is part of the language. */
  lemma {:induction false} ParseRemovals(log: seq<Entry>, ids: seq<nat>, n: nat)
    requires Accepted(log) && !Holding(Parse(log).stage)
    requires forall i: nat :: i < |ids| ==> ids[i] == Parse(log).next + i
    ensures var p := Parse(log + Removals(ids, n));
            p.At? && p.next == Parse(log).next + |ids| && !Holding(p.stage)
    decreases |ids|
  {
    if ids == [] {
      assert log + Removals(ids, n) == log;
    } else {
      var m := |ids| - 1;
      var e := if m < n then Aborted(ids[m]) else Lost(ids[m]);
      ParseRemovals(log, ids[..m], n);
      ParseSnoc(log + Removals(ids[..m], n), e);
      assert log + Removals(ids, n) == log + Removals(ids[..m], n) + [e];
    }
  }

  /** With the lock free, queue and lock can be cleared. */
  lemma EmptyQueueKeeps(s: State, n: nat)
    requires Inv(s) && !s.inProgress
    ensures Inv(EmptyQueue(s, n))
  {
    var p, s1 := Parse(s.log), EmptyQueue(s, n);
    ParseRemovals(s.log, s.queue, n);
    var p1 := Parse(s1.log);
    forall i: nat | i < |s1.txs| ensures TxOk(s1.txs[i], i, p1) {
      assert TxOk(s.txs[i], i, p);
    }
  }

  lemma AbortAllKeeps(s: State, scripts: seq<Script>)
    requires Inv(s)
    ensures var s1 := AbortAll(s, scripts); s1.misuse || Inv(s1)
  {
    hide Inv, AbortFrom, Removals;
    if s.queue != [] {
      AbortFromKeeps(s, s.queue, scripts, 0);
      var (s1, threw) := AbortFrom(s, s.queue, scripts, 0);
      if !threw && !s1.misuse && !s1.inProgress {
        EmptyQueueKeeps(s1, |s.queue|);
      }
    }
  }

  lemma AbortAllSticks(s: State, scripts: seq<Script>)
    ensures s.misuse ==> AbortAll(s, scripts).misuse
  {
    if s.queue != [] {
      AbortFromSticks(s, s.queue, scripts, 0);
    }
  }

  lemma OpenEnds(s: State)
    requires Inv(s) && s.opens > 0
    ensures var s1 := s.(opens := s.opens - 1); Inv(s1) && Inv(s1.(db := NotOpen))
  {
  }

  lemma OpenFailKeeps(s: State, script: Script, scripts: seq<Script>)
    requires Inv(s) && s.opens > 0
    ensures var s1 := OpenFail(s, script, scripts); s1.misuse || Inv(s1)
  {
    hide AbortAll, Perform, Inv;
    PerformKeepsInv(s, script.acts);
    OpensGrow(s, script.acts);
    var s1 := Perform(s, script.acts);
    if s1.misuse {
      AbortAllSticks(s1.(opens := s1.opens - 1, db := NotOpen), scripts);
    } else {
      OpenEnds(s1);
      AbortAllKeeps(s1.(opens := s1.opens - 1, db := NotOpen), scripts);
    }
  }

  // ---- all events, all runs

  lemma StepKeeps(s: State, e: Event)
    requires Inv(s)
    ensures var s1 := Step(s, e); s1.misuse || Inv(s1)
  {
    match e
    case Call(a) => if Allowed(s, a) { ActKeeps(s, a); }
    case TickRuns(fn, last) => TickKeeps(s, fn, last);
    case BatchReply(k, results, scripts, last) =>
      if k < |s.wire| && s.wire[k].id < |s.txs| { ReplyKeeps(s, k, results, scripts, last); }
    case OpenSucceeds(script) => if s.opens > 0 { OpenOkKeeps(s, script); }
    case OpenFails(script, aborts) => if s.opens > 0 { OpenFailKeeps(s, script, aborts); }
  }

  lemma StartSticks(s: State, id: nat, fn: Script, last: Script)
    requires id < |s.txs|
    ensures s.misuse ==> Start(s, id, fn, last).misuse
  {
    PerformPersists(s, fn.acts, id);
    SettlePersists(Perform(s, fn.acts), id, FnThrew, last);
  }

  lemma ReplySticks(s: State, k: nat, results: seq<bool>, scripts: seq<Script>, last: Script)
    requires k < |s.wire| && s.wire[k].id < |s.txs|
    ensures s.misuse ==> Reply(s, k, results, scripts, last).misuse
  {
    var Outstanding(id, batch) := s.wire[k];
    var s1 := s.(wire := s.wire[..k] + s.wire[k + 1..]);
    HandleFromPersists(s1, id, batch, results, scripts, 0, None);
    var (s2, failure) := HandleFrom(s1, id, batch, results, scripts, 0, None);
    CompletePersists(s2, id, failure.Some?, last);
  }

  lemma OpenOkSticks(s: State, script: Script)
    ensures s.misuse ==> OpenOk(s, script).misuse
  {
    MisuseSticks(if s.db.NotOpen? then s else s.(db := IsOpen), script.acts);
  }

  lemma OpenRepliesStick(s: State, script: Script, aborts: seq<Script>)
    requires s.opens > 0
    ensures s.misuse ==> OpenOk(s.(opens := s.opens - 1), script).misuse && OpenFail(s, script, aborts).misuse
  {
    OpenOkSticks(s.(opens := s.opens - 1), script);
    MisuseSticks(s, script.acts);
    var s1 := Perform(s, script.acts);
    var s2 := if s1.opens == 0 then s1 else s1.(opens := s1.opens - 1);
    AbortAllSticks(s2.(db := NotOpen), aborts);
  }

  lemma TickSticks(s: State, fn: Script, last: Script)
    ensures s.misuse ==> Tick(s, fn, last).misuse
  {
    if s.ticks > 0 {
      var s1 := s.(ticks := s.ticks - 1);
      if CanStart(s1) {
        StartSticks(Shift(s1), s1.queue[0], fn, last);
      }
    }
  }

  lemma StepSticks(s: State, e: Event)
    ensures s.misuse ==> Step(s, e).misuse
  {
    match e
    case Call(a) => assert s.misuse ==> Effect(s, a).misuse;
    case TickRuns(fn, last) => TickSticks(s, fn, last);
    case BatchReply(k, results, scripts, last) =>
      if k < |s.wire| && s.wire[k].id < |s.txs| { ReplySticks(s, k, results, scripts, last); }
    case OpenSucceeds(script) => if s.opens > 0 { OpenRepliesStick(s, script, []); }
    case OpenFails(script, aborts) => if s.opens > 0 { OpenRepliesStick(s, script, aborts); }
  }

  lemma {:induction false} RunKeeps(s: State, events: seq<Event>)
    requires s.misuse || Inv(s)
    ensures var s1 := RunFrom(s, events); s1.misuse || Inv(s1)
    decreases |events|
  {
    if events != [] {
      if s.misuse {
        StepSticks(s, events[0]);
      } else {
        StepKeeps(s, events[0]);
      }
      RunKeeps(Step(s, events[0]), events[1..]);
    }
  }

  /** One event more. */
  lemma {:induction false} RunSnoc(s: State, events: seq<Event>, e: Event)
    ensures RunFrom(s, events + [e]) == Step(RunFrom(s, events), e)
    decreases |events|
  {
    if events == [] {
      assert RunFrom(Step(s, e), []) == Step(s, e);
    } else {
      assert (events + [e])[1..] == events[1..] + [e];
      RunSnoc(Step(s, events[0]), events[1..], e);
    }
  }

  lemma {:induction false} RunMisused(s: State, events: seq<Event>)
    ensures s.misuse ==> RunFrom(s, events).misuse
    decreases |events|
  {
    hide Step;
    if events != [] {
      StepSticks(s, events[0]);
      RunMisused(Step(s, events[0]), events[1..]);
    }
  }

  lemma {:induction false} RunAppend(s: State, a: seq<Event>, b: seq<Event>)
    ensures RunFrom(s, a + b) == RunFrom(RunFrom(s, a), b)
    decreases |a|
  {
    if a == [] {
      assert a + b == b;
    } else {
      assert (a + b)[1..] == a[1..] + b;
      RunAppend(Step(s, a[0]), a[1..], b);
    }
  }

  /** The invariant holds after every run in which each call was allowed when it was made. */
  lemma EveryRun(events: seq<Event>)
    requires !After(events).misuse
    ensures Inv(After(events))
  {
    RunKeeps(Initial, events);
  }
}
