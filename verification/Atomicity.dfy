/** The database after a run: what has been committed, transaction by transaction, and nothing of the others. */
module Atomicity {
  import opened Statements
  import opened Protocol
  import opened Scheduler
  import opened Histories
  import opened Runs
  import opened Invariant
  import opened Storage
  import opened Refinement
  import opened Steps
  import opened Theorems

  // ---- what happened: native code executes every batch in the order in which it was sent

  /** The batch without the statement that settles the transaction; its reply says whether it took effect. */
  function Unsettled(b: seq<Statement>): seq<Statement> {
    if SettlesBatch(b) then b[..|b| - 1] else b
  }

  /** A COMMIT or ROLLBACK that fails leaves the transaction open. */
  function Close<D>(w: World<D>, how: How): World<D> {
    match how
    case CommitOk => World(w.db, None)
    case RollbackOk => if w.saved.Some? then World(w.saved.value, None) else w
    case _ => w
  }

  function Replay<D, R>(exec: Engine<D, R>, d: D, log: seq<Entry>): World<D>
    decreases |log|
  {
    if log == [] then World(d, None) else
    var w := Replay(exec, d, Front(log));
    match Last(log)
    case Sent(_, b) => Execute(exec, w, Unsettled(b))
    case Released(_, how) => Close(w, how)
    case _ => w
  }

  // ---- the serial schedule

  /** The statements of a transaction, alone: the transaction statements do nothing themselves. */
  function Effects<D, R>(exec: Engine<D, R>, d: D, b: seq<Statement>): D
    decreases |b|
  {
    if b == [] then d else Effects(exec, if b[0].Sql? || b[0].Invalid? then exec(d, b[0]).0 else d, b[1..])
  }

  /** `settled` is final.  `joint`, if there is one, has been executed in a database transaction that is still open,
      because its COMMIT or ROLLBACK has failed: it shares the fate of the transactions that follow. */
  datatype Ledger<D> = Ledger(settled: D, joint: Option<seq<Statement>>)

  function Joint<D>(l: Ledger<D>): seq<Statement> {
    if l.joint.Some? then l.joint.value else []
  }

  function Book<D, R>(exec: Engine<D, R>, l: Ledger<D>, how: How, stream: seq<Statement>): Ledger<D> {
    var all := Joint(l) + stream;
    match how
    case CommitOk => Ledger(Effects(exec, l.settled, all), None)
    case RollbackOk => Ledger(l.settled, None)
    case CommitFailed => Ledger(l.settled, Some(all))
    case RollbackFailed => Ledger(l.settled, Some(all))
    case PlainOk => if l.joint.None? then Ledger(Effects(exec, l.settled, all), None) else Ledger(l.settled, Some(all))
    case PlainFailed =>
      if l.joint.None? then Ledger(Effects(exec, l.settled, all), None) else Ledger(l.settled, Some(all))
    case FnThrew => l
  }

  /** Transaction by transaction, in the order of their releases. */
  function Serially<D, R>(exec: Engine<D, R>, d: D, log: seq<Entry>): Ledger<D>
    decreases |log|
  {
    if log == [] then Ledger(d, None) else
    var l := Serially(exec, d, Front(log));
    if Last(log).Released? then Book(exec, l, Last(log).how, Stream(log, Last(log).id)) else l
  }

  /** The whole database, with what is still open. */
  function Total<D, R>(exec: Engine<D, R>, l: Ledger<D>): D {
    Effects(exec, l.settled, Joint(l))
  }

  // ---- batches

  lemma {:induction false} EffectsSplit<D, R>(exec: Engine<D, R>, d: D, a: seq<Statement>, b: seq<Statement>)
    ensures Effects(exec, d, a + b) == Effects(exec, Effects(exec, d, a), b)
    decreases |a|
  {
    if a == [] {
      assert a + b == b;
    } else {
      assert (a + b)[1..] == a[1..] + b;
      EffectsSplit(exec, if a[0].Sql? || a[0].Invalid? then exec(d, a[0]).0 else d, a[1..], b);
    }
  }

  lemma {:induction false} ExecuteOrdinary<D, R>(exec: Engine<D, R>, w: World<D>, b: seq<Statement>)
    requires Ordinary(b)
    ensures Execute(exec, w, b) == World(Effects(exec, w.db, b), w.saved)
    decreases |b|
  {
    if b != [] {
      assert b[0] in b;
      ExecuteOrdinary(exec, Apply(exec, w, b[0]).0, b[1..]);
    }
  }

  lemma ExecuteOpening<D, R>(exec: Engine<D, R>, w: World<D>, r: Request)
    ensures Effects(exec, w.db, Opening(r)) == w.db
    ensures Execute(exec, w, Opening(r)) == if Locking(r) && w.saved.None? then World(w.db, Some(w.db)) else w
  {
    var o := Opening(r);
    if |o| == 2 {
      assert o[1..] == [Begin] && [Begin][1..] == [];
    } else {
      assert o[1..] == [];
    }
  }

  /** The first batch: BEGIN saves the database, unless a transaction is still open; then the statements take effect. */
  lemma ExecuteFirst<D, R>(exec: Engine<D, R>, w: World<D>, r: Request, b: seq<Statement>)
    requires OpensWith(r, b)
    ensures Execute(exec, w, b)
            == World(Effects(exec, w.db, b), if Locking(r) && w.saved.None? then Some(w.db) else w.saved)
  {
    var n := |Opening(r)|;
    assert b == Opening(r) + b[n..];
    ExecuteSplit(exec, w, Opening(r), b[n..]);
    EffectsSplit(exec, w.db, Opening(r), b[n..]);
    ExecuteOpening(exec, w, r);
    PermittedOrdinary(r, b[n..]);
    ExecuteOrdinary(exec, Execute(exec, w, Opening(r)), b[n..]);
  }

  /** A batch that follows. */
  lemma ExecuteNext<D, R>(exec: Engine<D, R>, w: World<D>, r: Request, failed: bool, b: seq<Statement>)
    requires MayFollow(r, failed, b)
    ensures Execute(exec, w, Unsettled(b)) == World(Effects(exec, w.db, b), w.saved)
  {
    var n := |b| - 1;
    if AllPermitted(r, b) {
      assert Permitted(r, b[n]);
      PermittedOrdinary(r, b);
      ExecuteOrdinary(exec, w, b);
    } else {
      PermittedOrdinary(r, b[..n]);
      ExecuteOrdinary(exec, w, b[..n]);
      EffectsSplit(exec, w.db, b[..n], [b[n]]);
      assert b == b[..n] + [b[n]] && [b[n]][1..] == [];
    }
  }

  // ---- the run and the serial schedule

  /** BEGIN has been sent, and neither COMMIT nor ROLLBACK has been answered. */
  predicate InTransaction(stage: Stage) {
    !stage.Opened? && Holding(stage) && Locking(stage.request)
  }

  /** The database, and what ROLLBACK would bring back, given the serial schedule so far and the holder's statements. */
  ghost predicate Tracks<D(!new), R(!new)>(exec: Engine<D, R>, w: World<D>, l: Ledger<D>, stage: Stage,
                                           stream: seq<Statement>) {
    && w.db == Effects(exec, Total(exec, l), stream)
    && w.saved == if l.joint.Some? || InTransaction(stage) then Some(l.settled) else None
  }

  ghost predicate Tracked<D(!new), R(!new)>(exec: Engine<D, R>, d: D, log: seq<Entry>)
    requires Accepted(log)
  {
    var stage := Parse(log).stage;
    Tracks(exec, Replay(exec, d, log), Serially(exec, d, log), stage,
      if Holding(stage) then Stream(log, stage.id) else [])
  }

  lemma TrackSent<D(!new), R(!new)>(exec: Engine<D, R>, w: World<D>, l: Ledger<D>, stage: Stage, stream: seq<Statement>,
                                    b: seq<Statement>, id: nat)
    requires (stage.Opened? && OpensWith(stage.request, b) && stream == [])
             || (stage.Ready? && MayFollow(stage.request, stage.failed, b) && OpensWith(stage.request, stream))
    requires Tracks(exec, w, l, stage, stream)
    ensures Tracks(exec, Execute(exec, w, Unsettled(b)), l, Busy(id, stage.request, b), stream + b)
  {
    var r := stage.request;
    if stage.Opened? {
      OpeningNeverSettles(r, b);
      ExecuteFirst(exec, w, r, b);
      assert stream + b == b;
      if l.joint.None? {
        assert Total(exec, l) == l.settled;
      }
    } else {
      ExecuteNext(exec, w, r, stage.failed, b);
      EffectsSplit(exec, Total(exec, l), stream, b);
    }
  }

  /** A release is booked. */
  lemma TrackRelease<D(!new), R(!new)>(exec: Engine<D, R>, w: World<D>, l: Ledger<D>, stage: Stage,
                                       stream: seq<Statement>, id: nat, how: How)
    requires MayRelease(stage, id, how) && StreamOk(stage.request, stage, stream)
    requires Tracks(exec, w, l, stage, stream)
    ensures Tracks(exec, Close(w, how), Book(exec, l, how, stream), Settled(id, Succeeds(how)), [])
  {
    EffectsSplit(exec, l.settled, Joint(l), stream);
    if l.joint.None? {
      assert [] + stream == stream;
    }
  }

  /** At every point of a history the database is the serial schedule plus the holder's statements. */
  lemma {:induction false} TracksAlways<D(!new), R(!new)>(exec: Engine<D, R>, d: D, log: seq<Entry>)
    requires Accepted(log)
    ensures Tracked(exec, d, log)
    decreases |log|
  {
    if log != [] {
      Unsnoc(log);
      var front := Front(log);
      var e := Last(log);
      var stage := Parse(front).stage;
      TracksAlways(exec, d, front);
      if Holding(stage) {
        ActiveStream(front);
      }
      var w, l := Replay(exec, d, front), Serially(exec, d, front);
      if e.Sent? {
        TrackSent(exec, w, l, stage, Stream(front, e.id), e.batch, e.id);
      } else if e.Released? {
        assert Stream(log, e.id) == Stream(front, e.id);
        TrackRelease(exec, w, l, stage, Stream(front, e.id), e.id, e.how);
      } else {
        TrackOther(exec, d, log);
      }
    }
  }

  lemma TrackOther<D(!new), R(!new)>(exec: Engine<D, R>, d: D, log: seq<Entry>)
    requires Accepted(log) && log != [] && !Last(log).Released? && !Last(log).Sent?
    requires Accepted(Front(log)) && Tracked(exec, d, Front(log)) && Parse(log) == Advance(Parse(Front(log)), Last(log))
    ensures Tracked(exec, d, log)
  {
    var stage := Parse(log).stage;
    if stage.Ready? || stage.Busy? {
      assert Stream(log, stage.id) == Stream(Front(log), stage.id);
    } else if stage.Opened? {
      FreshStream(Front(log), stage.id);
      assert Stream(log, stage.id) == Stream(Front(log), stage.id) == [];
    }
  }

  /** Serial and atomic, after every run: whenever no transaction runs, the database is what the committed
      transactions and the plain statements, taken whole and in queue order, make of it; rolled-back transactions
      contribute nothing. Transactions whose COMMIT or ROLLBACK has failed stay open together with those that
      follow, and are committed or rolled back with them, as one. */
  lemma SerialAtomic<D(!new), R(!new)>(exec: Engine<D, R>, d: D, events: seq<Event>)
    requires !After(events).misuse && !After(events).inProgress
    ensures var log := After(events).log; var l := Serially(exec, d, log);
            Replay(exec, d, log) == World(Total(exec, l), if l.joint.Some? then Some(l.settled) else None)
  {
    EveryRun(events);
    TracksAlways(exec, d, After(events).log);
  }

  // ---- when every COMMIT and ROLLBACK succeeds

  predicate NoSettlingFailure(log: seq<Entry>) {
    forall e :: e in log && e.Released? ==> !e.how.CommitFailed? && !e.how.RollbackFailed?
  }

  predicate Counts(how: How) {
    how.CommitOk? || how.PlainOk? || how.PlainFailed?
  }

  /** At each release, all statements of the transaction if they count, and none if they do not. */
  function Sequential<D, R>(exec: Engine<D, R>, d: D, log: seq<Entry>): D
    decreases |log|
  {
    if log == [] then d else
    var d1 := Sequential(exec, d, Front(log));
    if Last(log).Released? && Counts(Last(log).how) then Effects(exec, d1, Stream(log, Last(log).id)) else d1
  }

  lemma {:induction false} NothingStaysOpen<D, R>(exec: Engine<D, R>, d: D, log: seq<Entry>)
    requires NoSettlingFailure(log)
    ensures Serially(exec, d, log) == Ledger(Sequential(exec, d, log), None)
    decreases |log|
  {
    if log != [] {
      NothingStaysOpen(exec, d, Front(log));
      assert Last(log) in log;
      assert [] + Stream(log, Last(log).id) == Stream(log, Last(log).id);
    }
  }

  /** Then every transaction stands for itself. */
  lemma EachForItself<D(!new), R(!new)>(exec: Engine<D, R>, d: D, events: seq<Event>)
    requires !After(events).misuse && !After(events).inProgress && NoSettlingFailure(After(events).log)
    ensures Replay(exec, d, After(events).log) == World(Sequential(exec, d, After(events).log), None)
  {
    SerialAtomic(exec, d, events);
    NothingStaysOpen(exec, d, After(events).log);
  }

  // ---- when replies tell the truth

  /** The database as the outstanding batch found it. */
  function WorldBefore<D, R>(exec: Engine<D, R>, d: D, log: seq<Entry>): World<D>
    decreases |log|
  {
    if log == [] then World(d, None)
    else if Last(log).Sent? then Replay(exec, d, Front(log))
    else WorldBefore(exec, d, Front(log))
  }

  /** A reply reports what the statements have done; COMMIT and ROLLBACK may fail for reasons of their own. */
  ghost predicate Truthful<D(!new), R(!new)>(exec: Engine<D, R>, d: D, s: State, e: Event) {
    e.BatchReply? && e.k < |s.wire| ==>
      var b := Unsettled(s.wire[e.k].batch);
      forall i: nat :: i < |b| ==> Nth(e.results, i, false) == Results(exec, WorldBefore(exec, d, s.log), b)[i]
  }

  ghost predicate AllTruthful<D(!new), R(!new)>(exec: Engine<D, R>, d: D, s: State, events: seq<Event>)
    decreases |events|
  {
    events == [] || (Truthful(exec, d, s, events[0]) && AllTruthful(exec, d, Step(s, events[0]), events[1..]))
  }

  /** The last answer, if it is to a first batch and reports no failure, came while no transaction was left open. */
  ghost predicate SoundAnswer<D(!new), R(!new)>(exec: Engine<D, R>, d: D, log: seq<Entry>)
    requires log != []
  {
    var stage := if Accepted(Front(log)) then Parse(Front(log)).stage else Idle;
    Last(log).Answered? && !Last(log).failed && stage.Busy? && Begin in stage.batch ==>
      Serially(exec, d, Front(log)).joint.None?
  }

  ghost predicate Sound<D(!new), R(!new)>(exec: Engine<D, R>, d: D, log: seq<Entry>)
    decreases |log|
  {
    log == [] || (Sound(exec, d, Front(log)) && SoundAnswer(exec, d, log))
  }

  /** Once BEGIN has been answered with success, no other transaction is open. */
  predicate Alone<D>(l: Ledger<D>, stage: Stage) {
    match stage
    case Ready(_, r, failed) => Locking(r) && !failed ==> l.joint.None?
    case Busy(_, r, b) =>
      b != [] && (if SettlesBatch(b) then b[|b| - 1].Commit? else Locking(r) && Begin !in b) ==> l.joint.None?
    case _ => true
  }

  lemma NoBegin(r: Request, b: seq<Statement>)
    requires AllPermitted(r, b)
    ensures Begin !in b
  {
    forall st | st in b ensures st != Begin {
      assert Permitted(r, st);
    }
  }

  /** BEGIN is in the first batch of a locking transaction, and nowhere else. */
  lemma OnlyLockingBegins(r: Request, b: seq<Statement>)
    requires OpensWith(r, b)
    ensures Begin in b ==> Locking(r)
  {
    var n := |Opening(r)|;
    NoBegin(r, b[n..]);
    assert b == Opening(r) + b[n..];
  }

  lemma NoBeginLater(r: Request, failed: bool, b: seq<Statement>)
    requires MayFollow(r, failed, b)
    ensures Begin !in b
  {
    var n := |b| - 1;
    assert b == b[..n] + [b[n]];
    if AllPermitted(r, b) {
      NoBegin(r, b);
    } else {
      NoBegin(r, b[..n]);
    }
  }

  lemma {:induction false} AloneAlways<D(!new), R(!new)>(exec: Engine<D, R>, d: D, log: seq<Entry>)
    requires Accepted(log) && Sound(exec, d, log)
    ensures Alone(Serially(exec, d, log), Parse(log).stage)
    decreases |log|
  {
    if log != [] {
      Unsnoc(log);
      var front, e := Front(log), Last(log);
      var stage := Parse(front).stage;
      AloneAlways(exec, d, front);
      if stage.Busy? {
        BusyBatch(front);
      }
      if e.Sent? {
        AloneSent(Serially(exec, d, front), stage, e.batch, e.id);
      }
    }
  }

  lemma AloneSent<D>(l: Ledger<D>, stage: Stage, b: seq<Statement>, id: nat)
    requires Alone(l, stage)
    requires (stage.Opened? && OpensWith(stage.request, b))
             || (stage.Ready? && MayFollow(stage.request, stage.failed, b))
    ensures Alone(l, Busy(id, stage.request, b))
  {
    var r := stage.request;
    if stage.Opened? {
      OpeningNeverSettles(r, b);
      assert Locking(r) ==> Opening(r)[|Opening(r)| - 1] == Begin && b[|Opening(r)| - 1] == Begin;
    } else if AllPermitted(r, b) {
      assert Permitted(r, b[|b| - 1]);
    }
  }

  predicate Fails(e: Entry) {
    e.Released? && (e.how.CommitFailed? || e.how.RollbackFailed?)
  }

  predicate NoRollbackAfter(log: seq<Entry>, i: nat) {
    forall k :: i < k < |log| ==> !(log[k].Released? && log[k].how.RollbackOk?)
  }

  /** From a failed COMMIT or ROLLBACK on, until a ROLLBACK succeeds, nothing is settled: neither the failed
      transaction, nor plain statements reported as successful, nor any other transaction; all of them are open
      together. */
  lemma {:induction false} OpenUntilRollback<D(!new), R(!new)>(exec: Engine<D, R>, d: D, log: seq<Entry>, i: nat)
    requires Accepted(log) && Sound(exec, d, log) && i < |log| && Fails(log[i]) && NoRollbackAfter(log, i)
    ensures var l := Serially(exec, d, log); l.joint.Some? && l.settled == Serially(exec, d, log[..i]).settled
    decreases |log|
  {
    Unsnoc(log);
    var front := Front(log);
    if i < |front| {
      assert forall k :: i < k < |front| ==> front[k] == log[k];
      assert front[..i] == log[..i] && front[i] == log[i];
      OpenUntilRollback(exec, d, front, i);
      AloneAlways(exec, d, front);
    } else {
      assert log[..i] == front;
    }
  }

  /** Whatever comes between a failed COMMIT or ROLLBACK and the next successful ROLLBACK is lost with it. */
  lemma LostTogether<D(!new), R(!new)>(exec: Engine<D, R>, d: D, log: seq<Entry>, i: nat)
    requires Accepted(log) && Sound(exec, d, log) && i + 1 < |log| && Fails(log[i]) && NoRollbackAfter(Front(log), i)
    requires Last(log).Released? && Last(log).how.RollbackOk?
    ensures Serially(exec, d, log) == Ledger(Serially(exec, d, log[..i]).settled, None)
  {
    Unsnoc(log);
    var front := Front(log);
    assert forall k :: i < k < |front| ==> front[k] == log[k];
    assert front[..i] == log[..i] && front[i] == log[i];
    OpenUntilRollback(exec, d, front, i);
  }

  /** After a failed COMMIT no transaction commits until a ROLLBACK has succeeded. */
  lemma NoCommitUntilRollback<D(!new), R(!new)>(exec: Engine<D, R>, d: D, log: seq<Entry>, i: nat, j: nat)
    requires Accepted(log) && Sound(exec, d, log) && i < j < |log|
    requires Fails(log[i]) && log[j].Released? && log[j].how.CommitOk?
    ensures exists k :: i < k < j && log[k].Released? && log[k].how.RollbackOk?
    decreases |log|
  {
    Unsnoc(log);
    var front := Front(log);
    if j < |front| {
      NoCommitUntilRollback(exec, d, front, i, j);
      var k :| i < k < j && front[k].Released? && front[k].how.RollbackOk?;
      assert log[k] == front[k];
    } else if NoRollbackAfter(front, i) {
      OpenUntilRollback(exec, d, front, i);
      CommitIsAlone(exec, d, log);
    } else {
      var k :| i < k < |front| && front[k].Released? && front[k].how.RollbackOk?;
      assert log[k] == front[k];
    }
  }

  /** A COMMIT succeeds only while no other transaction is open. */
  lemma CommitIsAlone<D(!new), R(!new)>(exec: Engine<D, R>, d: D, log: seq<Entry>)
    requires Accepted(log) && Sound(exec, d, log) && log != [] && Last(log).Released? && Last(log).how.CommitOk?
    ensures Serially(exec, d, Front(log)).joint.None?
  {
    Unsnoc(log);
    AloneAlways(exec, d, Front(log));
    hide Serially;
  }

  // ---- the schedule that truthful replies leave

  /** `open`: a database transaction is open that nothing but a ROLLBACK will end. */
  datatype Books<D> = Books(settled: D, open: bool)

  /** A transaction counts by its own COMMIT alone, a plain statement counts unless a transaction is left open. */
  function Strictly<D, R>(exec: Engine<D, R>, d: D, log: seq<Entry>): Books<D>
    decreases |log|
  {
    if log == [] then Books(d, false) else
    var x, e := Strictly(exec, d, Front(log)), Last(log);
    if !e.Released? || e.how.FnThrew? then x else
    match e.how
    case CommitOk => Books(Effects(exec, x.settled, Stream(log, e.id)), false)
    case RollbackOk => Books(x.settled, false)
    case CommitFailed => Books(x.settled, true)
    case RollbackFailed => Books(x.settled, true)
    case _ => if x.open then x else Books(Effects(exec, x.settled, Stream(log, e.id)), false)
  }

  lemma {:induction false} SeriallyStrictly<D(!new), R(!new)>(exec: Engine<D, R>, d: D, log: seq<Entry>)
    requires Accepted(log) && Sound(exec, d, log)
    ensures var l := Serially(exec, d, log); Strictly(exec, d, log) == Books(l.settled, l.joint.Some?)
    decreases |log|
  {
    if log != [] {
      Unsnoc(log);
      SeriallyStrictly(exec, d, Front(log));
      AloneAlways(exec, d, Front(log));
      assert [] + Stream(log, Last(log).id) == Stream(log, Last(log).id);
    }
  }

  // ---- truthful replies make sound histories

  /** The outstanding first batch has found the database as the serial schedule says. */
  lemma {:induction false} FoundOpen<D(!new), R(!new)>(exec: Engine<D, R>, d: D, log: seq<Entry>)
    requires Accepted(log) && Parse(log).stage.Busy? && Begin in Parse(log).stage.batch
    ensures var stage := Parse(log).stage;
            && OpensWith(stage.request, stage.batch) && Locking(stage.request)
            && (WorldBefore(exec, d, log).saved.Some? <==> Serially(exec, d, log).joint.Some?)
    decreases |log|
  {
    Unsnoc(log);
    var front, e := Front(log), Last(log);
    var stage := Parse(front).stage;
    if e.Told? {
      FoundOpen(exec, d, front);
    } else {
      TracksAlways(exec, d, front);
      if stage.Opened? {
        OnlyLockingBegins(stage.request, e.batch);
      } else {
        NoBeginLater(stage.request, stage.failed, e.batch);
      }
    }
  }

  /** Inside an open transaction BEGIN is refused. */
  lemma BeginRefused<D, R>(exec: Engine<D, R>, w: World<D>, r: Request, b: seq<Statement>)
    requires Locking(r) && OpensWith(r, b) && w.saved.Some?
    ensures var i := |Opening(r)| - 1; i < |b| && b[i] == Begin && !Results(exec, w, b)[i]
  {
    if |Opening(r)| == 2 {
      assert b[1..][0] == b[1];
    }
  }

  lemma {:induction false} SoundUnanswered<D(!new), R(!new)>(exec: Engine<D, R>, d: D, log: seq<Entry>,
                                                             log1: seq<Entry>)
    requires Sound(exec, d, log) && log <= log1 && Unanswered(log, log1)
    ensures Sound(exec, d, log1)
    decreases |log1|
  {
    if |log| < |log1| {
      var front := Front(log1);
      assert Last(log1) == log1[|log|..][|log1| - 1 - |log|];
      assert forall e :: e in front[|log|..] ==> e in log1[|log|..];
      SoundUnanswered(exec, d, log, front);
    } else {
      assert log1 == log;
    }
  }

  /** The handlers of a first batch that was refused record a failure. */
  lemma RefusedFails<D(!new), R(!new)>(exec: Engine<D, R>, d: D, s: State, s1: State, results: seq<bool>,
                                       scripts: seq<Script>, last: Script)
    requires Inv(s) && Parse(s.log).stage.Busy? && Begin in Parse(s.log).stage.batch && |s.wire| == 1
    requires s.wire[0].id < |s.txs| && s1 == s.(wire := s1.wire) && !SettlesBatch(s.wire[0].batch)
    requires Truthful(exec, d, s, BatchReply(0, results, scripts, last)) && Serially(exec, d, s.log).joint.Some?
    ensures HandleFrom(s1, s.wire[0].id, s.wire[0].batch, results, scripts, 0, None).1.Some?
  {
    var id, b := s.wire[0].id, s.wire[0].batch;
    var r := Parse(s.log).stage.request;
    FoundOpen(exec, d, s.log);
    BeginRefused(exec, WorldBefore(exec, d, s.log), r, b);
    BusyBatch(s.log);
    hide HandleFrom, Results;
    FirstFailure(s1, id, b, results, scripts, 0);
    assert FailsIn(b, results, scripts, |Opening(r)| - 1);
  }

  lemma ReplySound<D(!new), R(!new)>(exec: Engine<D, R>, d: D, s: State, results: seq<bool>, scripts: seq<Script>,
                                     last: Script)
    requires Inv(s) && Sound(exec, d, s.log) && |s.wire| == 1 && s.wire[0].id < |s.txs|
    requires Truthful(exec, d, s, BatchReply(0, results, scripts, last)) && !Reply(s, 0, results, scripts, last).misuse
    ensures Sound(exec, d, Reply(s, 0, results, scripts, last).log)
  {
    var Outstanding(id, b) := s.wire[0];
    var s1 := s.(wire := s.wire[..0] + s.wire[1..]);
    HandleFromPersists(s1, id, b, results, scripts, 0, None);
    HandleFromFollows(s1, id, b, results, scripts, 0, None);
    var (s2, failure) := HandleFrom(s1, id, b, results, scripts, 0, None);
    CompleteFollows(s2, id, failure.Some?, last);
    CompletePersists(s2, id, failure.Some?, last);
    SoundUnanswered(exec, d, s.log, s2.log);
    BusyStage(s);
    if SettlesBatch(b) {
      SettlingIsFinal(s, s1, s2);
    } else {
      QuietHandlers(s, id, results, scripts, last);
      PlainSound(exec, d, s, s1, s2, failure, results, scripts, last);
    }
    SoundUnanswered(exec, d, Verdict(s2, id, failure.Some?).log, Complete(s2, id, failure.Some?, last).log);
  }

  lemma BusyStage(s: State)
    requires Inv(s) && |s.wire| == 1
    ensures Parse(s.log).stage.Busy? && Parse(s.log).stage.id == s.wire[0].id
            && Parse(s.log).stage.batch == s.wire[0].batch
    ensures s.wire[0].batch != []
  {
    BusyBatch(s.log);
  }

  lemma SettlingIsFinal(s: State, s1: State, s2: State)
    requires Inv(s) && |s.wire| == 1 && s.wire[0].id < |s.txs| && SettlesBatch(s.wire[0].batch)
    requires s1 == s.(wire := s1.wire) && Follows(s1, s2)
    ensures s.wire[0].id < |s2.txs| && s2.txs[s.wire[0].id].finalized
  {
    assert TxOk(s.txs[s.wire[0].id], s.wire[0].id, Parse(s.log));
  }

  lemma PlainSound<D(!new), R(!new)>(exec: Engine<D, R>, d: D, s: State, s1: State, s2: State, failure: Option<nat>,
                                     results: seq<bool>, scripts: seq<Script>, last: Script)
    requires Inv(s) && Sound(exec, d, s.log) && |s.wire| == 1 && s.wire[0].id < |s.txs|
             && !SettlesBatch(s.wire[0].batch)
    requires s1 == s.(wire := s.wire[..0] + s.wire[1..]) && Parse(s.log).stage.Busy?
    requires Parse(s.log).stage.batch == s.wire[0].batch
    requires (s2, failure) == HandleFrom(s1, s.wire[0].id, s.wire[0].batch, results, scripts, 0, None)
    requires Truthful(exec, d, s, BatchReply(0, results, scripts, last)) && !s2.misuse && s.wire[0].id < |s2.txs|
    ensures Sound(exec, d, Verdict(s2, s.wire[0].id, failure.Some?).log)
  {
    var Outstanding(id, b) := s.wire[0];
    BusyBatch(s.log);
    assert forall j :: 0 <= j < |b| ==> !Settles(b[j]);
    assert Undisturbed(s1);
    HandlePlainFrom(s1, id, b, results, scripts, 0, None);
    if Begin in b && Serially(exec, d, s.log).joint.Some? {
      RefusedFails(exec, d, s, s1, results, scripts, last);
    }
    hide HandleFrom, Inv, Truthful, Sound;
    SoundVerdict(exec, d, s.log, id, failure.Some?);
  }

  lemma SoundVerdict<D(!new), R(!new)>(exec: Engine<D, R>, d: D, log: seq<Entry>, id: nat, failed: bool)
    requires Sound(exec, d, log) && Accepted(log) && Parse(log).stage.Busy?
    requires failed || Begin !in Parse(log).stage.batch || Serially(exec, d, log).joint.None?
    ensures Sound(exec, d, log + [Answered(id, failed)])
  {
    assert Front(log + [Answered(id, failed)]) == log;
  }

  lemma StepSound<D(!new), R(!new)>(exec: Engine<D, R>, d: D, s: State, e: Event)
    requires Inv(s) && Sound(exec, d, s.log) && Truthful(exec, d, s, e) && !Step(s, e).misuse
    ensures Sound(exec, d, Step(s, e).log)
  {
    hide Sound, Inv, Truthful, Act, Start, Reply, Perform, OpenFail, Moves;
    match e
    case Call(a) => ActFollows(s, a); FollowsSound(exec, d, s, Act(s, a));
    case TickRuns(fn, last) => TickSound(exec, d, s, fn, last);
    case BatchReply(k, results, scripts, last) =>
      if k < |s.wire| && s.wire[k].id < |s.txs| {
        OnlyFirst(s, k);
        ReplySound(exec, d, s, results, scripts, last);
      }
    case OpenSucceeds(script) =>
      if s.opens > 0 {
        var s1 := s.(opens := s.opens - 1);
        var s2 := if s1.db.NotOpen? then s1 else s1.(db := IsOpen);
        PerformFollows(s2, script.acts);
        FollowsSound(exec, d, s2, Perform(s2, script.acts));
      }
    case OpenFails(script, aborts) =>
      if s.opens > 0 {
        OpenFailMoves(s, script, aborts);
        MovesLog(s, OpenFail(s, script, aborts));
        SoundUnanswered(exec, d, s.log, OpenFail(s, script, aborts).log);
      }
  }

  lemma OnlyFirst(s: State, k: nat)
    requires Inv(s) && k < |s.wire|
    ensures |s.wire| == 1 && k == 0
  {
  }

  lemma MovesLog(s: State, s1: State)
    requires Moves(s, s1)
    ensures s.log <= s1.log
  {
  }

  lemma FollowsSound<D(!new), R(!new)>(exec: Engine<D, R>, d: D, s: State, s1: State)
    requires Sound(exec, d, s.log) && Follows(s, s1)
    ensures Sound(exec, d, s1.log)
  {
    SoundUnanswered(exec, d, s.log, s1.log);
  }

  lemma TickSound<D(!new), R(!new)>(exec: Engine<D, R>, d: D, s: State, fn: Script, last: Script)
    requires Sound(exec, d, s.log)
    ensures Sound(exec, d, Tick(s, fn, last).log)
  {
    hide Start, Follows, Sound;
    if s.ticks > 0 {
      var s1 := s.(ticks := s.ticks - 1);
      if CanStart(s1) {
        StartFollows(Shift(s1), s1.queue[0], fn, last);
        SoundUnanswered(exec, d, s.log, Shift(s1).log);
        FollowsSound(exec, d, Shift(s1), Start(Shift(s1), s1.queue[0], fn, last));
      }
    }
  }

  lemma {:induction false} RunSound<D(!new), R(!new)>(exec: Engine<D, R>, d: D, s: State, events: seq<Event>)
    requires Inv(s) && Sound(exec, d, s.log) && AllTruthful(exec, d, s, events) && !RunFrom(s, events).misuse
    ensures Sound(exec, d, RunFrom(s, events).log)
    decreases |events|
  {
    hide Step, Inv, Sound, Truthful;
    if events != [] {
      RunMisused(Step(s, events[0]), events[1..]);
      StepKeeps(s, events[0]);
      StepSound(exec, d, s, events[0]);
      RunSound(exec, d, Step(s, events[0]), events[1..]);
    }
  }

  /** With truthful replies, whenever no transaction runs: what is settled is what the transactions that have committed
      themselves, and the plain statements issued while no transaction was left open, make of the database, in queue
      order; unless one is left open that is the whole database, and otherwise a ROLLBACK brings it back. */
  lemma StrictlySerial<D(!new), R(!new)>(exec: Engine<D, R>, d: D, events: seq<Event>)
    requires !After(events).misuse && !After(events).inProgress && AllTruthful(exec, d, Initial, events)
    ensures var log := After(events).log; var w, x := Replay(exec, d, log), Strictly(exec, d, log);
            if x.open then w.saved == Some(x.settled) else w == World(x.settled, None)
  {
    SerialAtomic(exec, d, events);
    EveryRun([]);
    RunSound(exec, d, Initial, events);
    EveryRun(events);
    SeriallyStrictly(exec, d, After(events).log);
  }

  /** Over every run with truthful replies: after a failed COMMIT or ROLLBACK nothing commits until a ROLLBACK
      succeeds. */
  lemma CommitsAfterRollback<D(!new), R(!new)>(exec: Engine<D, R>, d: D, events: seq<Event>, i: nat, j: nat)
    requires !After(events).misuse && AllTruthful(exec, d, Initial, events)
    requires i < j < |After(events).log| && Fails(After(events).log[i])
    requires After(events).log[j].Released? && After(events).log[j].how.CommitOk?
    ensures exists k :: i < k < j && After(events).log[k].Released? && After(events).log[k].how.RollbackOk?
  {
    EveryRun([]);
    RunSound(exec, d, Initial, events);
    EveryRun(events);
    NoCommitUntilRollback(exec, d, After(events).log, i, j);
  }
}
