/** Batched execution refines the statement queue over whole runs: whatever else happens meanwhile. */
module RunRefinement {
  import opened Statements
  import opened Protocol
  import opened Scheduler
  import opened Invariant
  import opened Histories
  import opened Runs
  import opened RunHistories
  import opened Steps
  import opened Transitions
  import opened Storage
  import opened QueueModel
  import opened Refinement

  // ---- calls between the replies

  /** While a transaction is paused it holds the lock, and calls on others send nothing. */
  lemma OtherCallSilent(s: State, a: Action, id: nat)
    requires Inv(s) && s.wire == [] && id < |s.txs| && WaitsForMore(s.txs[id]) && !CallsOn(a, id) && Allowed(s, a)
    ensures Act(s, a).wire == []
  {
    var p := Parse(s.log);
    assert TxOk(s.txs[id], id, p);
    match a
    case ExecuteSql(tx, _, _, _, _) => if tx < |s.txs| { assert TxOk(s.txs[tx], tx, p); }
    case End(tx, _, _) => if tx < |s.txs| { assert TxOk(s.txs[tx], tx, p); }
    case Abort(tx, _) => if tx < |s.txs| { assert TxOk(s.txs[tx], tx, p); }
    case _ =>
  }

  lemma WaitingCall<D, R>(s: State, q: Queue<D, R>, id: nat, a: Action)
    requires Inv(s) && Allowed(s, a) && Waiting(s, q, id)
    ensures Waiting(Act(s, a), Heed(q, id, a), id) && !Finished(q) && Act(s, a).wire == s.wire
  {
    ActHeeds(s, q, id, s.wire[0].batch, a);
    ActKeeps(s, a);
    hide Act, Heed, Allowed;
  }

  lemma PausingCall<D, R>(s: State, q: Queue<D, R>, id: nat, a: Action)
    requires Inv(s) && Allowed(s, a) && Pausing(s, q, id)
    ensures Phase(Act(s, a), Heed(q, id, a), id) && !Finished(q)
  {
    if CallsOn(a, id) {
      match a
      case ExecuteSql(_, text, params, ok, err) => PausedSends(s, q, id, a, Sql(text, params, ok, err));
      case Abort(_, _) => PausedSends(s, q, id, a, Invalid);
      case End(_, _, _) => PausedEnds(s, q, id, a);
    } else {
      OtherCall(s, a, id);
      OtherHeed(q, a, id);
      OtherCallSilent(s, a, id);
      assert Pausing(Act(s, a), q, id);
      hide Act, Heed;
    }
  }

  lemma PausedSends<D, R>(s: State, q: Queue<D, R>, id: nat, a: Action, st: Statement)
    requires Pausing(s, q, id) && CallsOn(a, id)
    requires (a.Abort? && st == Invalid) || (a.ExecuteSql? && st == Sql(a.text, a.params, a.onSuccess, a.onError))
    ensures Waiting(Act(s, a), Heed(q, id, a), id)
  {
    assert [] + [st] == [st] == [st] + [];
  }

  lemma PausedEnds<D, R>(s: State, q: Queue<D, R>, id: nat, a: Action)
    requires Pausing(s, q, id) && CallsOn(a, id) && a.End?
    ensures Committing(Act(s, a), Heed(q, id, a), id)
  {
    assert [] + [Commit] == [Commit];
  }

  lemma SettlingCall<D, R>(s: State, q: Queue<D, R>, id: nat, a: Action)
    requires Inv(s) && Allowed(s, a) && (Committing(s, q, id) || RollingBack(s, q, id))
    ensures Finished(q) && Phase(Act(s, a), q, id) && Act(s, a).wire == s.wire
  {
    ActPersists(s, a, id);
    ActKeeps(s, a);
    hide Act, Allowed;
  }

  lemma ActPhase<D, R>(s: State, q: Queue<D, R>, id: nat, a: Action)
    requires Inv(s) && Allowed(s, a) && Phase(s, q, id)
    ensures Phase(Act(s, a), if Finished(q) then q else Heed(q, id, a), id)
    ensures s.wire != [] ==> Act(s, a).wire == s.wire
  {
    hide Inv, Act, Allowed, Waiting, Pausing, Committing, RollingBack, Finished;
    if Waiting(s, q, id) {
      WaitingCall(s, q, id, a);
    } else if Pausing(s, q, id) {
      PausingCall(s, q, id, a);
      PausingIsSilent(s, q, id);
    } else {
      SettlingCall(s, q, id, a);
    }
  }

  lemma PausingIsSilent<D, R>(s: State, q: Queue<D, R>, id: nat)
    requires Pausing(s, q, id)
    ensures s.wire == []
  {
  }

  function Outsides(acts: seq<Action>): seq<Move> {
    seq(|acts|, i requires 0 <= i < |acts| => Outside(acts[i]))
  }

  /** Calls of other callbacks: those that reach the queue before it is finished are heeded, in order. */
  lemma {:induction false} PerformPhase<D, R>(exec: Engine<D, R>, s: State, q: Queue<D, R>, id: nat, acts: seq<Action>)
    requires Inv(s) && Phase(s, q, id) && !Perform(s, acts).misuse
    ensures Phase(Perform(s, acts), Play(exec, id, q, Outsides(acts)), id)
    ensures s.wire != [] ==> Perform(s, acts).wire == s.wire
    decreases |acts|
  {
    hide Inv, Phase, Act, Allowed, Heed;
    if acts != [] {
      var s1 := Act(s, acts[0]);
      MisuseSticks(s1, acts[1..]);
      AllowedOrMisuse(s, acts[0]);
      ActKeepsIff(s, acts[0]);
      ActPhase(s, q, id, acts[0]);
      assert Outsides(acts)[1..] == Outsides(acts[1..]);
      PerformPhase(exec, s1, PlayOne(exec, id, q, Outside(acts[0])), id, acts[1..]);
    }
  }

  lemma SamePhase<D, R>(s: State, s1: State, q: Queue<D, R>, id: nat)
    requires Phase(s, q, id) && s1.txs == s.txs && s1.wire == s.wire
    ensures Phase(s1, q, id)
  {
  }

  // ---- a run, observed

  /** The transaction has given the lock back. */
  predicate Ended(log: seq<Entry>, id: nat) {
    exists how: How :: Released(id, how) in log
  }

  /** A run as transaction `id` sees it: the scheduler, the database, the handler calls and the executed statements. */
  datatype Observed<D, R> = Observed(s: State, w: World<D>, calls: seq<Invocation<R>>, done: seq<Statement>)

  /** The event is the reply to the outstanding batch of `id`. */
  predicate Replies(s: State, id: nat, e: Event) {
    e.BatchReply? && e.k < |s.wire| && s.wire[e.k].id == id && id < |s.txs|
  }

  /** Native code executes a batch as a whole; what happens after the end of `id` is not its concern. */
  function Observe<D, R>(exec: Engine<D, R>, id: nat, c: Observed<D, R>, e: Event): Observed<D, R> {
    if Replies(c.s, id, e) && !Ended(c.s.log, id) then
      var b := c.s.wire[e.k].batch;
      Observed(Step(c.s, e), Execute(exec, c.w, b), c.calls + InvokedAll(exec, c.w, b), c.done + b)
    else c.(s := Step(c.s, e))
  }

  function ObserveAll<D, R>(exec: Engine<D, R>, id: nat, c: Observed<D, R>, events: seq<Event>): Observed<D, R>
    decreases |events|
  {
    if events == [] then c else ObserveAll(exec, id, Observe(exec, id, c, events[0]), events[1..])
  }

  /** Replies to `id` report what the database has done. */
  predicate Genuine<D, R>(exec: Engine<D, R>, id: nat, c: Observed<D, R>, e: Event) {
    Replies(c.s, id, e) && !Ended(c.s.log, id) ==> e.results == Results(exec, c.w, c.s.wire[e.k].batch)
  }

  predicate AllGenuine<D, R>(exec: Engine<D, R>, id: nat, c: Observed<D, R>, events: seq<Event>)
    decreases |events|
  {
    events == [] || (Genuine(exec, id, c, events[0])
      && AllGenuine(exec, id, Observe(exec, id, c, events[0]), events[1..]))
  }

  /** What an event means for the queue: a reply serves as many statements as the batch has, one at a time and each
      with its own handler; other application code that runs may call from outside. */
  function MovesOf(s: State, id: nat, e: Event): seq<Move> {
    if Ended(s.log, id) then [] else
    match e
    case Call(a) => [Outside(a)]
    case TickRuns(_, _) => []
    case BatchReply(_, _, scripts, _) =>
      if Replies(s, id, e) then Serves(Padded(scripts, 0, |s.wire[e.k].batch|)) else []
    case OpenSucceeds(script) => if s.opens > 0 then Outsides(script.acts) else []
    case OpenFails(script, aborts) => if s.opens > 0 then Outsides(FailureCalls(s, script, aborts)) else []
  }

  function PlayAll<D, R>(exec: Engine<D, R>, id: nat, s: State, q: Queue<D, R>, events: seq<Event>): Queue<D, R>
    decreases |events|
  {
    if events == [] then q
    else PlayAll(exec, id, Step(s, events[0]), Play(exec, id, q, MovesOf(s, id, events[0])), events[1..])
  }

  // ---- the simulation

  ghost predicate Sim<D(!new), R(!new)>(c: Observed<D, R>, q: Queue<D, R>, id: nat, d0: D) {
    && Inv(c.s) && Phase(c.s, q, id)
    && (Begun(q, d0) || (Beginning(q, d0) && c.s.wire != [] && Opens(c.s.wire[0].batch)))
    && if q.failed then c.w.saved == Some(d0) && q.calls <= c.calls && q.done <= c.done
       else c.w == q.w && c.calls == q.calls && c.done == q.done
  }

  /** The run of the transaction is over, and it ended as the queue did.  Committed: the queue's database, the
      queue's handler calls with the queue's replies, and the queue's statements in the queue's order, followed by
      COMMIT.  Rolled back: the database it began with, and the same statements and handler calls up to the failure
      that ends the queue. */
  ghost predicate Alike<D(!new), R(!new)>(c: Observed<D, R>, q: Queue<D, R>, id: nat, d0: D) {
    && Finished(q)
    && Released(id, if q.failed then RollbackOk else CommitOk) in c.s.log
    && if q.failed then c.w == World(d0, None) && q.calls <= c.calls && q.done <= c.done
       else c.w == World(q.w.db, None) && c.calls == q.calls && c.done == q.done + [Commit]
  }

  /** What the simulation says between the events: which of them is ahead, and by what. */
  ghost predicate Level<D(!new), R(!new)>(c: Observed<D, R>, q: Queue<D, R>, id: nat, d0: D) {
    if Ended(c.s.log, id) then Alike(c, q, id, d0) else Sim(c, q, id, d0)
  }

  /** Whoever is in one of the phases holds the lock. */
  lemma PhaseHolds<D, R>(s: State, q: Queue<D, R>, id: nat)
    requires Inv(s) && Phase(s, q, id)
    ensures id < |s.txs| && s.inProgress && Current(Parse(s.log).stage, id) && !Ended(s.log, id)
  {
    var p := Parse(s.log);
    if Pausing(s, q, id) {
      assert TxOk(s.txs[id], id, p);
    }
    LatestIsActive(s.log);
    forall how: How ensures Released(id, how) !in s.log {
      if Released(id, how) in s.log {
        EndedIsOver(s.log, Released(id, how));
      }
    }
  }

  lemma {:induction false} ServesKeep<D(!new), R(!new)>(exec: Engine<D, R>, id: nat, q: Queue<D, R>,
                                                        scripts: seq<Script>, d0: D)
    requires Begun(q, d0) || Beginning(q, d0)
    ensures var q1 := ServeAll(exec, id, q, scripts); Begun(q1, d0) || Beginning(q1, d0)
    decreases |scripts|
  {
    hide Begun, Beginning, ServeOne;
    if scripts != [] {
      ServeKeeps(exec, id, q, scripts[0], d0);
      assert Serves(scripts)[1..] == Serves(scripts[1..]);
      ServesKeep(exec, id, ServeOne(exec, id, q, scripts[0]), scripts[1..], d0);
    }
  }

  lemma ExecuteOpens<D, R>(exec: Engine<D, R>, w: World<D>, b: seq<Statement>)
    requires Opens(b) && w.saved == None
    ensures Execute(exec, w, b).saved == Some(w.db)
  {
    if b[0].Begin? {
      OrdinaryKeepsSaved(exec, World(w.db, Some(w.db)), b[1..]);
    } else {
      assert b[1..][1..] == b[2..];
      assert Execute(exec, w, b) == Execute(exec, World(w.db, Some(w.db)), b[2..]);
      OrdinaryKeepsSaved(exec, World(w.db, Some(w.db)), b[2..]);
    }
  }

  /** After the first batch the database has been saved. */
  lemma BatchSaves<D(!new), R(!new)>(exec: Engine<D, R>, q: Queue<D, R>, b: seq<Statement>, d0: D)
    requires Begun(q, d0) || (Beginning(q, d0) && Opens(b))
    requires b <= q.pending
    ensures Execute(exec, q.w, b).saved == Some(d0)
  {
    if Begun(q, d0) {
      assert forall st :: st in b ==> st in q.pending;
      OrdinaryKeepsSaved(exec, q.w, b);
    } else {
      ExecuteOpens(exec, q.w, b);
    }
  }

  /** The reply to a batch that goes on. */
  lemma WaitingReply<D(!new), R(!new)>(exec: Engine<D, R>, id: nat, c: Observed<D, R>, q: Queue<D, R>, e: Event, d0: D)
    requires Sim(c, q, id, d0) && Waiting(c.s, q, id) && Replies(c.s, id, e) && e.k == 0 && !Ended(c.s.log, id)
    requires Genuine(exec, id, c, e) && !Step(c.s, e).misuse
    ensures Sim(Observe(exec, id, c, e), Play(exec, id, q, MovesOf(c.s, id, e)), id, d0)
  {
    var b := c.s.wire[0].batch;
    var q1 := ServeAll(exec, id, q, Padded(e.scripts, 0, |b|));
    StepKeeps(c.s, e);
    hide Inv, Phase, Reply, InvokedAll, Begun, Beginning, Opens, Execute, Results;
    ReplyServes(exec, c.s, q, id, e.results, e.scripts, e.last);
    ServesKeep(exec, id, q, Padded(e.scripts, 0, |b|), d0);
    BatchSaves(exec, q, b, d0);
    SavedMeansBegun(q1, d0);
  }

  lemma SavedMeansBegun<D(!new), R(!new)>(q: Queue<D, R>, d0: D)
    requires Begun(q, d0) || Beginning(q, d0)
    ensures q.failed || q.w.saved == Some(d0) ==> Begun(q, d0)
  {
  }

  /** The reply to COMMIT or ROLLBACK. */
  lemma SettlingReply<D(!new), R(!new)>(exec: Engine<D, R>, id: nat, c: Observed<D, R>, q: Queue<D, R>, e: Event, d0: D)
    requires Sim(c, q, id, d0) && (Committing(c.s, q, id) || RollingBack(c.s, q, id)) && Replies(c.s, id, e)
             && !Ended(c.s.log, id)
    requires Genuine(exec, id, c, e)
    ensures Play(exec, id, q, MovesOf(c.s, id, e)) == q
    ensures Alike(Observe(exec, id, c, e), q, id, d0) && Ended(Observe(exec, id, c, e).s.log, id)
  {
    var b := c.s.wire[0].batch;
    SettlingBatch(exec, id, c, q, d0);
    hide *;
    SettlingReplies(exec, id, c, q, e, d0);
    EndingReply(c.s, id, e.results, e.scripts, e.last);
    NothingToServe(exec, id, q, Padded(e.scripts, 0, |b|));
    EndsAlike(exec, id, c, q, e, d0);
  }

  /** What the settling batch does to the database. */
  lemma SettlingBatch<D(!new), R(!new)>(exec: Engine<D, R>, id: nat, c: Observed<D, R>, q: Queue<D, R>, d0: D)
    requires Sim(c, q, id, d0) && (Committing(c.s, q, id) || RollingBack(c.s, q, id))
    ensures |c.s.wire| == 1 && c.s.wire[0].id == id && id < |c.s.txs| && Finished(q) && (q.failed || q.pending == [])
    ensures var b := c.s.wire[0].batch; var w1 := Execute(exec, c.w, b);
            && SettlesBatch(b) && Nth(Results(exec, c.w, b), |b| - 1, false)
            && if q.failed then b[|b| - 1] == Rollback && w1 == World(d0, None)
               else b == [Commit] && w1 == World(q.w.db, None) && InvokedAll(exec, c.w, b) == []
  {
    var b := c.s.wire[0].batch;
    var n := |b| - 1;
    hide Inv, Beginning, Phase;
    assert b == b[..n] + [b[n]];
    SettledWorld(c, q, id, d0);
    LastResult(exec, c.w, b[..n], b[n]);
    if !q.failed {
      assert b[1..] == [] && Execute(exec, c.w, []) == c.w;
    }
  }

  lemma SettledWorld<D(!new), R(!new)>(c: Observed<D, R>, q: Queue<D, R>, id: nat, d0: D)
    requires Sim(c, q, id, d0) && (Committing(c.s, q, id) || RollingBack(c.s, q, id))
    ensures c.w.saved == Some(d0) && (!q.failed ==> c.w == q.w)
  {
    hide Inv, Phase;
  }

  lemma SettlingReplies<D(!new), R(!new)>(exec: Engine<D, R>, id: nat, c: Observed<D, R>, q: Queue<D, R>, e: Event,
                                          d0: D)
    requires |c.s.wire| == 1 && Replies(c.s, id, e) && Genuine(exec, id, c, e) && !Ended(c.s.log, id)
    ensures e.BatchReply? && e.k == 0 && e.results == Results(exec, c.w, c.s.wire[0].batch)
    ensures MovesOf(c.s, id, e) == Serves(Padded(e.scripts, 0, |c.s.wire[0].batch|))
  {
    hide Results, Execute;
  }

  lemma EndsAlike<D(!new), R(!new)>(exec: Engine<D, R>, id: nat, c: Observed<D, R>, q: Queue<D, R>, e: Event, d0: D)
    requires |c.s.wire| == 1 && Replies(c.s, id, e) && !Ended(c.s.log, id) && e.k == 0 && Finished(q)
    requires ServeAll(exec, id, q, Padded(e.scripts, 0, |c.s.wire[0].batch|)) == q
    requires MovesOf(c.s, id, e) == Serves(Padded(e.scripts, 0, |c.s.wire[0].batch|))
    requires if q.failed then q.calls <= c.calls && q.done <= c.done else c.calls == q.calls && c.done == q.done
    requires var b := c.s.wire[0].batch; var w1 := Execute(exec, c.w, b);
             && b != [] && Released(id, if b[|b| - 1].Commit? then CommitOk else RollbackOk)
                           in Reply(c.s, 0, e.results, e.scripts, e.last).log
             && if q.failed then b[|b| - 1] == Rollback && w1 == World(d0, None)
                else b == [Commit] && w1 == World(q.w.db, None) && InvokedAll(exec, c.w, b) == []
    ensures Play(exec, id, q, MovesOf(c.s, id, e)) == q
    ensures Alike(Observe(exec, id, c, e), q, id, d0) && Ended(Observe(exec, id, c, e).s.log, id)
  {
    hide Reply, Execute, InvokedAll, Play, MovesOf, Padded, Serves;
    assert c.calls + [] == c.calls;
  }

  lemma {:induction false} NothingToServe<D, R>(exec: Engine<D, R>, id: nat, q: Queue<D, R>, scripts: seq<Script>)
    requires q.failed || q.pending == []
    ensures ServeAll(exec, id, q, scripts) == q
    decreases |scripts|
  {
    if scripts != [] {
      assert Serves(scripts)[1..] == Serves(scripts[1..]);
      NothingToServe(exec, id, q, scripts[1..]);
    }
  }

  /** Any event that is not a reply to `id`: other application code runs, nothing is sent, started or released. */
  lemma OtherEvent<D, R>(exec: Engine<D, R>, s: State, q: Queue<D, R>, id: nat, e: Event)
    requires Inv(s) && Phase(s, q, id) && !Replies(s, id, e) && !Step(s, e).misuse && !Ended(s.log, id)
    ensures Phase(Step(s, e), Play(exec, id, q, MovesOf(s, id, e)), id)
    ensures s.wire != [] ==> Step(s, e).wire == s.wire
  {
    PhaseHolds(s, q, id);
    match e
    case Call(a) => OneCall(exec, s, q, id, a);
    case TickRuns(_, _) => if s.ticks > 0 { SamePhase(s, s.(ticks := s.ticks - 1), q, id); }
    case BatchReply(k, _, _, _) => OnlyOneBatch(s, id, e);
    case OpenSucceeds(script) => if s.opens > 0 { OpenedMeanwhile(exec, s, q, id, script); }
    case OpenFails(script, aborts) => if s.opens > 0 { FailedMeanwhile(exec, s, q, id, script, aborts); }
  }

  lemma OneCall<D, R>(exec: Engine<D, R>, s: State, q: Queue<D, R>, id: nat, a: Action)
    requires Inv(s) && Phase(s, q, id) && !Act(s, a).misuse
    ensures Phase(Act(s, a), Play(exec, id, q, [Outside(a)]), id)
    ensures s.wire != [] ==> Act(s, a).wire == s.wire
  {
    hide Inv, Phase, Act, Heed;
    AllowedOrMisuse(s, a);
    ActPhase(s, q, id, a);
    assert [Outside(a)][1..] == [];
    assert Play(exec, id, q, [Outside(a)]) == PlayOne(exec, id, q, Outside(a));
  }

  lemma OnlyOneBatch(s: State, id: nat, e: Event)
    requires Inv(s) && Current(Parse(s.log).stage, id) && id < |s.txs| && e.BatchReply? && !Replies(s, id, e)
    ensures Step(s, e) == s
  {
  }

  lemma OpenedMeanwhile<D, R>(exec: Engine<D, R>, s: State, q: Queue<D, R>, id: nat, script: Script)
    requires Inv(s) && Phase(s, q, id) && s.opens > 0 && !Step(s, OpenSucceeds(script)).misuse
    ensures Phase(Step(s, OpenSucceeds(script)), Play(exec, id, q, Outsides(script.acts)), id)
    ensures s.wire != [] ==> Step(s, OpenSucceeds(script)).wire == s.wire
  {
    var s1 := s.(opens := s.opens - 1);
    var s2 := if s1.db.NotOpen? then s1 else s1.(db := IsOpen);
    assert Inv(s2);
    SamePhase(s, s2, q, id);
    hide Inv, Phase, Perform, Play;
    PerformPhase(exec, s2, q, id, script.acts);
    SamePhase(Perform(s2, script.acts), Step(s, OpenSucceeds(script)), Play(exec, id, q, Outsides(script.acts)), id);
  }

  lemma OutsidesSplit(a: seq<Action>, b: seq<Action>)
    ensures Outsides(a + b) == Outsides(a) + Outsides(b)
  {
  }

  /** One turn of the abort loop, while the transaction runs. */
  lemma AbortOnePhase<D, R>(exec: Engine<D, R>, s: State, q: Queue<D, R>, id: nat, tx: nat, script: Script)
    requires Inv(s) && Phase(s, q, id) && tx in s.queue && !AbortOne(s, tx, script).0.misuse
    ensures tx < |s.txs|
    ensures var acts := if s.txs[tx].onError then script.acts else []; var s1 := AbortOne(s, tx, script).0;
            && Phase(s1, Play(exec, id, q, Outsides(acts)), id) && (s.wire != [] ==> s1.wire == s.wire)
            && Inv(s1) && s.queue <= s1.queue
  {
    hide Inv, Phase, Perform, Play;
    ToldKeeps(s, tx);
    AbortOneKeeps(s, tx, script);
    var s0 := Logged(s, Told(tx));
    SamePhase(s, s0, q, id);
    if s.txs[tx].onError {
      PerformPhase(exec, s0, q, id, script.acts);
    } else {
      PlayNothing(exec, id, q);
    }
  }

  lemma PlayNothing<D, R>(exec: Engine<D, R>, id: nat, q: Queue<D, R>)
    ensures Play(exec, id, q, Outsides([])) == q
  {
  }

  /** The abort loop, while the transaction runs: it hears the calls of the callbacks, and nothing else happens to
      it. */
  lemma {:induction false} AbortFromPhase<D, R>(exec: Engine<D, R>, s: State, q: Queue<D, R>, id: nat, ids: seq<nat>,
                                                scripts: seq<Script>, i: nat)
    requires Inv(s) && Phase(s, q, id) && i <= |ids| && ids <= s.queue && !AbortFrom(s, ids, scripts, i).0.misuse
    ensures var s1 := AbortFrom(s, ids, scripts, i).0;
            && Phase(s1, Play(exec, id, q, Outsides(LoopCalls(s, ids, scripts, i))), id)
            && (s.wire != [] ==> s1.wire == s.wire)
    decreases |ids| - i
  {
    hide Inv, Phase, AbortFrom, AbortOne, Play, Outsides;
    if i == |ids| {
      AbortFromEnd(s, ids, scripts);
      PlayNothing(exec, id, q);
    } else {
      var script := Nth(scripts, i, Quiet);
      AbortFromStep(s, ids, scripts, i);
      assert s.queue[i] == ids[i];
      var (s1, threw) := AbortOne(s, ids[i], script);
      if s1.misuse {
        AbortFromSticks(s1, ids, scripts, i + 1);
      }
      AbortOnePhase(exec, s, q, id, ids[i], script);
      var acts := if s.txs[ids[i]].onError then script.acts else [];
      if threw {
        assert LoopCalls(s, ids, scripts, i) == acts;
      } else {
        var q1 := Play(exec, id, q, Outsides(acts));
        AbortFromPhase(exec, s1, q1, id, ids, scripts, i + 1);
        OutsidesSplit(acts, LoopCalls(s1, ids, scripts, i + 1));
        PlaySplit(exec, id, q, Outsides(acts), Outsides(LoopCalls(s1, ids, scripts, i + 1)));
      }
    }
  }

  /** An open failure, while the transaction runs: unless it takes the lock away, the queue hears all its calls. */
  lemma FailedMeanwhile<D, R>(exec: Engine<D, R>, s: State, q: Queue<D, R>, id: nat, script: Script,
                              aborts: seq<Script>)
    requires Inv(s) && Phase(s, q, id) && s.opens > 0 && s.inProgress && !Step(s, OpenFails(script, aborts)).misuse
    ensures Phase(Step(s, OpenFails(script, aborts)), Play(exec, id, q, Outsides(FailureCalls(s, script, aborts))), id)
    ensures s.wire != [] ==> Step(s, OpenFails(script, aborts)).wire == s.wire
  {
    hide Inv, Phase, Perform, Play, AbortAll, Outsides;
    var s1 := Perform(s, script.acts);
    OpensGrow(s, script.acts);
    var s2 := s1.(opens := s1.opens - 1);
    AbortAllSticks(s2.(db := NotOpen), aborts);
    PerformKeepsInv(s, script.acts);
    PerformPhase(exec, s, q, id, script.acts);
    var q1 := Play(exec, id, q, Outsides(script.acts));
    PhaseHolds(s1, q1, id);
    OpenEnds(s1);
    SamePhase(s1, s2, q1, id);
    SamePhase(s1, s2.(db := NotOpen), q1, id);
    if script.outcome.Throws? {
      assert FailureCalls(s, script, aborts) == script.acts;
    } else {
      AbortAllPhase(exec, s2.(db := NotOpen), q1, id, aborts);
      var calls := LoopCalls(s2.(db := NotOpen), s2.queue, aborts, 0);
      OutsidesSplit(script.acts, calls);
      PlaySplit(exec, id, q, Outsides(script.acts), Outsides(calls));
    }
  }

  lemma AbortAllPhase<D, R>(exec: Engine<D, R>, s: State, q: Queue<D, R>, id: nat, aborts: seq<Script>)
    requires Inv(s) && Phase(s, q, id) && !AbortAll(s, aborts).misuse
    ensures Phase(AbortAll(s, aborts), Play(exec, id, q, Outsides(LoopCalls(s, s.queue, aborts, 0))), id)
    ensures s.wire != [] ==> AbortAll(s, aborts).wire == s.wire
  {
    hide Inv, Phase, Play, AbortFrom, Outsides;
    if s.queue == [] {
      PlayNothing(exec, id, q);
    } else {
      AbortFromPhase(exec, s, q, id, s.queue, aborts, 0);
      AbortFromKeeps(s, s.queue, aborts, 0);
      var (s1, threw) := AbortFrom(s, s.queue, aborts, 0);
      PhaseHolds(s1, Play(exec, id, q, Outsides(LoopCalls(s, s.queue, aborts, 0))), id);
    }
  }

  lemma {:induction false} OutsidesKeep<D(!new), R(!new)>(exec: Engine<D, R>, id: nat, q: Queue<D, R>,
                                                          acts: seq<Action>, d0: D)
    ensures var q1 := Play(exec, id, q, Outsides(acts));
            && q1.w == q.w && q1.calls == q.calls && q1.done == q.done && q1.failed == q.failed
            && (Begun(q, d0) ==> Begun(q1, d0)) && (Beginning(q, d0) ==> Beginning(q1, d0))
    decreases |acts|
  {
    hide Begun, Beginning;
    if acts != [] {
      HeedKeeps(q, id, acts[0], d0);
      assert Outsides(acts)[1..] == Outsides(acts[1..]);
      OutsidesKeep(exec, id, PlayOne(exec, id, q, Outside(acts[0])), acts[1..], d0);
    }
  }

  lemma OtherMoves(s: State, id: nat, e: Event) returns (acts: seq<Action>)
    requires !Replies(s, id, e)
    ensures MovesOf(s, id, e) == Outsides(acts)
  {
    acts := [];
    if !Ended(s.log, id) {
      match e
      case Call(a) => acts := [a];
      case OpenSucceeds(script) => if s.opens > 0 { acts := script.acts; }
      case OpenFails(script, aborts) => if s.opens > 0 { acts := FailureCalls(s, script, aborts); }
      case _ =>
    }
  }

  /** An event that is not a reply to `id`. */
  lemma OtherEventSim<D(!new), R(!new)>(exec: Engine<D, R>, id: nat, c: Observed<D, R>, q: Queue<D, R>, e: Event, d0: D)
    requires Sim(c, q, id, d0) && !Replies(c.s, id, e) && !Step(c.s, e).misuse && !Ended(c.s.log, id)
    ensures Sim(Observe(exec, id, c, e), Play(exec, id, q, MovesOf(c.s, id, e)), id, d0)
  {
    hide Inv, Phase, Step, Play, Begun, Beginning, Opens, MovesOf, Ended, Replies;
    OtherEvent(exec, c.s, q, id, e);
    StepKeeps(c.s, e);
    var acts := OtherMoves(c.s, id, e);
    OutsidesKeep(exec, id, q, acts, d0);
  }

  lemma LogGrows(s: State, e: Event)
    ensures s.log <= Step(s, e).log
  {
    hide Start, Perform, Act, Reply, OpenOk, OpenFail;
    if e.TickRuns? {
      if s.ticks > 0 {
        var s1 := s.(ticks := s.ticks - 1);
        if CanStart(s1) {
          StartFollows(Shift(s1), s1.queue[0], e.fn, e.last);
        }
      }
    } else {
      StepMoves(s, e);
    }
  }

  lemma EndedStays<D(!new), R(!new)>(exec: Engine<D, R>, id: nat, c: Observed<D, R>, q: Queue<D, R>, e: Event, d0: D)
    requires Ended(c.s.log, id) && Alike(c, q, id, d0)
    ensures Ended(Step(c.s, e).log, id) && MovesOf(c.s, id, e) == [] && Alike(Observe(exec, id, c, e), q, id, d0)
  {
    hide Step;
    LogGrows(c.s, e);
    assert forall x :: x in c.s.log ==> x in Step(c.s, e).log;
  }

  /** Every event keeps the run and the queue level. */
  lemma StepLevel<D(!new), R(!new)>(exec: Engine<D, R>, id: nat, c: Observed<D, R>, q: Queue<D, R>, e: Event, d0: D)
    requires Level(c, q, id, d0) && Genuine(exec, id, c, e) && !Step(c.s, e).misuse
    ensures Level(Observe(exec, id, c, e), Play(exec, id, q, MovesOf(c.s, id, e)), id, d0)
  {
    if Ended(c.s.log, id) {
      EndedStays(exec, id, c, q, e, d0);
    } else if Replies(c.s, id, e) {
      PhaseHolds(c.s, q, id);
      assert e.k == 0;
      if Waiting(c.s, q, id) {
        WaitingReply(exec, id, c, q, e, d0);
        PhaseHolds(Observe(exec, id, c, e).s, Play(exec, id, q, MovesOf(c.s, id, e)), id);
      } else {
        SettlingReply(exec, id, c, q, e, d0);
      }
    } else {
      OtherEventSim(exec, id, c, q, e, d0);
      PhaseHolds(Observe(exec, id, c, e).s, Play(exec, id, q, MovesOf(c.s, id, e)), id);
    }
  }

  lemma {:induction false} RunLevel<D(!new), R(!new)>(exec: Engine<D, R>, id: nat, c: Observed<D, R>, q: Queue<D, R>,
                                                      events: seq<Event>, d0: D)
    requires Level(c, q, id, d0) && AllGenuine(exec, id, c, events) && !ObserveAll(exec, id, c, events).s.misuse
    ensures Level(ObserveAll(exec, id, c, events), PlayAll(exec, id, c.s, q, events), id, d0)
    decreases |events|
  {
    hide Level, Genuine, MovesOf, Step;
    if events != [] {
      var c1 := Observe(exec, id, c, events[0]);
      ObserveStep(exec, id, c, events[0]);
      ObserveSticks(exec, id, c1, events[1..]);
      StepLevel(exec, id, c, q, events[0], d0);
      RunLevel(exec, id, c1, Play(exec, id, q, MovesOf(c.s, id, events[0])), events[1..], d0);
    }
  }

  lemma ObserveStep<D, R>(exec: Engine<D, R>, id: nat, c: Observed<D, R>, e: Event)
    ensures Observe(exec, id, c, e).s == Step(c.s, e)
  {
  }

  lemma {:induction false} ObserveSticks<D, R>(exec: Engine<D, R>, id: nat, c: Observed<D, R>, events: seq<Event>)
    ensures c.s.misuse ==> ObserveAll(exec, id, c, events).s.misuse
    decreases |events|
  {
    if events != [] {
      ObserveStep(exec, id, c, events[0]);
      StepSticks(c.s, events[0]);
      ObserveSticks(exec, id, Observe(exec, id, c, events[0]), events[1..]);
    }
  }

  // ---- the beginning

  /** A tick starts a locking transaction, whose body, if it is the application's, does not throw. */
  predicate StartsLocking(s: State, id: nat, fn: Script) {
    && s.ticks > 0 && CanStart(s) && s.queue[0] == id
    && Locking(s.txs[id].request) && (UserBody(s.txs[id].request) ==> !fn.outcome.Throws?)
  }

  /** The body is heard call by call; then the first batch is sent. */
  lemma BodyHeard<D, R>(s: State, id: nat, fn: Script, last: Script, w: World<D>)
    requires Inv(s) && StartsLocking(s, id, fn)
    ensures Going(Shift(s.(ticks := s.ticks - 1)), id)
    ensures var q: Queue<D, R> := Begins(w, s.txs[id], id, fn);
            var s1 := Shift(s.(ticks := s.ticks - 1));
            Handling(Body(s1, id, fn), q, id, [])
  {
    var t := s.txs[id];
    var s1 := Shift(s.(ticks := s.ticks - 1));
    assert TxOk(t, id, Parse(s.log));
    assert [] + t.executes == t.executes;
    var q0: Queue<D, R> := Queue(w, t.executes, t.canPause, [], [], false);
    assert Handling(s1, q0, id, []);
    if UserBody(t.request) {
      PerformHeeds(s1, q0, id, [], fn.acts);
      PerformPersists(s1, fn.acts, id);
    } else {
      assert [] + (t.executes + PluginBody(t.request)) == t.executes + PluginBody(t.request);
    }
    hide Perform, HeedAll, PluginBody;
  }

  lemma OpeningOpens(r: Request, b: seq<Statement>)
    requires Locking(r) && OpensWith(r, b)
    ensures Opens(b)
  {
    var n := |Opening(r)|;
    assert b == Opening(r) + b[n..];
    PermittedOrdinary(r, b[n..]);
    if n == 2 {
      assert b[0].SelectOne? && b[1].Begin?;
    }
  }

  /** The tick that starts a transaction sends what the queue begins with. */
  lemma StartLevel<D(!new), R(!new)>(s: State, id: nat, fn: Script, last: Script, w: World<D>)
    requires Inv(s) && StartsLocking(s, id, fn) && !Tick(s, fn, last).misuse && w.saved == None
    ensures Level<D, R>(Observed(Tick(s, fn, last), w, [], []), Begins(w, s.txs[id], id, fn), id, w.db)
  {
    var q: Queue<D, R> := Begins(w, s.txs[id], id, fn);
    BodyHeard<D, R>(s, id, fn, last, w);
    TickKeeps(s, fn, last);
    SentByTick<D, R>(s, id, fn, last, w);
    PhaseHolds(Tick(s, fn, last), q, id);
  }

  function Body(s: State, id: nat, fn: Script): State
    requires id < |s.txs|
  {
    if UserBody(s.txs[id].request) then Perform(s, fn.acts) else Queued(s, id, PluginBody(s.txs[id].request))
  }

  /** After the body the opening is still there, with nothing but permitted statements behind it. */
  lemma BodyPristine(s: State, id: nat, fn: Script)
    requires Inv(s) && StartsLocking(s, id, fn) && !Body(Shift(s.(ticks := s.ticks - 1)), id, fn).misuse
    ensures var s2 := Body(Shift(s.(ticks := s.ticks - 1)), id, fn);
            id < |s2.txs| && s2.wire == [] && Opens(s2.txs[id].executes) && !SettlesBatch(s2.txs[id].executes)
  {
    var s0 := s.(ticks := s.ticks - 1);
    assert Inv(s0);
    ShiftKeeps(s0);
    var s1 := Shift(s0);
    PerformPersists(s1, fn.acts, id);
    hide Perform, PluginBody, Opens, CoreAt;
    if UserBody(s1.txs[id].request) {
      PerformKeeps(s1, fn.acts);
    } else {
      QueuedKeeps(s1, id, Parse(s1.log));
    }
    OpenedPristine(Body(s1, id, fn), id);
  }

  lemma OpenedPristine(s: State, id: nat)
    requires Core(s) && id < |s.txs| && Parse(s.log).stage.Opened? && Parse(s.log).stage.id == id
             && Locking(s.txs[id].request)
    ensures Opens(s.txs[id].executes) && !SettlesBatch(s.txs[id].executes)
  {
    assert TxOk(s.txs[id], id, Parse(s.log));
    OpeningOpens(s.txs[id].request, s.txs[id].executes);
    OpeningNeverSettles(s.txs[id].request, s.txs[id].executes);
  }

  lemma SentByTick<D(!new), R(!new)>(s: State, id: nat, fn: Script, last: Script, w: World<D>)
    requires Inv(s) && StartsLocking(s, id, fn) && !Tick(s, fn, last).misuse && w.saved == None
    ensures var s1 := Tick(s, fn, last); var q: Queue<D, R> := Begins(w, s.txs[id], id, fn);
            && Inv(s1) && Phase(s1, q, id) && Beginning(q, w.db) && s1.wire != [] && Opens(s1.wire[0].batch)
            && q.calls == [] && q.done == [] && q.w == w && !q.failed
  {
    var q: Queue<D, R> := Begins(w, s.txs[id], id, fn);
    var s2 := Body(Shift(s.(ticks := s.ticks - 1)), id, fn);
    hide *;
    BodyHeard<D, R>(s, id, fn, last, w);
    TickKeeps(s, fn, last);
    TickIsBody(s, id, fn, last);
    BodyPristine(s, id, fn);
    BeginsFresh<D, R>(w, s.txs[id], id, fn);
    FirstBatch(s2, q, id, w.db);
  }

  lemma FirstBatch<D(!new), R(!new)>(s: State, q: Queue<D, R>, id: nat, d0: D)
    requires Handling(s, q, id, []) && s.wire == [] && Opens(s.txs[id].executes) && !SettlesBatch(s.txs[id].executes)
    requires q.w == World(d0, None)
    ensures s.txs[id].executes != []
    ensures var s1 := Run(s, id);
            Phase(s1, q, id) && Beginning(q, d0) && s1.wire != [] && Opens(s1.wire[0].batch)
  {
    assert [] + s.txs[id].executes == s.txs[id].executes == s.txs[id].executes + [];
    assert Waiting(Run(s, id), q, id);
  }

  lemma TickIsBody(s: State, id: nat, fn: Script, last: Script)
    requires StartsLocking(s, id, fn)
    ensures id < |s.txs| && id < |Shift(s.(ticks := s.ticks - 1)).txs|
    ensures var s2 := Body(Shift(s.(ticks := s.ticks - 1)), id, fn);
            && id < |s2.txs| && Tick(s, fn, last) == (if s2.txs[id].executes != [] then Run(s2, id) else s2)
            && Tick(s, fn, last).misuse == s2.misuse
  {
    PerformPersists(Shift(s.(ticks := s.ticks - 1)), fn.acts, id);
    hide Perform, PluginBody;
  }

  lemma BeginsFresh<D, R>(w: World<D>, t: Tx, id: nat, fn: Script)
    ensures var q: Queue<D, R> := Begins(w, t, id, fn); q.calls == [] && q.done == [] && q.w == w && !q.failed
  {
    HeedAllOnlyQueues<D, R>(Queue(w, t.executes, t.canPause, [], [], false), id, fn.acts);
  }

  lemma StartsExists(s: State, id: nat, fn: Script)
    requires StartsLocking(s, id, fn)
    ensures id < |s.txs|
  {
  }

  lemma AfterIsRun(events: seq<Event>)
    ensures After(events) == RunFrom(Initial, events)
  {
  }

  lemma RunTick(s: State, fn: Script, last: Script, after: seq<Event>)
    ensures RunFrom(s, [TickRuns(fn, last)] + after) == RunFrom(Tick(s, fn, last), after)
  {
    assert ([TickRuns(fn, last)] + after)[1..] == after;
    assert Step(s, TickRuns(fn, last)) == Tick(s, fn, last);
  }

  lemma {:induction false} ObserveIsRun<D, R>(exec: Engine<D, R>, id: nat, c: Observed<D, R>, events: seq<Event>)
    ensures ObserveAll(exec, id, c, events).s == RunFrom(c.s, events)
    decreases |events|
  {
    hide Step, Observe;
    if events != [] {
      ObserveStep(exec, id, c, events[0]);
      ObserveIsRun(exec, id, Observe(exec, id, c, events[0]), events[1..]);
    }
  }

  /** Batching refines the queue.  For every engine and every run: from the tick that starts a locking transaction
      on, through all calls, replies and other events, the run and the one-at-a-time queue stay level, and they end
      alike. */
  lemma BatchingRefinesQueue<D(!new), R(!new)>(exec: Engine<D, R>, before: seq<Event>, id: nat, fn: Script,
                                               last: Script, after: seq<Event>, w: World<D>)
    requires StartsLocking(After(before), id, fn) && w.saved == None
    requires !After(before + [TickRuns(fn, last)] + after).misuse
    requires AllGenuine<D, R>(exec, id, Observed(Tick(After(before), fn, last), w, [], []), after)
    ensures id < |After(before).txs|
    ensures var s := After(before);
            var c: Observed<D, R> := ObserveAll(exec, id, Observed(Tick(s, fn, last), w, [], []), after);
            var q := PlayAll(exec, id, Tick(s, fn, last), Begins(w, s.txs[id], id, fn), after);
            && c.s == After(before + [TickRuns(fn, last)] + after)
            && Level(c, q, id, w.db)
  {
    var s := After(before);
    var c: Observed<D, R> := Observed(Tick(s, fn, last), w, [], []);
    var q: Queue<D, R> := Begins(w, s.txs[id], id, fn);
    hide *;
    StartsExists(s, id, fn);
    RunAppend(Initial, before, [TickRuns(fn, last)] + after);
    assert before + [TickRuns(fn, last)] + after == before + ([TickRuns(fn, last)] + after);
    RunTick(s, fn, last, after);
    ObserveIsRun(exec, id, c, after);
    RunMisused(s, [TickRuns(fn, last)] + after);
    RunMisused(c.s, after);
    AfterIsRun(before);
    AfterIsRun(before + [TickRuns(fn, last)] + after);
    EveryRun(before);
    StartLevel<D, R>(s, id, fn, last, w);
    RunLevel(exec, id, c, q, after, w.db);
  }
}
