/** Batched execution refines the statement queue: handlers in lockstep with the queue, one reply at a time. */
module Refinement {
  import opened Statements
  import opened Protocol
  import opened Scheduler
  import opened Invariant
  import opened Runs
  import opened Steps
  import opened Storage
  import opened QueueModel

  // ---- calls

  /** A started locking transaction that goes on: `rest` is what it has still to handle of its last batch. */
  predicate Handling<D, R>(s: State, q: Queue<D, R>, id: nat, rest: seq<Statement>) {
    && Going(s, id) && !q.failed
    && q.pending == rest + s.txs[id].executes && q.held == s.txs[id].canPause
  }

  predicate Going(s: State, id: nat) {
    id < |s.txs| && Locking(s.txs[id].request) && !s.txs[id].finalized && !s.txs[id].isPaused
  }

  /** Which transaction a call is made on. */
  predicate CallsOn(a: Action, id: nat) {
    match a
    case ExecuteSql(tx, _, _, _, _) => tx == id
    case End(tx, _, _) => tx == id
    case Abort(tx, _) => tx == id
    case _ => false
  }

  /** A call that does not name a transaction leaves it alone. */
  lemma OtherCall(s: State, a: Action, id: nat)
    requires id < |s.txs| && !CallsOn(a, id)
    ensures id < |Act(s, a).txs| && Act(s, a).txs[id] == s.txs[id]
  {
    hide NewTx, DoEnd, DoAbort, DoExecuteSql;
    match a
    case End(tx, ok, err) => if tx < |s.txs| { OtherEnd(s, tx, ok, err, id); }
    case ExecuteSql(tx, text, params, ok, err) =>
      if tx < |s.txs| { OtherExecuteSql(s, tx, Sql(text, params, ok, err), id); }
    case Abort(tx, err) => if tx < |s.txs| { OtherAbort(s, tx, err, id); }
    case _ =>
  }

  lemma OtherExecuteSql(s: State, tx: nat, st: Statement, id: nat)
    requires id < |s.txs| && tx < |s.txs| && tx != id && st.Sql?
    ensures id < |DoExecuteSql(s, tx, st).txs| && DoExecuteSql(s, tx, st).txs[id] == s.txs[id]
  {
  }

  lemma OtherAbort(s: State, tx: nat, onError: bool, id: nat)
    requires id < |s.txs| && tx < |s.txs| && tx != id
    ensures id < |DoAbort(s, tx, onError).txs| && DoAbort(s, tx, onError).txs[id] == s.txs[id]
  {
  }

  lemma OtherEnd(s: State, tx: nat, onSuccess: bool, onError: bool, id: nat)
    requires id < |s.txs| && tx < |s.txs| && tx != id
    ensures id < |DoEnd(s, tx, onSuccess, onError).txs| && DoEnd(s, tx, onSuccess, onError).txs[id] == s.txs[id]
  {
  }

  lemma OtherHeed<D, R>(q: Queue<D, R>, a: Action, id: nat)
    requires !CallsOn(a, id)
    ensures Heed(q, id, a) == q
  {
  }

  /** Whatever is called while the transaction goes on, the queue hears of it, in the same order. */
  lemma ActHeeds<D, R>(s: State, q: Queue<D, R>, id: nat, rest: seq<Statement>, a: Action)
    requires Handling(s, q, id, rest)
    ensures Handling(Act(s, a), Heed(q, id, a), id, rest)
  {
    if CallsOn(a, id) {
      assert forall st :: rest + (s.txs[id].executes + [st]) == (rest + s.txs[id].executes) + [st];
      match a
      case ExecuteSql(_, text, params, ok, err) =>
      case End(_, ok, err) =>
      case Abort(_, err) =>
    } else {
      OtherCall(s, a, id);
      OtherHeed(q, a, id);
      hide Act, Heed;
    }
  }

  lemma {:induction false} PerformHeeds<D, R>(s: State, q: Queue<D, R>, id: nat, rest: seq<Statement>,
                                              acts: seq<Action>)
    requires Handling(s, q, id, rest)
    ensures Handling(Perform(s, acts), HeedAll(q, id, acts), id, rest)
    decreases |acts|
  {
    hide Act, Heed, Handling;
    if acts != [] {
      ActHeeds(s, q, id, rest, acts[0]);
      PerformHeeds(Act(s, acts[0]), Heed(q, id, acts[0]), id, rest, acts[1..]);
    }
  }

  lemma {:induction false} PerformGoes(s: State, id: nat, acts: seq<Action>)
    requires Going(s, id)
    ensures Going(Perform(s, acts), id)
    decreases |acts|
  {
    var q := Queue(World(0, None), s.txs[id].executes, s.txs[id].canPause, [], [], false);
    assert [] + s.txs[id].executes == s.txs[id].executes;
    var q0: Queue<int, int> := q;
    PerformHeeds(s, q0, id, [], acts);
  }

  // ---- handlers

  lemma HandlerGoes(s: State, id: nat, st: Statement, ok: bool, script: Script)
    requires Going(s, id) && !Settles(st)
    ensures Going(Handle(s, id, st, ok, script).0, id)
  {
    PerformGoes(s, id, script.acts);
  }

  /** What serving adds to the record of handler calls. */
  function Invoked<D, R>(exec: Engine<D, R>, w: World<D>, st: Statement): seq<Invocation<R>> {
    var (_, reply, ok) := Apply(exec, w, st);
    if Handled(st, ok) && reply.Some? then [Invocation(st, reply.value)] else []
  }

  lemma {:induction false} HeedAllOnlyQueues<D, R>(q: Queue<D, R>, id: nat, acts: seq<Action>)
    ensures var q1 := HeedAll(q, id, acts);
            q1.w == q.w && q1.calls == q.calls && q1.done == q.done && q1.failed == q.failed
    decreases |acts|
  {
    if acts != [] {
      HeedAllOnlyQueues(Heed(q, id, acts[0]), id, acts[1..]);
    }
  }

  /** One handler and one step of the queue. */
  lemma HandlerServes<D, R>(exec: Engine<D, R>, s: State, q: Queue<D, R>, id: nat, st: Statement,
                            rest: seq<Statement>, script: Script)
    requires Handling(s, q, id, [st] + rest) && !Settles(st)
    ensures var (s1, threw) := Handle(s, id, st, Apply(exec, q.w, st).2, script);
            var q1 := ServeOne(exec, id, q, script);
            && threw == q1.failed && (!threw ==> Handling(s1, q1, id, rest))
            && q1.w == Apply(exec, q.w, st).0 && q1.calls == q.calls + Invoked(exec, q.w, st)
            && q1.done == q.done + [st]
  {
    var e := s.txs[id].executes;
    assert ([st] + rest) + e == [st] + (rest + e);
    var (w, reply, ok) := Apply(exec, q.w, st);
    var q1 := q.(w := w, pending := q.pending[1..], done := q.done + [st], calls := q.calls + Invoked(exec, q.w, st));
    assert Handling(s, q1, id, rest);
    HeedAllOnlyQueues(q1, id, script.acts);
    PerformHeeds(s, q1, id, rest, script.acts);
    assert q.calls + [] == q.calls;
    hide HeedAll, Perform;
  }

  function InvokedAll<D, R>(exec: Engine<D, R>, w: World<D>, b: seq<Statement>): seq<Invocation<R>>
    decreases |b|
  {
    if b == [] then [] else Invoked(exec, w, b[0]) + InvokedAll(exec, Apply(exec, w, b[0]).0, b[1..])
  }

  /** The scripts of the rest of a batch; where none is given, nothing happens. */
  function Padded(scripts: seq<Script>, i: nat, n: nat): seq<Script>
    requires i <= n
  {
    seq(n - i, j requires 0 <= j < n - i => Nth(scripts, i + j, Quiet))
  }

  function ServeAll<D, R>(exec: Engine<D, R>, id: nat, q: Queue<D, R>, scripts: seq<Script>): Queue<D, R> {
    Play(exec, id, q, Serves(scripts))
  }

  lemma ServeFirst<D, R>(exec: Engine<D, R>, id: nat, q: Queue<D, R>, scripts: seq<Script>, i: nat, n: nat)
    requires i < n
    ensures ServeAll(exec, id, q, Padded(scripts, i, n))
            == ServeAll(exec, id, ServeOne(exec, id, q, Nth(scripts, i, Quiet)), Padded(scripts, i + 1, n))
  {
    var p := Padded(scripts, i, n);
    assert p[1..] == Padded(scripts, i + 1, n);
    assert Serves(p)[0] == Serve(Nth(scripts, i, Quiet)) && Serves(p)[1..] == Serves(p[1..]);
  }

  lemma {:induction false} FailedStays<D, R>(exec: Engine<D, R>, id: nat, q: Queue<D, R>, moves: seq<Move>)
    requires q.failed
    ensures Play(exec, id, q, moves) == q
    decreases |moves|
  {
    if moves != [] {
      FailedStays(exec, id, q, moves[1..]);
    }
  }

  /** Once a failure is recorded, the later handlers of the batch still run, and the transaction goes on until the
      last. */
  lemma {:induction false} AfterFailure(s: State, id: nat, b: seq<Statement>, results: seq<bool>,
                                        scripts: seq<Script>, i: nat, k: nat)
    requires i <= |b| && Going(s, id) && forall j :: i <= j < |b| ==> !Settles(b[j])
    ensures var (s1, failure) := HandleFrom(s, id, b, results, scripts, i, Some(k)); failure == Some(k) && Going(s1, id)
    decreases |b| - i
  {
    hide Handle, HandleFrom, Going;
    GoingExists(s, id);
    if i < |b| {
      HandleFromStep(s, id, b, results, scripts, i, Some(k));
      HandlerGoes(s, id, b[i], Nth(results, i, false), Nth(scripts, i, Quiet));
      AfterFailure(Handle(s, id, b[i], Nth(results, i, false), Nth(scripts, i, Quiet)).0, id, b, results, scripts,
        i + 1, k);
    } else {
      HandleFromEnd(s, id, b, results, scripts, Some(k));
    }
  }

  lemma GoingExists(s: State, id: nat)
    requires Going(s, id)
    ensures id < |s.txs|
  {
  }

  /** The handlers of a batch, against the queue after as many steps: a failure in both, or none and the same database,
      the same handler calls, and the same statements pending. */
  ghost predicate InStep<D(!new), R(!new)>(s1: State, failed: bool, q1: Queue<D, R>, w1: World<D>,
                                           calls1: seq<Invocation<R>>, done1: seq<Statement>, id: nat) {
    && failed == q1.failed && Going(s1, id)
    && if failed then q1.calls <= calls1 && q1.done <= done1
       else Handling(s1, q1, id, []) && q1.w == w1 && q1.calls == calls1 && q1.done == done1
  }

  lemma ResultsFirst<D, R>(exec: Engine<D, R>, w: World<D>, b: seq<Statement>, results: seq<bool>, i: nat)
    requires i < |b| == |results| && results[i..] == Results(exec, w, b[i..])
    ensures Nth(results, i, false) == Apply(exec, w, b[i]).2
    ensures results[i + 1..] == Results(exec, Apply(exec, w, b[i]).0, b[i + 1..])
    ensures Execute(exec, w, b[i..]) == Execute(exec, Apply(exec, w, b[i]).0, b[i + 1..])
    ensures InvokedAll(exec, w, b[i..]) == Invoked(exec, w, b[i]) + InvokedAll(exec, Apply(exec, w, b[i]).0, b[i + 1..])
  {
    assert b[i..][0] == b[i] && b[i..][1..] == b[i + 1..];
    assert results[i..][0] == results[i] && results[i..][1..] == results[i + 1..];
  }

  lemma LockstepEnd<D(!new), R(!new)>(exec: Engine<D, R>, s: State, q: Queue<D, R>, id: nat, b: seq<Statement>,
                                      results: seq<bool>, scripts: seq<Script>)
    requires Handling(s, q, id, b[|b|..])
    ensures id < |s.txs|
    ensures var (s1, failure) := HandleFrom(s, id, b, results, scripts, |b|, None);
            InStep(s1, failure.Some?, ServeAll(exec, id, q, Padded(scripts, |b|, |b|)), Execute(exec, q.w, b[|b|..]),
                   q.calls + InvokedAll(exec, q.w, b[|b|..]), q.done + b[|b|..], id)
  {
    assert b[|b|..] == [] && q.done + [] == q.done;
    assert q.calls + [] == q.calls;
    assert Serves(Padded(scripts, |b|, |b|)) == [];
  }

  /** Handlers in lockstep with the queue. */
  lemma {:induction false} Lockstep<D(!new), R(!new)>(exec: Engine<D, R>, s: State, q: Queue<D, R>, id: nat,
                                                      b: seq<Statement>, results: seq<bool>, scripts: seq<Script>,
                                                      i: nat)
    requires i <= |b| == |results| && results[i..] == Results(exec, q.w, b[i..])
    requires forall j :: i <= j < |b| ==> !Settles(b[j])
    requires Handling(s, q, id, b[i..])
    ensures id < |s.txs|
    ensures var (s1, failure) := HandleFrom(s, id, b, results, scripts, i, None);
            InStep(s1, failure.Some?, ServeAll(exec, id, q, Padded(scripts, i, |b|)), Execute(exec, q.w, b[i..]),
                   q.calls + InvokedAll(exec, q.w, b[i..]), q.done + b[i..], id)
    decreases |b| - i
  {
    hide *;
    HandlingGoes(s, q, id, b[i..]);
    GoingExists(s, id);
    if i == |b| {
      LockstepEnd(exec, s, q, id, b, results, scripts);
    } else {
      var script, ok := Nth(scripts, i, Quiet), Nth(results, i, false);
      ResultsFirst(exec, q.w, b, results, i);
      HandleFromStep(s, id, b, results, scripts, i, None);
      ServeFirst(exec, id, q, scripts, i, |b|);
      assert b[i..] == [b[i]] + b[i + 1..];
      HandlerServes(exec, s, q, id, b[i], b[i + 1..], script);
      var (s1, threw) := Handle(s, id, b[i], ok, script);
      var q1 := ServeOne(exec, id, q, script);
      var w1 := Apply(exec, q.w, b[i]).0;
      DoneGrows(q.done, b, i);
      CallsGrow(q.calls, Invoked(exec, q.w, b[i]), InvokedAll(exec, w1, b[i + 1..]));
      if threw {
        HandlerGoes(s, id, b[i], ok, script);
        FailsHere(exec, s1, q1, id, b, results, scripts, i, Execute(exec, w1, b[i + 1..]),
                  q1.calls + InvokedAll(exec, w1, b[i + 1..]), q.done + b[i..]);
      } else {
        Lockstep(exec, s1, q1, id, b, results, scripts, i + 1);
      }
    }
  }

  lemma HandlingGoes<D, R>(s: State, q: Queue<D, R>, id: nat, rest: seq<Statement>)
    requires Handling(s, q, id, rest)
    ensures Going(s, id)
  {
  }

  lemma DoneGrows(done: seq<Statement>, b: seq<Statement>, i: nat)
    requires i < |b|
    ensures (done + [b[i]]) + b[i + 1..] == done + b[i..] && done + [b[i]] <= done + b[i..]
  {
    assert b[i..] == [b[i]] + b[i + 1..];
  }

  lemma CallsGrow<R>(a: seq<Invocation<R>>, b: seq<Invocation<R>>, c: seq<Invocation<R>>)
    ensures (a + b) + c == a + (b + c)
  {
  }

  /** Statement `i` has failed. */
  lemma FailsHere<D(!new), R(!new)>(exec: Engine<D, R>, s1: State, q1: Queue<D, R>, id: nat, b: seq<Statement>,
                                    results: seq<bool>, scripts: seq<Script>, i: nat, w1: World<D>,
                                    calls1: seq<Invocation<R>>, done1: seq<Statement>)
    requires i < |b| && Going(s1, id) && q1.failed && q1.calls <= calls1 && q1.done <= done1
    requires forall j :: i < j < |b| ==> !Settles(b[j])
    ensures id < |s1.txs|
    ensures var (s2, failure) := HandleFrom(s1, id, b, results, scripts, i + 1, Some(i));
            failure == Some(i) && InStep(s2, true, ServeAll(exec, id, q1, Padded(scripts, i + 1, |b|)), w1, calls1,
              done1, id)
  {
    hide HandleFrom, Play;
    AfterFailure(s1, id, b, results, scripts, i + 1, i);
    FailedStays(exec, id, q1, Serves(Padded(scripts, i + 1, |b|)));
  }

  // ---- between events

  /** A batch is outstanding; the queue has its statements and then those queued behind it. */
  predicate Waiting<D, R>(s: State, q: Queue<D, R>, id: nat) {
    && |s.wire| == 1 && s.wire[0].id == id && s.wire[0].batch != [] && !SettlesBatch(s.wire[0].batch)
    && Handling(s, q, id, s.wire[0].batch)
  }

  /** The queue is empty, and the application may still add to it. */
  predicate Pausing<D, R>(s: State, q: Queue<D, R>, id: nat) {
    && s.wire == [] && id < |s.txs| && WaitsForMore(s.txs[id]) && !q.failed && q.pending == [] && q.held
  }

  predicate WaitsForMore(t: Tx) {
    Locking(t.request) && t.isPaused && t.canPause && !t.finalized && t.executes == []
  }

  /** The queue is empty and closed: COMMIT is outstanding. */
  predicate Committing<D, R>(s: State, q: Queue<D, R>, id: nat) {
    && id < |s.txs| && Locking(s.txs[id].request) && s.txs[id].finalized
    && s.wire == [Outstanding(id, [Commit])] && !q.failed && q.pending == [] && !q.held
  }

  /** The queue has failed: ROLLBACK is outstanding, after the statements that were pending. */
  predicate RollingBack<D, R>(s: State, q: Queue<D, R>, id: nat) {
    && id < |s.txs| && Locking(s.txs[id].request) && s.txs[id].finalized && q.failed
    && |s.wire| == 1 && s.wire[0].id == id && s.wire[0].batch != []
    && var last := |s.wire[0].batch| - 1;
       s.wire[0].batch[last].Rollback? && Ordinary(s.wire[0].batch[..last])
  }

  predicate Phase<D, R>(s: State, q: Queue<D, R>, id: nat) {
    Waiting(s, q, id) || Pausing(s, q, id) || Committing(s, q, id) || RollingBack(s, q, id)
  }

  /** When `waiting` reaches zero: more statements, a pause, COMMIT or ROLLBACK, as the queue stands. */
  lemma CompletePhase<D, R>(s: State, q: Queue<D, R>, id: nat, last: Script)
    requires Going(s, id) && s.wire == [] && AllPermitted(s.txs[id].request, s.txs[id].executes)
    requires !q.failed ==> Handling(s, q, id, [])
    ensures Phase(Complete(s, id, q.failed, last), q, id)
  {
    hide *;
    GoesOn(s, id, q.failed, last);
    var s1 := Logged(s, Answered(id, q.failed));
    if q.failed {
      RollbackPhase(s1, q, id);
    } else {
      QueuePhase(s, s1, q, id);
    }
  }

  /** A transaction that goes on answers its batch, and then does one of four things. */
  lemma GoesOn(s: State, id: nat, failed: bool, last: Script)
    requires Going(s, id) && s.wire == []
    ensures var t := s.txs[id]; var s1 := Logged(s, Answered(id, failed));
            && s1.wire == [] && Going(s1, id) && s1.txs == s.txs
            && Complete(s, id, failed, last)
               == if !failed && t.executes != [] then Run(s1, id)
                  else if !failed && t.canPause then s1.(txs := s1.txs[id := t.(isPaused := true)])
                  else Conclude(s1, id, failed)
  {
    hide Conclude, Run;
  }

  lemma QueuePhase<D, R>(s: State, s1: State, q: Queue<D, R>, id: nat)
    requires Handling(s, q, id, []) && s1.txs == s.txs && s1.wire == []
             && AllPermitted(s.txs[id].request, s.txs[id].executes)
    ensures var t := s.txs[id];
            Phase(if t.executes != [] then Run(s1, id)
                  else if t.canPause then s1.(txs := s1.txs[id := t.(isPaused := true)])
                  else Conclude(s1, id, false), q, id)
  {
    var t := s.txs[id];
    assert [] + t.executes == t.executes == t.executes + [];
    if t.executes != [] {
      assert Permitted(t.request, t.executes[|t.executes| - 1]);
      assert Waiting(Run(s1, id), q, id);
    } else if t.canPause {
      assert Pausing(s1.(txs := s1.txs[id := t.(isPaused := true)]), q, id);
    } else {
      assert [] + [Commit] == [Commit];
      assert Committing(Conclude(s1, id, false), q, id);
    }
  }

  lemma RollbackPhase<D, R>(s: State, q: Queue<D, R>, id: nat)
    requires Going(s, id) && s.wire == [] && AllPermitted(s.txs[id].request, s.txs[id].executes) && q.failed
    ensures RollingBack(Conclude(s, id, true), q, id) && Phase(Conclude(s, id, true), q, id)
  {
    var e := s.txs[id].executes;
    PermittedOrdinary(s.txs[id].request, e);
    assert (e + [Rollback])[..|e|] == e;
  }

  lemma PermittedOrdinary(r: Request, b: seq<Statement>)
    requires AllPermitted(r, b)
    ensures Ordinary(b)
  {
    forall st | st in b ensures st.Sql? || st.Invalid? {
      assert Permitted(r, st);
    }
  }

  /** One reply serves the outstanding batch, statement by statement. */
  lemma ReplyServes<D(!new), R(!new)>(exec: Engine<D, R>, s: State, q: Queue<D, R>, id: nat, results: seq<bool>,
                                      scripts: seq<Script>, last: Script)
    requires Inv(s) && Waiting(s, q, id) && results == Results(exec, q.w, s.wire[0].batch)
    requires !Reply(s, 0, results, scripts, last).misuse
    ensures var b := s.wire[0].batch; var q1 := ServeAll(exec, id, q, Padded(scripts, 0, |b|));
            && Phase(Reply(s, 0, results, scripts, last), q1, id)
            && var calls1 := q.calls + InvokedAll(exec, q.w, b);
               if q1.failed then q1.calls <= calls1 && q1.done <= q.done + b
               else q1.w == Execute(exec, q.w, b) && q1.calls == calls1 && q1.done == q.done + b
  {
    var b := s.wire[0].batch;
    var s1 := s.(wire := s.wire[..0] + s.wire[1..]);
    hide *;
    WaitingBatch(s, q, id);
    assert b[0..] == b && results[0..] == results;
    Lockstep(exec, s1, q, id, b, results, scripts, 0);
    QuietHandlers(s, id, results, scripts, last);
    var (s2, failure) := HandleFrom(s1, id, b, results, scripts, 0, None);
    var q1 := ServeAll(exec, id, q, Padded(scripts, 0, |b|));
    StepPhase(s2, failure.Some?, q1, Execute(exec, q.w, b), q.calls + InvokedAll(exec, q.w, b), q.done + b, id, last);
  }

  lemma StepPhase<D(!new), R(!new)>(s: State, failed: bool, q: Queue<D, R>, w: World<D>, calls: seq<Invocation<R>>,
                                    done: seq<Statement>, id: nat, last: Script)
    requires InStep(s, failed, q, w, calls, done, id) && s.wire == []
    requires id < |s.txs| && AllPermitted(s.txs[id].request, s.txs[id].executes)
    ensures Phase(Complete(s, id, failed, last), q, id)
    ensures if q.failed then q.calls <= calls && q.done <= done else q.w == w && q.calls == calls && q.done == done
  {
    CompletePhase(s, q, id, last);
    hide Phase, Complete;
  }

  lemma WaitingBatch<D, R>(s: State, q: Queue<D, R>, id: nat)
    requires Inv(s) && Waiting(s, q, id)
    ensures var b := s.wire[0].batch; var s1 := s.(wire := s.wire[..0] + s.wire[1..]);
            |s.wire| == 1 && s.wire[0] == Outstanding(id, b) && b != [] && id < |s.txs|
            && (forall j :: 0 <= j < |b| ==> !Settles(b[j])) && Handling(s1, q, id, b)
  {
    BusyBatch(s.log);
  }

  /** The handlers of a waiting transaction send nothing, and leave statements that it may send. */
  lemma QuietHandlers(s: State, id: nat, results: seq<bool>, scripts: seq<Script>, last: Script)
    requires Inv(s) && |s.wire| == 1 && s.wire[0].id == id && id < |s.txs| && !SettlesBatch(s.wire[0].batch)
    requires s.wire[0].batch != [] && !Reply(s, 0, results, scripts, last).misuse
    ensures var s1 := s.(wire := s.wire[..0] + s.wire[1..]);
            var (s2, failure) := HandleFrom(s1, id, s.wire[0].batch, results, scripts, 0, None);
            && id < |s2.txs| && s2.wire == [] && AllPermitted(s2.txs[id].request, s2.txs[id].executes)
            && Reply(s, 0, results, scripts, last) == Complete(s2, id, failure.Some?, last)
  {
    var b := s.wire[0].batch;
    var s1 := s.(wire := s.wire[..0] + s.wire[1..]);
    BusyBatch(s.log);
    assert forall j :: 0 <= j < |b| ==> !Settles(b[j]);
    assert Undisturbed(s1);
    HandlePlainFrom(s1, id, b, results, scripts, 0, None);
    HandleFromPersists(s1, id, b, results, scripts, 0, None);
    var (s2, failure) := HandleFrom(s1, id, b, results, scripts, 0, None);
    CompletePersists(s2, id, failure.Some?, last);
    assert TxOk(s2.txs[id], id, Parse(s2.log));
  }

  // ---- the last reply

  /** Handlers of a settling batch: the last one releases, whatever the others do. */
  lemma {:induction false} SettlingHandlers(s: State, id: nat, b: seq<Statement>, results: seq<bool>,
                                            scripts: seq<Script>, i: nat, failure: Option<nat>)
    requires id < |s.txs| && i < |b| && Settles(b[|b| - 1]) && Nth(results, |b| - 1, false)
    ensures var s1 := HandleFrom(s, id, b, results, scripts, i, failure).0;
            Released(id, if b[|b| - 1].Commit? then CommitOk else RollbackOk) in s1.log
    decreases |b| - i
  {
    hide HandleFrom, Handle, Settle;
    HandleFromStep(s, id, b, results, scripts, i, failure);
    var (s1, threw) := Handle(s, id, b[i], Nth(results, i, false), Nth(scripts, i, Quiet));
    var failure1 := if threw && failure.None? then Some(i) else failure;
    if i + 1 < |b| {
      SettlingHandlers(s1, id, b, results, scripts, i + 1, failure1);
    } else {
      LastHandlerReleases(s, id, b[i], Nth(scripts, i, Quiet));
      HandleFromEnd(s1, id, b, results, scripts, failure1);
    }
  }

  lemma LastHandlerReleases(s: State, id: nat, st: Statement, script: Script)
    requires id < |s.txs| && Settles(st)
    ensures Released(id, if st.Commit? then CommitOk else RollbackOk) in Handle(s, id, st, true, script).0.log
  {
    var how := if st.Commit? then CommitOk else RollbackOk;
    var s1 := Release(s, id, how);
    assert s1.log[|s.log|] == Released(id, how);
    PerformFollows(s1, script.acts);
    hide Perform;
  }

  /** The reply to a settling batch. */
  lemma EndingReply(s: State, id: nat, results: seq<bool>, scripts: seq<Script>, last: Script)
    requires |s.wire| == 1 && s.wire[0].id == id && id < |s.txs| && SettlesBatch(s.wire[0].batch)
    requires Nth(results, |s.wire[0].batch| - 1, false)
    ensures Released(id, if s.wire[0].batch[|s.wire[0].batch| - 1].Commit? then CommitOk else RollbackOk)
            in Reply(s, 0, results, scripts, last).log
  {
    hide HandleFrom, Complete;
    var b := s.wire[0].batch;
    var s1 := s.(wire := s.wire[..0] + s.wire[1..]);
    HandleFromPersists(s1, id, b, results, scripts, 0, None);
    SettlingHandlers(s1, id, b, results, scripts, 0, None);
    var (s2, failure) := HandleFrom(s1, id, b, results, scripts, 0, None);
    CompleteProceeds(s2, id, failure.Some?, last);
  }

  lemma {:induction false} LastResult<D, R>(exec: Engine<D, R>, w: World<D>, p: seq<Statement>, st: Statement)
    requires Ordinary(p) && w.saved.Some? && Settles(st)
    ensures Nth(Results(exec, w, p + [st]), |p|, false)
    ensures Execute(exec, w, p + [st])
            == World(if st.Commit? then Execute(exec, w, p).db else w.saved.value, None)
    decreases |p|
  {
    var b := p + [st];
    if p == [] {
      assert b[1..] == [];
    } else {
      assert p[0] in p && b[0] == p[0] && b[1..] == p[1..] + [st];
      LastResult(exec, Apply(exec, w, p[0]).0, p[1..], st);
    }
  }
}
