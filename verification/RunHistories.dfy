/** The history of every run, told of the transactions themselves: what the log says of a request
    is true of the transaction object that bears it. */
module RunHistories {
  import opened Statements
  import opened Protocol
  import opened Scheduler
  import opened Histories
  import opened Invariant
  import opened Runs
  import opened Steps

  /** The log names each started transaction's own request, and failed transactions that can still pause. */
  predicate Honest(s: State) {
    && (forall e :: e in s.log && e.Started? ==> e.id < |s.txs| && s.txs[e.id].request == e.request)
    && Excused(s)
  }

  lemma HonestMoves(s: State, s1: State)
    requires Honest(s) && Moves(s, s1)
    ensures Honest(s1)
  {
    forall e | e in s1.log && e.Started? ensures e in s.log {
      assert s1.log == s.log + s1.log[|s.log|..];
    }
  }

  /** A tick starts the first transaction of the queue and logs that transaction's request. */
  lemma TickHonest(s: State, fn: Script, last: Script)
    requires Honest(s)
    ensures Honest(Tick(s, fn, last))
  {
    hide Start, Follows, Moves;
    if s.ticks > 0 {
      var s1 := s.(ticks := s.ticks - 1);
      if CanStart(s1) {
        StartFollows(Shift(s1), s1.queue[0], fn, last);
        FollowsMoves(Shift(s1), Start(Shift(s1), s1.queue[0], fn, last));
        HonestMoves(Shift(s1), Start(Shift(s1), s1.queue[0], fn, last));
      }
    }
  }

  lemma FollowsMoves(s: State, s1: State)
    requires Follows(s, s1)
    ensures Moves(s, s1)
  {
  }

  /** Every event but a tick moves on without starting anything. */
  lemma StepMoves(s: State, e: Event)
    requires !e.TickRuns?
    ensures Moves(s, Step(s, e))
  {
    hide Act, Reply, OpenFail, Perform, Moves;
    SameMoves(s, s);
    match e
    case Call(a) => ActFollows(s, a);
    case BatchReply(k, results, scripts, last) =>
      if k < |s.wire| && s.wire[k].id < |s.txs| { ReplyProceeds(s, k, results, scripts, last); }
    case OpenSucceeds(script) =>
      if s.opens > 0 {
        var s1 := s.(opens := s.opens - 1);
        var s2 := if s1.db.NotOpen? then s1 else s1.(db := IsOpen);
        PerformFollows(s2, script.acts);
        SameMoves(s, s2);
        MovesOn(s, s2, Perform(s2, script.acts));
        SameMoves(Perform(s2, script.acts), OpenOk(s1, script));
        MovesOn(s, Perform(s2, script.acts), OpenOk(s1, script));
      }
    case OpenFails(script, aborts) => if s.opens > 0 { OpenFailMoves(s, script, aborts); }
  }

  lemma StepHonest(s: State, e: Event)
    requires Honest(s)
    ensures Honest(Step(s, e))
  {
    hide Honest, Moves, Tick;
    if e.TickRuns? {
      TickHonest(s, e.fn, e.last);
    } else {
      StepMoves(s, e);
      HonestMoves(s, Step(s, e));
    }
  }

  lemma {:induction false} RunHonest(s: State, events: seq<Event>)
    requires Honest(s)
    ensures Honest(RunFrom(s, events))
    decreases |events|
  {
    if events != [] {
      StepHonest(s, events[0]);
      RunHonest(Step(s, events[0]), events[1..]);
    }
  }

  /** Over every run: whatever is sent, answered or released belongs to a transaction started for its own request. */
  lemma StartedAsItself(events: seq<Event>, e: Entry)
    requires !After(events).misuse && e in After(events).log && (e.Sent? || e.Answered? || e.Released?)
    ensures var s := After(events); Accepted(s.log) && e.id < |s.txs| && StartedFor(s.log, e.id, s.txs[e.id].request)
  {
    EveryRun(events);
    RunHonest(Initial, events);
    var r := EntryWasStarted(After(events).log, e);
  }

  /** The statement grammar, over every run: a transaction that has released has sent its opening, permitted
      statements, and, if it is a locking one, exactly one COMMIT or ROLLBACK at the very end. */
  lemma GrammarOfRuns(events: seq<Event>, id: nat, how: How)
    requires !After(events).misuse && Released(id, how) in After(events).log
    ensures var s := After(events); id < |s.txs| && Grammar(s.txs[id].request, how, Stream(s.log, id))
  {
    var s := After(events);
    StartedAsItself(events, Released(id, how));
    ReleasedGrammar(s.log, id, s.txs[id].request, how);
  }

  /** Read-only safety, over every run: whatever its callbacks queue, a read transaction sends its SELECT 1 and
      application statements that do not match the modification pattern.  So the plugin sends no BEGIN, COMMIT or
      ROLLBACK for it: only the application's own text can be one. */
  lemma ReadOnlyRuns(events: seq<Event>, id: nat, batch: seq<Statement>, st: Statement)
    requires !After(events).misuse && Sent(id, batch) in After(events).log && st in batch
    requires id < |After(events).txs| && After(events).txs[id].request.ReadTransaction?
    ensures st.SelectOne? || (st.Sql? && forall a: nat, b: nat :: !WriteAt(st.text, a, b))
    ensures SqlText(st) in {"BEGIN", "COMMIT", "ROLLBACK"} ==> st.Sql? && st.text == SqlText(st)
  {
    var s := After(events);
    StartedAsItself(events, Sent(id, batch));
    ReadOnlyStaysReadOnly(s.log, id, s.txs[id].request, Sent(id, batch), st);
    if st.Sql? {
      ModifiesIff(st.text);
    }
  }

  /** So no text of this shape is ever sent by one: white space, a write verb in any letter case, a white-space
      character, and anything else. */
  lemma NoWriteIsSent(events: seq<Event>, id: nat, batch: seq<Statement>, st: Statement, lead: string, verb: string,
                      gap: char, rest: string)
    requires !After(events).misuse && Sent(id, batch) in After(events).log && st in batch && st.Sql?
    requires id < |After(events).txs| && After(events).txs[id].request.ReadTransaction?
    requires (forall k :: 0 <= k < |lead| ==> White(lead[k])) && White(gap)
    requires Spells(verb, "drop") || Spells(verb, "delete") || Spells(verb, "insert") || Spells(verb, "update")
             || Spells(verb, "create")
    ensures st.text != lead + verb + [gap] + rest
  {
    ReadOnlyRuns(events, id, batch, st);
    hide White, Spells, After;
    var text := lead + verb + [gap] + rest;
    var a, b := |lead|, |lead| + |verb|;
    assert text[a..b] == verb && text[b] == gap;
    assert forall k :: 0 <= k < a ==> text[k] == lead[k];
    assert WriteAt(text, a, b);
  }

  /** The success callback of a locking transaction, over every run, reports a COMMIT that has just been answered
      with success, the last of the statements that the transaction has sent. */
  lemma SuccessOfRuns(events: seq<Event>, i: nat)
    requires !After(events).misuse && i < |After(events).log| && After(events).log[i].Final? && After(events).log[i].ok
    ensures var s := After(events); var id := s.log[i].id;
            && i > 0 && id < |s.txs|
            && (Locking(s.txs[id].request) ==>
                  s.log[i - 1] == Released(id, CommitOk) && Enclosed(s.txs[id].request, Stream(s.log, id), Commit))
  {
    var s := After(events);
    EveryRun(events);
    FinalReports(s.log, i);
    assert s.log[i - 1] in s.log;
    StartedAsItself(events, s.log[i - 1]);
    var r := s.txs[s.log[i].id].request;
    if Locking(r) {
      SuccessNeedsCommit(s.log, i, r);
    }
  }
}
