/** What membership in the protocol language says about whole histories. */
module Histories {
  import opened Statements
  import opened Protocol

  function Last(log: seq<Entry>): Entry
    requires log != []
  {
    log[|log| - 1]
  }

  function Front(log: seq<Entry>): seq<Entry>
    requires log != []
  {
    log[..|log| - 1]
  }

  /** An accepted history is an accepted one and one more move of the acceptor. */
  lemma Unsnoc(log: seq<Entry>)
    requires Accepted(log) && log != []
    ensures Accepted(Front(log)) && Parse(log) == Advance(Parse(Front(log)), Last(log))
    ensures log == Front(log) + [Last(log)]
  {
  }

  /** Whoever is active, or has just ended, is the last one to have left the queue. */
  lemma {:induction false} LatestIsActive(log: seq<Entry>)
    requires Accepted(log)
    ensures !Parse(log).stage.Idle? ==> Parse(log).stage.id + 1 == Parse(log).next
    decreases |log|
  {
    if log != [] {
      Unsnoc(log);
      LatestIsActive(Front(log));
    }
  }

  lemma {:induction false} IdsBelowNext(log: seq<Entry>, i: nat)
    requires Accepted(log) && i < |log| && !log[i].Told?
    ensures log[i].id < Parse(log).next
    decreases |log|
  {
    Unsnoc(log);
    LatestIsActive(Front(log));
    if i < |log| - 1 {
      IdsBelowNext(Front(log), i);
    }
  }

  /** No interleaving: a history is one contiguous segment per transaction, in the order in which they were queued;
      only callbacks of transactions that are still queued may run in between. */
  lemma {:induction false} Serial(log: seq<Entry>, i: nat, j: nat)
    requires Accepted(log) && i <= j < |log| && !log[i].Told?
    ensures log[i].id <= log[j].id
    decreases |log|
  {
    Unsnoc(log);
    if j < |log| - 1 {
      Serial(Front(log), i, j);
    } else if i < j {
      IdsBelowNext(Front(log), i);
      LatestIsActive(Front(log));
    }
  }

  // ---- leaving the queue

  function Removed(log: seq<Entry>): seq<nat>
    decreases |log|
  {
    if log == [] then []
    else
      var e := Last(log);
      Removed(Front(log)) + (if e.Started? || e.Aborted? || e.Lost? then [e.id] else [])
  }

  function Starts(log: seq<Entry>): seq<nat>
    decreases |log|
  {
    if log == [] then [] else Starts(Front(log)) + (if Last(log).Started? then [Last(log).id] else [])
  }

  function Releases(log: seq<Entry>): seq<nat>
    decreases |log|
  {
    if log == [] then [] else Releases(Front(log)) + (if Last(log).Released? then [Last(log).id] else [])
  }

  /** Transactions leave the queue in the order of their creation, each of them once and for one reason. */
  lemma {:induction false} RemovedInOrder(log: seq<Entry>)
    requires Accepted(log)
    ensures |Removed(log)| == Parse(log).next
    ensures forall i: nat :: i < |Removed(log)| ==> Removed(log)[i] == i
    decreases |log|
  {
    if log != [] {
      Unsnoc(log);
      RemovedInOrder(Front(log));
    }
  }

  /** Releases follow starts one by one, and only the last start may be unreleased. */
  lemma {:induction false} StartsAndReleases(log: seq<Entry>)
    requires Accepted(log)
    ensures Starts(log) == Releases(log) + (if Holding(Parse(log).stage) then [Parse(log).stage.id] else [])
    decreases |log|
  {
    if log != [] {
      Unsnoc(log);
      StartsAndReleases(Front(log));
    }
  }

  lemma {:induction false} StartsAscend(log: seq<Entry>)
    requires Accepted(log)
    ensures forall i :: 0 <= i < |Starts(log)| ==> Starts(log)[i] < Parse(log).next
    ensures forall i, j :: 0 <= i < j < |Starts(log)| ==> Starts(log)[i] < Starts(log)[j]
    decreases |log|
  {
    if log != [] {
      Unsnoc(log);
      StartsAscend(Front(log));
    }
  }

  /** Mutual exclusion, and starts in queue order. */
  lemma ReleasesFollowStarts(log: seq<Entry>)
    requires Accepted(log)
    ensures Starts(log) == Releases(log) + (if Holding(Parse(log).stage) then [Parse(log).stage.id] else [])
    ensures forall i, j :: 0 <= i < j < |Starts(log)| ==> Starts(log)[i] < Starts(log)[j]
  {
    StartsAndReleases(log);
    StartsAscend(log);
  }

  // ---- ending

  /** Past releases and final callbacks are over: their transaction is not active any more. */
  lemma {:induction false} EndedIsOver(log: seq<Entry>, e: Entry)
    requires Accepted(log) && e in log && !e.Told?
    ensures e.Released? && e.id + 1 == Parse(log).next ==> !Holding(Parse(log).stage)
    ensures e.Aborted? && e.id + 1 == Parse(log).next ==> !Holding(Parse(log).stage)
    ensures e.Final? && e.id + 1 == Parse(log).next ==> Parse(log).stage.Idle?
    decreases |log|
  {
    Unsnoc(log);
    LatestIsActive(Front(log));
    if e in Front(log) {
      EndedIsOver(Front(log), e);
      var i :| 0 <= i < |Front(log)| && Front(log)[i] == e;
      IdsBelowNext(Front(log), i);
    }
  }

  /** No transaction releases twice, none calls back twice. */
  lemma {:induction false} EndsOnce(log: seq<Entry>, i: nat, j: nat)
    requires Accepted(log) && i < j < |log| && log[i].id == log[j].id
    ensures !(log[i].Released? && log[j].Released?)
    ensures !(log[i].Final? && log[j].Final?)
    decreases |log|
  {
    Unsnoc(log);
    if j < |log| - 1 {
      EndsOnce(Front(log), i, j);
    } else {
      assert Front(log)[i] == log[i];
      if log[i].Told? {
        return;
      }
      EndedIsOver(Front(log), log[i]);
      LatestIsActive(Front(log));
      IdsBelowNext(Front(log), i);
    }
  }

  /** The final callback comes right after the release that it reports. */
  lemma {:induction false} FinalReports(log: seq<Entry>, i: nat)
    requires Accepted(log) && i < |log| && log[i].Final?
    ensures i > 0 && log[i - 1].id == log[i].id
    ensures log[i - 1].Released? && log[i].ok == Succeeds(log[i - 1].how)
    decreases |log|
  {
    Unsnoc(log);
    if i < |log| - 1 {
      FinalReports(Front(log), i);
    } else {
      Unsnoc(Front(log));
    }
  }

  // ---- the statements of one transaction

  function Stream(log: seq<Entry>, id: nat): seq<Statement>
    decreases |log|
  {
    if log == [] then []
    else Stream(Front(log), id) + (if Last(log).Sent? && Last(log).id == id then Last(log).batch else [])
  }

  /** An opening, permitted statements, and one settling statement at the very end. */
  predicate Enclosed(r: Request, stream: seq<Statement>, settling: Statement) {
    stream != [] && stream[|stream| - 1] == settling && OpensWith(r, stream[..|stream| - 1])
  }

  predicate StreamOk(r: Request, stage: Stage, stream: seq<Statement>) {
    match stage
    case Opened(_, _) => stream == []
    case Busy(_, _, b) =>
      b != [] && if SettlesBatch(b) then Locking(r) && Enclosed(r, stream, b[|b| - 1]) else OpensWith(r, stream)
    case Ready(_, _, _) => OpensWith(r, stream)
    case _ => true
  }

  lemma OpensWithMore(r: Request, stream: seq<Statement>, more: seq<Statement>)
    requires OpensWith(r, stream) && AllPermitted(r, more)
    ensures OpensWith(r, stream + more)
  {
    var n := |Opening(r)|;
    assert (stream + more)[n..] == stream[n..] + more;
  }

  lemma OpeningNeverSettles(r: Request, b: seq<Statement>)
    requires OpensWith(r, b)
    ensures b != [] && !SettlesBatch(b)
  {
    var n := |Opening(r)|;
    if |b| > n {
      assert Permitted(r, b[n..][|b| - 1 - n]);
    } else {
      assert b == Opening(r);
    }
  }

  lemma StreamSent(r: Request, failed: bool, stream: seq<Statement>, b: seq<Statement>, id: nat)
    requires OpensWith(r, stream) && MayFollow(r, failed, b)
    ensures StreamOk(r, Busy(id, r, b), stream + b)
  {
    var last := |b| - 1;
    assert (stream + b)[..|stream + b| - 1] == stream + b[..last];
    if AllPermitted(r, b) {
      assert Permitted(r, b[last]);
      OpensWithMore(r, stream, b);
    } else {
      assert !failed ==> b[..last] == [];
      OpensWithMore(r, stream, b[..last]);
    }
  }

  lemma {:induction false} FreshStream(log: seq<Entry>, id: nat)
    requires Accepted(log) && id >= Parse(log).next
    ensures Stream(log, id) == []
    decreases |log|
  {
    if log != [] {
      Unsnoc(log);
      LatestIsActive(Front(log));
      FreshStream(Front(log), id);
    }
  }

  lemma {:induction false} ActiveStream(log: seq<Entry>)
    requires Accepted(log) && Holding(Parse(log).stage)
    ensures var stage := Parse(log).stage; StreamOk(stage.request, stage, Stream(log, stage.id))
    decreases |log|
  {
    Unsnoc(log);
    var front := Front(log);
    var e := Last(log);
    var p := Parse(front);
    if e.Started? {
      FreshStream(front, e.id);
    } else {
      ActiveStream(front);
      if e.Sent? {
        if p.stage.Opened? {
          OpeningNeverSettles(p.stage.request, e.batch);
          assert Stream(log, e.id) == e.batch;
        } else {
          StreamSent(p.stage.request, p.stage.failed, Stream(front, e.id), e.batch, e.id);
        }
      } else {
        assert Stream(log, p.stage.id) == Stream(front, p.stage.id);
        hide Stream, OpensWith, Enclosed;
      }
    }
  }

  /** The request a transaction was started for. */
  predicate StartedFor(log: seq<Entry>, id: nat, r: Request) {
    Started(id, r) in log
  }

  lemma {:induction false} StartedForActive(log: seq<Entry>, id: nat, r: Request)
    requires Accepted(log) && StartedFor(log, id, r)
    ensures id < Parse(log).next
    ensures Holding(Parse(log).stage) && Parse(log).stage.id == id ==> Parse(log).stage.request == r
    decreases |log|
  {
    Unsnoc(log);
    LatestIsActive(Front(log));
    if StartedFor(Front(log), id, r) {
      StartedForActive(Front(log), id, r);
    }
  }

  /** Only a started transaction sends, is answered, or releases. */
  lemma {:induction false} HeldWasStarted(log: seq<Entry>)
    requires Accepted(log) && Holding(Parse(log).stage)
    ensures StartedFor(log, Parse(log).stage.id, Parse(log).stage.request)
    decreases |log|
  {
    Unsnoc(log);
    if !Last(log).Started? {
      HeldWasStarted(Front(log));
    }
  }

  lemma {:induction false} EntryWasStarted(log: seq<Entry>, e: Entry) returns (r: Request)
    requires Accepted(log) && e in log && (e.Sent? || e.Answered? || e.Released?)
    ensures StartedFor(log, e.id, r)
    decreases |log|
  {
    hide Parse, Advance;
    Unsnoc(log);
    if e in Front(log) {
      r := EntryWasStarted(Front(log), e);
    } else {
      r := LastWasStarted(log);
    }
  }

  lemma LastWasStarted(log: seq<Entry>) returns (r: Request)
    requires Accepted(log) && log != [] && (Last(log).Sent? || Last(log).Answered? || Last(log).Released?)
    ensures StartedFor(log, Last(log).id, r)
  {
    Unsnoc(log);
    HeldWasStarted(Front(log));
    r := Parse(Front(log)).stage.request;
    assert Started(Last(log).id, r) in Front(log);
  }

  /** The answer to a batch, or the release that its last reply made. */
  predicate Ends(e: Entry, id: nat) {
    e.id == id && (e.Answered? || e.Released?)
  }

  /** No batch is empty, and none is sent before the one before it has been dealt with. */
  lemma {:induction false} OneBatchAtATime(log: seq<Entry>, i: nat, j: nat)
    requires Accepted(log) && i < j < |log| && log[i].Sent? && log[j].Sent?
    ensures log[i].batch != [] && log[j].batch != []
    ensures exists k :: i < k < j && Ends(log[k], log[i].id)
    decreases |log|
  {
    Unsnoc(log);
    var front := Front(log);
    if j < |front| {
      OneBatchAtATime(front, i, j);
      var k :| i < k < j && Ends(front[k], front[i].id);
      assert Ends(log[k], log[i].id);
    } else {
      EndedBatch(front, i);
      var k :| i < k < |front| && Ends(front[k], front[i].id);
      assert Ends(log[k], log[i].id);
    }
  }

  /** Every batch sent has been dealt with, or is the one outstanding. */
  lemma {:induction false} EndedBatch(log: seq<Entry>, i: nat)
    requires Accepted(log) && i < |log| && log[i].Sent?
    ensures log[i].batch != []
    ensures (exists k :: i < k < |log| && Ends(log[k], log[i].id))
            || (Parse(log).stage.Busy? && Parse(log).stage.id == log[i].id)
    decreases |log|
  {
    Unsnoc(log);
    var front := Front(log);
    if i == |front| {
      if Parse(front).stage.Opened? {
        OpeningNeverSettles(Parse(front).stage.request, log[i].batch);
      }
    } else if Last(log).Told? {
      EndedBatch(front, i);
      if exists k :: i < k < |front| && Ends(front[k], front[i].id) {
        var k :| i < k < |front| && Ends(front[k], front[i].id);
        assert Ends(log[k], log[i].id);
      }
    } else {
      EndedBatch(front, i);
      if exists k :: i < k < |front| && Ends(front[k], front[i].id) {
        var k :| i < k < |front| && Ends(front[k], front[i].id);
        assert Ends(log[k], log[i].id);
      } else {
        assert Ends(log[|front|], log[i].id);
      }
    }
  }

  /** The grammar of a released transaction: what it sent is enclosed by its opening and by exactly the
      COMMIT or ROLLBACK whose reply released the lock. */
  predicate Grammar(r: Request, how: How, stream: seq<Statement>) {
    match how
    case FnThrew => UserBody(r) && stream == []
    case PlainOk => !Locking(r) && OpensWith(r, stream)
    case PlainFailed => !Locking(r) && OpensWith(r, stream)
    case CommitOk => Locking(r) && Enclosed(r, stream, Commit)
    case CommitFailed => Locking(r) && Enclosed(r, stream, Commit)
    case RollbackOk => Locking(r) && Enclosed(r, stream, Rollback)
    case RollbackFailed => Locking(r) && Enclosed(r, stream, Rollback)
  }

  /** Nothing of a released transaction is logged later that would change its stream or its request. */
  lemma OverIsOver(log: seq<Entry>, id: nat, r: Request, how: How)
    requires Accepted(log) && log != [] && StartedFor(log, id, r)
    requires Released(id, how) in Front(log)
    ensures StartedFor(Front(log), id, r) && Stream(log, id) == Stream(Front(log), id)
  {
    Unsnoc(log);
    var front := Front(log);
    EndedIsOver(front, Released(id, how));
    LatestIsActive(front);
    var i :| 0 <= i < |front| && front[i] == Released(id, how);
    IdsBelowNext(front, i);
  }

  lemma GrammarNow(stage: Stage, r: Request, id: nat, how: How, stream: seq<Statement>)
    requires MayRelease(stage, id, how) && stage.request == r && StreamOk(r, stage, stream)
    ensures Grammar(r, how, stream)
  {
  }

  lemma {:induction false} ReleasedGrammar(log: seq<Entry>, id: nat, r: Request, how: How)
    requires Accepted(log) && StartedFor(log, id, r) && Released(id, how) in log
    ensures Grammar(r, how, Stream(log, id))
    decreases |log|
  {
    Unsnoc(log);
    var front := Front(log);
    var e := Last(log);
    assert e.Released? ==> Stream(log, id) == Stream(front, id);
    if e == Released(id, how) {
      StartedForActive(front, id, r);
      ActiveStream(front);
      GrammarNow(Parse(front).stage, r, id, how, Stream(front, id));
      hide Grammar, StreamOk, OpensWith, Enclosed;
    } else {
      OverIsOver(log, id, r, how);
      ReleasedGrammar(front, id, r, how);
    }
  }

  /** A locking transaction reports success only for a COMMIT that was answered with success. */
  lemma SuccessNeedsCommit(log: seq<Entry>, i: nat, r: Request)
    requires Accepted(log) && i < |log| && log[i].Final? && log[i].ok
    requires StartedFor(log, log[i].id, r) && Locking(r)
    ensures i > 0 && log[i - 1] == Released(log[i].id, CommitOk)
    ensures Enclosed(r, Stream(log, log[i].id), Commit)
  {
    hide Accepted, StartedFor, Stream, Enclosed, Settles;
    FinalReports(log, i);
    var e := log[i - 1];
    assert e in log && e == Released(e.id, e.how);
    ReleasedGrammar(log, e.id, r, e.how);
  }

  // ---- failures

  /** A failed batch of a locking transaction is followed at once by one batch that ends in ROLLBACK. */
  lemma {:induction false} FailureRollsBack(log: seq<Entry>, i: nat, r: Request)
    requires Accepted(log) && i + 1 < |log|
    requires log[i].Answered? && log[i].failed && StartedFor(log, log[i].id, r) && Locking(r)
    ensures var e := log[i + 1];
            e.Sent? && e.id == log[i].id && e.batch != [] && e.batch[|e.batch| - 1] == Rollback
            && AllPermitted(r, e.batch[..|e.batch| - 1])
    decreases |log|
  {
    Unsnoc(log);
    var front := Front(log);
    if i + 2 < |log| {
      if Last(log) == Started(log[i].id, r) {
        IdsBelowNext(front, i);
      }
      FailureRollsBack(front, i, r);
    } else {
      StartedForActive(front, log[i].id, r);
      Unsnoc(front);
    }
  }

  /** From entry `i` on, transactions have only been told of failures in the queue. */
  predicate OnlyTold(log: seq<Entry>, i: nat, k: nat)
    requires k <= |log|
  {
    forall j :: i <= j < k ==> log[j].Told?
  }

  lemma {:induction false} StaysBusy(log: seq<Entry>, i: nat)
    requires Accepted(log) && i < |log| && log[i].Sent? && OnlyTold(log, i + 1, |log|)
    ensures Parse(log).stage.Busy? && Parse(log).stage.id == log[i].id && Parse(log).stage.batch == log[i].batch
    decreases |log|
  {
    Unsnoc(log);
    if i < |log| - 1 {
      StaysBusy(Front(log), i);
    }
  }

  /** After a batch that settles, the next thing to happen to the lock is that its holder gives it back. */
  lemma {:induction false} SettlingReleases(log: seq<Entry>, i: nat, k: nat)
    requires Accepted(log) && i < k < |log| && log[i].Sent? && SettlesBatch(log[i].batch) && OnlyTold(log, i + 1, k)
    ensures log[k].Told? || (log[k].Released? && log[k].id == log[i].id)
    decreases |log|
  {
    Unsnoc(log);
    var front := Front(log);
    if k < |front| {
      SettlingReleases(front, i, k);
    } else {
      StaysBusy(front, i);
    }
  }

  lemma NoCommit(r: Request, b: seq<Statement>)
    requires AllPermitted(r, b)
    ensures Commit !in b
  {
    forall st | st in b ensures st != Commit {
      assert Permitted(r, st);
    }
  }

  lemma CommitBatch(p: Progress, id: nat, b: seq<Statement>)
    requires p.At? && Advance(p, Sent(id, b)).At? && Commit in b
    ensures b == [Commit] && p.stage.Ready? && !p.stage.failed && p.stage.id == id
  {
    var r := p.stage.request;
    if p.stage.Opened? {
      var n := |Opening(r)|;
      assert b == Opening(r) + b[n..];
      NoCommit(r, b[n..]);
    } else if p.stage.failed {
      var last := |b| - 1;
      assert b == b[..last] + [b[last]];
      NoCommit(r, b[..last]);
    } else if AllPermitted(r, b) {
      NoCommit(r, b);
    }
  }

  /** COMMIT is sent alone, and only when no batch of the transaction has failed. */
  lemma {:induction false} CommitIsClean(log: seq<Entry>, i: nat)
    requires Accepted(log) && i < |log| && log[i].Sent? && Commit in log[i].batch
    ensures log[i].batch == [Commit]
    ensures forall j :: 0 <= j < i && log[j].Answered? && log[j].id == log[i].id ==> !log[j].failed
    decreases |log|
  {
    Unsnoc(log);
    var front := Front(log);
    if i < |front| {
      CommitIsClean(front, i);
    } else {
      CommitBatch(Parse(front), log[i].id, log[i].batch);
      forall j | 0 <= j < i && log[j].Answered? && log[j].id == log[i].id ensures !log[j].failed {
        if log[j].failed {
          UnfailedSoFar(front, j);
        }
      }
    }
  }

  /** As long as the holder's last batch has not failed, none has. */
  lemma {:induction false} UnfailedSoFar(log: seq<Entry>, j: nat)
    requires Accepted(log) && j < |log| && log[j].Answered? && log[j].failed
    requires Holding(Parse(log).stage) && Parse(log).stage.id == log[j].id
    ensures match Parse(log).stage
            case Ready(_, _, failed) => failed
            case Busy(_, _, b) => SettlesBatch(b)
            case _ => false
    decreases |log|
  {
    Unsnoc(log);
    var front := Front(log);
    if j < |front| {
      IdsBelowNext(front, j);
      LatestIsActive(front);
      UnfailedSoFar(front, j);
    }
  }

  // ---- read-only transactions

  /** A read transaction sends its SELECT 1 and statements that do not match the modification pattern, nothing else. */
  lemma {:induction false} ReadOnlyStaysReadOnly(log: seq<Entry>, id: nat, r: Request, e: Entry, st: Statement)
    requires Accepted(log) && StartedFor(log, id, r) && r.ReadTransaction?
    requires e in log && e.Sent? && e.id == id && st in e.batch
    ensures st.SelectOne? || (st.Sql? && !Modifies(st.text))
    decreases |log|
  {
    Unsnoc(log);
    var front := Front(log);
    if e in front {
      var i :| 0 <= i < |front| && front[i] == e;
      IdsBelowNext(front, i);
      assert StartedFor(front, id, r);
      ReadOnlyStaysReadOnly(front, id, r, e, st);
    } else {
      StartedForActive(front, id, r);
      if Parse(front).stage.Opened? {
        var n := |Opening(r)|;
        assert e.batch == e.batch[..n] + e.batch[n..];
        assert st in e.batch[n..] ==> Permitted(r, st);
      } else {
        assert Permitted(r, st);
      }
    }
  }
}
