/** The language of the histories that one database name may produce: an acceptor over the
    log of starts, batches sent, verdicts, lock releases and final callbacks. */
module Protocol {
  import opened Statements

  /** Why the lock was given back. */
  datatype How = CommitOk | CommitFailed | RollbackOk | RollbackFailed | PlainOk | PlainFailed | FnThrew

  predicate Succeeds(how: How) {
    how.CommitOk? || how.PlainOk?
  }

  datatype Entry =
    | Started(id: nat, request: Request)          // shifted off the queue, lock taken
    | Told(id: nat)                               // error callback run while still queued
    | Aborted(id: nat)                            // dropped from the queue, the database could not be opened
    | Lost(id: nat)                               // dropped likewise, without having been looked at
    | Sent(id: nat, batch: seq<Statement>)        // one batch handed to native code
    | Answered(id: nat, failed: bool)             // every handler of a batch has run
    | Released(id: nat, how: How)                 // lock given back
    | Final(id: nat, ok: bool)                    // transaction-level success or error callback

  datatype Stage =
    | Idle
    | Settled(id: nat, ok: bool)                  // just ended; its final callback may still run
    | Opened(id: nat, request: Request)
    | Busy(id: nat, request: Request, batch: seq<Statement>)
    | Ready(id: nat, request: Request, failed: bool)

  /** `next` is the first transaction that has not left the queue. */
  datatype Progress = Reject | At(next: nat, stage: Stage)

  predicate Holding(stage: Stage) {
    stage.Opened? || stage.Busy? || stage.Ready?
  }

  predicate SettlesBatch(batch: seq<Statement>) {
    batch != [] && Settles(batch[|batch| - 1])
  }

  /** The batches that may follow an unfailed, or a failed, answer. */
  predicate MayFollow(r: Request, failed: bool, batch: seq<Statement>) {
    && batch != []
    && var last := |batch| - 1;
       if failed then
         Locking(r) && batch[last].Rollback? && AllPermitted(r, batch[..last])
       else
         AllPermitted(r, batch) || (Locking(r) && batch == [Commit])
  }

  /** How the answer to a settling batch, the end of a plain transaction or a throwing body is reported. */
  predicate MayRelease(stage: Stage, id: nat, how: How) {
    match stage
    case Opened(i, r) => i == id && UserBody(r) && how == FnThrew
    case Busy(i, _, b) =>
      i == id && b != [] &&
      (match b[|b| - 1]
       case Commit => how == CommitOk || how == CommitFailed
       case Rollback => how == RollbackOk || how == RollbackFailed
       case _ => false)
    case Ready(i, r, failed) => i == id && !Locking(r) && how == (if failed then PlainFailed else PlainOk)
    case _ => false
  }

  function Advance(p: Progress, e: Entry): Progress {
    if p.Reject? then Reject else
    match e
    case Started(id, r) =>
      if !Holding(p.stage) && id == p.next then At(p.next + 1, Opened(id, r)) else Reject
    case Told(id) =>
      if id < p.next || p.stage.Opened? || (p.stage.Ready? && p.stage.failed) then Reject
      else if Holding(p.stage) then p else At(p.next, Idle)
    case Aborted(id) =>
      if !Holding(p.stage) && id == p.next then At(p.next + 1, Idle) else Reject
    case Lost(id) =>
      if !Holding(p.stage) && id == p.next then At(p.next + 1, Idle) else Reject
    case Sent(id, b) =>
      (match p.stage
       case Opened(i, r) => if i == id && OpensWith(r, b) then At(p.next, Busy(id, r, b)) else Reject
       case Ready(i, r, failed) => if i == id && MayFollow(r, failed, b) then At(p.next, Busy(id, r, b)) else Reject
       case _ => Reject)
    case Answered(id, failed) =>
      (match p.stage
       case Busy(i, r, b) => if i == id && !SettlesBatch(b) then At(p.next, Ready(id, r, failed)) else Reject
       case _ => Reject)
    case Released(id, how) =>
      if MayRelease(p.stage, id, how) then At(p.next, Settled(id, Succeeds(how))) else Reject
    case Final(id, ok) =>
      if p.stage == Settled(id, ok) then At(p.next, Idle) else Reject
  }

  function Parse(log: seq<Entry>): Progress {
    if log == [] then At(0, Idle) else Advance(Parse(log[..|log| - 1]), log[|log| - 1])
  }

  predicate Accepted(log: seq<Entry>) {
    Parse(log).At?
  }

  lemma ParseSnoc(log: seq<Entry>, e: Entry)
    ensures Parse(log + [e]) == Advance(Parse(log), e)
  {
    assert (log + [e])[..|log|] == log;
  }
}
