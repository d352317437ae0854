/** What every step keeps, over every run whose calls were allowed. */
module Invariant {
  import opened Statements
  import opened Protocol
  import opened Scheduler

  /** Not started: the opening is still there and nothing but permitted statements follows it. */
  predicate Pristine(t: Tx) {
    !t.finalized && !t.isPaused && OpensWith(t.request, t.executes)
  }

  predicate Live(t: Tx) {
    !t.finalized && AllPermitted(t.request, t.executes)
  }

  predicate Current(stage: Stage, id: nat) {
    Holding(stage) && stage.id == id
  }

  /** The fields of the transaction that holds the lock, by protocol stage. */
  predicate HolderOk(t: Tx, stage: Stage)
    requires Holding(stage)
  {
    && stage.request == t.request
    && match stage
       case Opened(_, _) => Pristine(t)
       case Busy(_, _, batch) =>
         && !t.isPaused
         && if SettlesBatch(batch) then t.finalized && (batch[|batch| - 1].Commit? ==> !t.canPause) else Live(t)
       case Ready(_, _, failed) => Live(t) && (t.isPaused ==> !failed)
  }

  predicate TxOk(t: Tx, id: nat, p: Progress)
    requires p.At?
  {
    && (t.canPause ==> t.request.MultiPart?)
    && (t.isPaused ==> t.canPause)
    && (t.isPaused || (t.finalized && Locking(t.request)) ==> t.executes == [])
    && if id >= p.next then Pristine(t)
       else if Current(p.stage, id) then HolderOk(t, p.stage)
       else t.isPaused ==> t.finalized
  }

  predicate CoreAt(s: State, p: Progress) {
    && p.At?
    && |s.txs| == p.next + |s.queue|
    && (forall i: nat :: i < |s.queue| ==> s.queue[i] == p.next + i)
    && s.inProgress == Holding(p.stage)
    && (s.inProgress ==> p.stage.id < p.next)
    && (forall i: nat :: i < |s.txs| ==> TxOk(s.txs[i], i, p))
  }

  /** Between events: one outstanding batch, or a multi-part transaction paused for the application. */
  predicate WiredAt(s: State, p: Progress) {
    && p.At? && !p.stage.Opened?
    && s.wire == (if p.stage.Busy? then [Outstanding(p.stage.id, p.stage.batch)] else [])
    && (p.stage.Ready? ==> p.stage.id < |s.txs| && s.txs[p.stage.id].isPaused)
  }

  predicate Core(s: State) {
    CoreAt(s, Parse(s.log))
  }

  predicate Inv(s: State) {
    Core(s) && WiredAt(s, Parse(s.log))
  }

  /** The holder is paused, so that a call on it sends a batch at once. */
  predicate Awaiting(s: State, p: Progress) {
    p.At? && p.stage.Ready? && p.stage.id < |s.txs| && s.txs[p.stage.id].isPaused
  }

  predicate SameHistory(s: State, s1: State) {
    s1.log == s.log && s1.wire == s.wire
  }

  /** What a step from `s` to `s1` keeps: the core, the whole invariant, and silence unless the holder was paused. */
  predicate Kept(s: State, s1: State) {
    && Core(s1)
    && (Inv(s) ==> Inv(s1))
    && (!Awaiting(s, Parse(s.log)) ==> SameHistory(s, s1) && !Awaiting(s1, Parse(s1.log)))
  }

  lemma FlagKeeps(s: State, s1: State, misuse: bool, rash: bool)
    requires Kept(s, s1)
    ensures Kept(s, s1.(misuse := misuse, rash := rash))
  {
  }

  // ---- single calls

  /** A ready transaction sends what it has queued. */
  lemma RunReady(s: State, id: nat, p: Progress)
    requires p == Parse(s.log) && CoreAt(s, p) && id < |s.txs|
    requires p.stage.Ready? && p.stage.id == id && !p.stage.failed
    requires !s.txs[id].isPaused && s.txs[id].executes != []
    ensures var s1 := Run(s, id); var p1 := Parse(s1.log);
            CoreAt(s1, p1) && p1.stage.Busy? && (s.wire == [] ==> WiredAt(s1, p1))
  {
    var b := s.txs[id].executes;
    ParseSnoc(s.log, Sent(id, b));
    assert Permitted(s.txs[id].request, b[|b| - 1]);
    assert TxOk(Run(s, id).txs[id], id, Parse(Run(s, id).log));
  }

  lemma AppendKeeps(s: State, id: nat, st: Statement, p: Progress)
    requires p == Parse(s.log) && CoreAt(s, p) && id < |s.txs|
    requires !s.txs[id].finalized && !s.txs[id].isPaused && Permitted(s.txs[id].request, st)
    ensures Kept(s, AddStatement(s, id, st))
  {
    var s1 := AddStatement(s, id, st);
    assert TxOk(s.txs[id], id, p);
    assert TxOk(s1.txs[id], id, p);
    assert CoreAt(s1, p);
  }

  lemma ExecuteSqlKeeps(s: State, id: nat, st: Statement, p: Progress)
    requires p == Parse(s.log) && CoreAt(s, p) && id < |s.txs| && st.Sql?
    ensures Kept(s, DoExecuteSql(s, id, st))
  {
    var t := s.txs[id];
    if !(t.finalized || (t.request.ReadTransaction? && Modifies(st.text))) {
      if t.isPaused {
        assert TxOk(t, id, p);
        var s1 := AddStatement(s, id, st);
        var s2 := s1.(txs := s1.txs[id := s1.txs[id].(isPaused := false)]);
        assert CoreAt(s2, p);
        RunReady(s2, id, p);
      } else {
        AppendKeeps(s, id, st, p);
      }
    }
  }

  lemma ConcludeReady(s: State, id: nat, p: Progress, failed: bool)
    requires p == Parse(s.log) && CoreAt(s, p) && id < |s.txs|
    requires p.stage.Ready? && p.stage.id == id && p.stage.failed == failed && Locking(s.txs[id].request)
    requires !s.txs[id].isPaused && (!failed ==> s.txs[id].executes == [] && !s.txs[id].canPause)
    ensures var s1 := Conclude(s, id, failed); var p1 := Parse(s1.log);
            CoreAt(s1, p1) && p1.stage.Busy? && (s.wire == [] ==> WiredAt(s1, p1))
  {
    var b := s.txs[id].executes + [if failed then Rollback else Commit];
    assert TxOk(s.txs[id], id, p);
    assert b[..|b| - 1] == s.txs[id].executes;
    ParseSnoc(s.log, Sent(id, b));
    Concluded(s, id, failed);
    hide Conclude, AllPermitted, OpensWith;
    var s1 := Conclude(s, id, failed);
    var p1 := Advance(p, Sent(id, b));
    assert p1 == At(p.next, Busy(id, p.stage.request, b));
    assert TxOk(s1.txs[id], id, p1);
    forall i: nat | i < |s1.txs| && i != id ensures TxOk(s1.txs[i], i, p1) {
      assert TxOk(s.txs[i], i, p);
    }
  }

  lemma Concluded(s: State, id: nat, failed: bool)
    requires id < |s.txs| && !s.txs[id].finalized && Locking(s.txs[id].request)
    ensures var t := s.txs[id]; var b := t.executes + [if failed then Rollback else Commit];
            Conclude(s, id, failed)
            == s.(txs := s.txs[id := t.(finalized := true, executes := [])],
                  wire := s.wire + [Outstanding(id, b)], log := s.log + [Sent(id, b)])
  {
  }

  lemma EndKeeps(s: State, id: nat, onSuccess: bool, onError: bool, p: Progress)
    requires p == Parse(s.log) && CoreAt(s, p) && id < |s.txs|
    ensures Kept(s, DoEnd(s, id, onSuccess, onError))
  {
    var t := s.txs[id];
    if t.canPause {
      var s1 := s.(txs := s.txs[id := AfterEnd(t, onSuccess, onError)]);
      assert TxOk(s.txs[id], id, p);
      assert CoreAt(s1, p);
      if t.isPaused && !t.finalized {
        ConcludeReady(s1, id, p, false);
      }
    }
  }

  lemma AbortKeeps(s: State, id: nat, onError: bool, p: Progress)
    requires p == Parse(s.log) && CoreAt(s, p) && id < |s.txs|
    requires s.txs[id].canPause ==> !s.txs[id].finalized
    ensures Kept(s, DoAbort(s, id, onError))
  {
    var t := s.txs[id];
    if t.canPause {
      var s1 := AddStatement(s.(txs := s.txs[id := t.(canPause := false, isPaused := false, onError := onError)]),
        id, Invalid);
      assert TxOk(s.txs[id], id, p) && TxOk(s1.txs[id], id, p);
      assert CoreAt(s1, p);
      if t.isPaused {
        RunReady(s1, id, p);
      }
    }
  }

  lemma EnqueueKeeps(s: State, r: Request, p: Progress)
    requires p == Parse(s.log) && CoreAt(s, p)
    ensures Kept(s, AddTransaction(s, NewTx(r)))
  {
    NewOk(r, |s.txs|, p);
    hide NewTx, TxOk;
    assert CoreAt(AddTransaction(s, NewTx(r)), p);
  }

  lemma NewOk(r: Request, id: nat, p: Progress)
    requires p.At? && id >= p.next
    ensures TxOk(NewTx(r), id, p)
  {
  }

  /** Inside a callback an allowed call keeps the invariant and sends nothing; between events it keeps the whole of
      it. */
  lemma ActKeeps(s: State, a: Action)
    requires Core(s) && Allowed(s, a)
    ensures Kept(s, Act(s, a))
  {
    EffectKeeps(s, a);
    FlagKeeps(s, Effect(s, a), Effect(s, a).misuse || !Allowed(s, a), Effect(s, a).rash || !Careful(s, a));
  }

  lemma EffectKeeps(s: State, a: Action)
    requires Core(s) && Allowed(s, a)
    ensures Kept(s, Effect(s, a))
  {
    var p := Parse(s.log);
    match a
    case Enqueue(r) => EnqueueKeeps(s, r, p);
    case ExecuteSql(id, text, params, ok, err) =>
      if id < |s.txs| { ExecuteSqlKeeps(s, id, Sql(text, params, ok, err), p); }
    case End(id, ok, err) => if id < |s.txs| { EndKeeps(s, id, ok, err, p); }
    case Abort(id, err) => if id < |s.txs| { AbortKeeps(s, id, err, p); }
    case Open =>
    case Close =>
    case Delete =>
  }

  /** `abort` on a failed multi-part transaction either sends outside the lock or leaves a statement to be sent
      later. */
  lemma AbortBreaks(s: State, id: nat, onError: bool)
    requires Inv(s) && id < |s.txs| && s.txs[id].canPause && s.txs[id].finalized
    ensures !Core(DoAbort(s, id, onError))
    ensures s.txs[id].isPaused ==> Parse(DoAbort(s, id, onError).log).Reject?
  {
    var t := s.txs[id];
    var p := Parse(s.log);
    assert TxOk(t, id, p);
    var s1 := DoAbort(s, id, onError);
    assert t.executes + [Invalid] == [Invalid];
    if t.isPaused {
      ParseSnoc(s.log, Sent(id, [Invalid]));
    } else {
      assert !TxOk(s1.txs[id], id, p);
    }
  }

  /** Exactly the allowed calls keep the invariant; opening, closing and deleting are always allowed. */
  lemma ActKeepsIff(s: State, a: Action)
    requires Inv(s)
    ensures Inv(Act(s, a)) <==> Allowed(s, a)
  {
    if Allowed(s, a) {
      ActKeeps(s, a);
    } else {
      AbortBreaks(s, a.tx, a.onError);
    }
  }
}
