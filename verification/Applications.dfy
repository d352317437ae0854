/** A transaction left to itself: an application that only reacts, and nothing but replies.  The batched run ends
    exactly if the one-at-a-time queue ends. */
module Applications {
  import opened Statements
  import opened Scheduler
  import opened Invariant
  import opened Runs
  import opened Storage
  import opened QueueModel
  import opened Refinement
  import opened RunRefinement

  /** Any function of all the handler invocations so far. */
  type Application<!R> = seq<Invocation<R>> -> Script

  function Reaction<R>(user: Application<R>, calls: seq<Invocation<R>>, invoked: seq<Invocation<R>>): Script {
    if invoked == [] then Quiet else user(calls + invoked)
  }

  // ---- the queue left to itself

  function ServeBy<D, R>(exec: Engine<D, R>, user: Application<R>, id: nat, q: Queue<D, R>): Queue<D, R> {
    if q.pending == [] then q else ServeOne(exec, id, q, Reaction(user, q.calls, Invoked(exec, q.w, q.pending[0])))
  }

  function ServeN<D, R>(exec: Engine<D, R>, user: Application<R>, id: nat, q: Queue<D, R>, n: nat): Queue<D, R>
    decreases n
  {
    if n == 0 then q else ServeN(exec, user, id, ServeBy(exec, user, id, q), n - 1)
  }

  // ---- the run left to itself

  /** The handlers of a batch, called in order with their replies. */
  function Scripts<D, R>(exec: Engine<D, R>, user: Application<R>, w: World<D>, b: seq<Statement>,
                         calls: seq<Invocation<R>>)
    : (r: seq<Script>)
    ensures |r| == |b|
    decreases |b|
  {
    if b == [] then [] else
    var invoked := Invoked(exec, w, b[0]);
    [Reaction(user, calls, invoked)] + Scripts(exec, user, Apply(exec, w, b[0]).0, b[1..], calls + invoked)
  }

  function ReplyBy<D, R>(exec: Engine<D, R>, user: Application<R>, c: Observed<D, R>): Event {
    var b := if c.s.wire == [] then [] else c.s.wire[0].batch;
    BatchReply(0, Results(exec, c.w, b), Scripts(exec, user, c.w, b, c.calls), Quiet)
  }

  function ReplyN<D, R>(exec: Engine<D, R>, user: Application<R>, id: nat, c: Observed<D, R>, n: nat): Observed<D, R>
    decreases n
  {
    if n == 0 then c else ReplyN(exec, user, id, Observe(exec, id, c, ReplyBy(exec, user, c)), n - 1)
  }

  // ---- one reply and as many services

  lemma {:induction false} ServeStays<D, R>(exec: Engine<D, R>, user: Application<R>, id: nat, q: Queue<D, R>, n: nat)
    requires q.failed || q.pending == []
    ensures ServeN(exec, user, id, q, n) == q
    decreases n
  {
    if n > 0 {
      ServeStays(exec, user, id, q, n - 1);
    }
  }

  lemma {:induction false} ServeSplits<D, R>(exec: Engine<D, R>, user: Application<R>, id: nat, q: Queue<D, R>,
                                             m: nat, n: nat)
    ensures ServeN(exec, user, id, q, m + n) == ServeN(exec, user, id, ServeN(exec, user, id, q, m), n)
    decreases m
  {
    hide ServeBy;
    if m > 0 {
      ServeSplits(exec, user, id, ServeBy(exec, user, id, q), m - 1, n);
    }
  }

  lemma {:induction false} HeedAllAppends<D, R>(q: Queue<D, R>, id: nat, acts: seq<Action>)
    ensures q.pending <= HeedAll(q, id, acts).pending
    decreases |acts|
  {
    if acts != [] {
      HeedAllAppends(Heed(q, id, acts[0]), id, acts[1..]);
    }
  }

  /** Serving one statement takes it off the queue and only appends. */
  lemma ServeOneShape<D, R>(exec: Engine<D, R>, id: nat, q: Queue<D, R>, script: Script)
    requires !q.failed && q.pending != []
    ensures var q1 := ServeOne(exec, id, q, script); var st := q.pending[0];
            q.pending[1..] <= q1.pending && q1.w == Apply(exec, q.w, st).0
              && q1.calls == q.calls + Invoked(exec, q.w, st)
  {
    var st := q.pending[0];
    var q1 := q.(w := Apply(exec, q.w, st).0, pending := q.pending[1..], done := q.done + [st],
      calls := q.calls + Invoked(exec, q.w, st));
    assert q.calls + [] == q.calls;
    HeedAllAppends(q1, id, script.acts);
    HeedAllOnlyQueues(q1, id, script.acts);
    hide HeedAll;
  }

  /** The queue serves a batch as the application would answer it. */
  lemma {:induction false} ServesByApplication<D, R>(exec: Engine<D, R>, user: Application<R>, id: nat,
                                                     q: Queue<D, R>, b: seq<Statement>)
    requires q.failed || b <= q.pending
    ensures !q.failed ==>
              ServeAll(exec, id, q, Scripts(exec, user, q.w, b, q.calls)) == ServeN(exec, user, id, q, |b|)
    decreases |b|
  {
    hide ServeOne;
    var scripts := Scripts(exec, user, q.w, b, q.calls);
    if b != [] && !q.failed {
      assert q.pending[0] == b[0];
      var q1 := ServeOne(exec, id, q, scripts[0]);
      assert q1 == ServeBy(exec, user, id, q);
      ServeOneShape(exec, id, q, scripts[0]);
      assert b[1..] <= q.pending[1..];
      assert Serves(scripts)[1..] == Serves(scripts[1..]);
      assert ServeAll(exec, id, q, scripts) == ServeAll(exec, id, q1, scripts[1..]);
      if q1.failed {
        FailedStays(exec, id, q1, Serves(scripts[1..]));
        ServeStays(exec, user, id, q1, |b| - 1);
      } else {
        assert scripts[1..] == Scripts(exec, user, q1.w, b[1..], q1.calls);
        ServesByApplication(exec, user, id, q1, b[1..]);
      }
    }
  }

  lemma PaddedWhole(scripts: seq<Script>)
    ensures Padded(scripts, 0, |scripts|) == scripts
  {
    var padded := Padded(scripts, 0, |scripts|);
    assert |padded| == |scripts| && forall i :: 0 <= i < |scripts| ==> padded[i] == scripts[i];
  }

  /** How many statements the next reply serves. */
  function Due<D, R>(c: Observed<D, R>, id: nat): nat {
    if Ended(c.s.log, id) || c.s.wire == [] then 0 else |c.s.wire[0].batch|
  }

  lemma StepBy<D(!new), R(!new)>(exec: Engine<D, R>, user: Application<R>, id: nat, c: Observed<D, R>, q: Queue<D, R>,
                                 d0: D)
    requires Level(c, q, id, d0) && !Step(c.s, ReplyBy(exec, user, c)).misuse
    ensures Level(Observe(exec, id, c, ReplyBy(exec, user, c)), ServeN(exec, user, id, q, Due(c, id)), id, d0)
  {
    var e := ReplyBy(exec, user, c);
    assert Genuine(exec, id, c, e);
    StepLevel(exec, id, c, q, e, d0);
    hide Step;
    if Ended(c.s.log, id) || c.s.wire == [] {
      assert MovesOf(c.s, id, e) == [];
      hide Level, Observe;
    } else {
      PhaseHolds(c.s, q, id);
      SimBatch(c, q, id, d0);
      PaddedWhole(e.scripts);
      if Finished(q) {
        NothingToServe(exec, id, q, e.scripts);
        ServeStays(exec, user, id, q, Due(c, id));
      } else {
        ServesByApplication(exec, user, id, q, c.s.wire[0].batch);
      }
    }
  }

  lemma SimBatch<D(!new), R(!new)>(c: Observed<D, R>, q: Queue<D, R>, id: nat, d0: D)
    requires Sim(c, q, id, d0) && c.s.wire != []
    ensures id < |c.s.txs| && c.s.wire[0].id == id
    ensures !Finished(q) ==>
              var b := c.s.wire[0].batch; !q.failed && b != [] && b <= q.pending && c.w == q.w && c.calls == q.calls
  {
  }

  // ---- ending

  /** The rules of use are kept, however many replies come. */
  ghost predicate WellUsed<D(!new), R(!new)>(exec: Engine<D, R>, user: Application<R>, id: nat, c: Observed<D, R>) {
    forall n: nat :: !ReplyN(exec, user, id, c, n).s.misuse
  }

  lemma WellUsedNext<D(!new), R(!new)>(exec: Engine<D, R>, user: Application<R>, id: nat, c: Observed<D, R>)
    requires WellUsed(exec, user, id, c)
    ensures var e := ReplyBy(exec, user, c);
            !Step(c.s, e).misuse && WellUsed(exec, user, id, Observe(exec, id, c, e))
  {
    var e := ReplyBy(exec, user, c);
    var c1 := Observe(exec, id, c, e);
    ObserveStep(exec, id, c, e);
    hide Step, Observe, ReplyBy;
    assert ReplyN(exec, user, id, c, 1) == ReplyN(exec, user, id, c1, 0) == c1;
    forall n: nat ensures !ReplyN(exec, user, id, c1, n).s.misuse {
      assert ReplyN(exec, user, id, c1, n) == ReplyN(exec, user, id, c, n + 1);
    }
  }

  /** A level run that is not over and has nothing outstanding waits for the application, and so does the queue. */
  lemma PausedQueue<D(!new), R(!new)>(c: Observed<D, R>, q: Queue<D, R>, id: nat, d0: D)
    requires Level(c, q, id, d0) && !Ended(c.s.log, id)
    ensures if c.s.wire == [] then q.pending == [] && !Finished(q) else Finished(q) || Due(c, id) > 0
  {
  }

  /** A finished queue: the outstanding reply ends the transaction. */
  lemma FinishedEnds<D(!new), R(!new)>(exec: Engine<D, R>, user: Application<R>, id: nat, c: Observed<D, R>,
                                       q: Queue<D, R>, d0: D)
    requires Level(c, q, id, d0) && !Ended(c.s.log, id) && Finished(q)
    ensures Ended(Observe(exec, id, c, ReplyBy(exec, user, c)).s.log, id)
  {
    PausedQueue(c, q, id, d0);
    SimBatch(c, q, id, d0);
    assert Committing(c.s, q, id) || RollingBack(c.s, q, id);
    SettlingReply(exec, id, c, q, ReplyBy(exec, user, c), d0);
  }

  /** If the queue comes to an end, so does the run, alike. */
  lemma {:induction false} QueueEnds<D(!new), R(!new)>(exec: Engine<D, R>, user: Application<R>, id: nat,
                                                       c: Observed<D, R>, q: Queue<D, R>, d0: D, n: nat)
    returns (m: nat)
    requires Level(c, q, id, d0) && WellUsed(exec, user, id, c) && Finished(ServeN(exec, user, id, q, n))
    ensures Ended(ReplyN(exec, user, id, c, m).s.log, id)
            && Alike(ReplyN(exec, user, id, c, m), ServeN(exec, user, id, q, n), id, d0)
    decreases n, if Ended(c.s.log, id) then 0 else 1
  {
    hide *;
    ServeZero(exec, user, id, c, q);
    if Ended(c.s.log, id) {
      LevelEnded(c, q, id, d0);
      FinishedServe(exec, user, id, q, n);
      m := 0;
    } else {
      PausedQueue(c, q, id, d0);
      var k := Due(c, id);
      var c1 := Observe(exec, id, c, ReplyBy(exec, user, c));
      WellUsedNext(exec, user, id, c);
      StepBy(exec, user, id, c, q, d0);
      var q1 := ServeN(exec, user, id, q, k);
      var m1;
      if Finished(q) {
        FinishedServe(exec, user, id, q, n);
        FinishedServe(exec, user, id, q, k);
        FinishedEnds(exec, user, id, c, q, d0);
        m1 := QueueEnds(exec, user, id, c1, q1, d0, n);
      } else {
        NotYet(exec, user, id, c, q, n);
        SameEnd(exec, user, id, q, k, n);
        m1 := QueueEnds(exec, user, id, c1, q1, d0, if n <= k then 0 else n - k);
      }
      NextReply(exec, user, id, c, m1);
      m := m1 + 1;
    }
  }

  lemma ServeZero<D, R>(exec: Engine<D, R>, user: Application<R>, id: nat, c: Observed<D, R>, q: Queue<D, R>)
    ensures ServeN(exec, user, id, q, 0) == q && ReplyN(exec, user, id, c, 0) == c
  {
  }

  lemma NextReply<D, R>(exec: Engine<D, R>, user: Application<R>, id: nat, c: Observed<D, R>, m: nat)
    ensures ReplyN(exec, user, id, c, m + 1) == ReplyN(exec, user, id, Observe(exec, id, c, ReplyBy(exec, user, c)), m)
  {
  }

  lemma LevelEnded<D(!new), R(!new)>(c: Observed<D, R>, q: Queue<D, R>, id: nat, d0: D)
    requires Level(c, q, id, d0) && Ended(c.s.log, id)
    ensures Alike(c, q, id, d0) && Finished(q)
  {
  }

  lemma FinishedServe<D, R>(exec: Engine<D, R>, user: Application<R>, id: nat, q: Queue<D, R>, n: nat)
    requires Finished(q)
    ensures ServeN(exec, user, id, q, n) == q
  {
    ServeStays(exec, user, id, q, n);
  }

  /** A queue that is not finished but will be has something to serve. */
  lemma NotYet<D, R>(exec: Engine<D, R>, user: Application<R>, id: nat, c: Observed<D, R>, q: Queue<D, R>, n: nat)
    requires !Finished(q) && Finished(ServeN(exec, user, id, q, n))
    requires if c.s.wire == [] then q.pending == [] else Due(c, id) > 0
    ensures n > 0 && Due(c, id) > 0
  {
    if q.pending == [] {
      ServeStays(exec, user, id, q, n);
    }
  }

  lemma SameEnd<D, R>(exec: Engine<D, R>, user: Application<R>, id: nat, q: Queue<D, R>, k: nat, n: nat)
    requires Finished(ServeN(exec, user, id, q, n))
    ensures ServeN(exec, user, id, q, n)
            == ServeN(exec, user, id, ServeN(exec, user, id, q, k), if n <= k then 0 else n - k)
  {
    hide *;
    if n <= k {
      ServeSplits(exec, user, id, q, n, k - n);
      FinishedServe(exec, user, id, ServeN(exec, user, id, q, n), k - n);
      FinishedServe(exec, user, id, ServeN(exec, user, id, q, k), 0);
    } else {
      ServeSplits(exec, user, id, q, k, n - k);
    }
  }

  /** If the run comes to an end, so does the queue, alike. */
  lemma {:induction false} BatchesEnd<D(!new), R(!new)>(exec: Engine<D, R>, user: Application<R>, id: nat,
                                                        c: Observed<D, R>, q: Queue<D, R>, d0: D, m: nat)
    returns (n: nat)
    requires Level(c, q, id, d0) && WellUsed(exec, user, id, c) && Ended(ReplyN(exec, user, id, c, m).s.log, id)
    ensures Alike(ReplyN(exec, user, id, c, m), ServeN(exec, user, id, q, n), id, d0)
    decreases m
  {
    hide *;
    ServeZero(exec, user, id, c, q);
    if m == 0 {
      LevelEnded(c, q, id, d0);
      n := 0;
    } else {
      var k := Due(c, id);
      WellUsedNext(exec, user, id, c);
      StepBy(exec, user, id, c, q, d0);
      NextReply(exec, user, id, c, m - 1);
      var n1 := BatchesEnd(exec, user, id, Observe(exec, id, c, ReplyBy(exec, user, c)),
        ServeN(exec, user, id, q, k), d0, m - 1);
      ServeSplits(exec, user, id, q, k, n1);
      n := k + n1;
    }
  }

  /** After `m` replies the run is over, alike with the queue after some number of services. */
  ghost predicate AlikeAt<D(!new), R(!new)>(exec: Engine<D, R>, user: Application<R>, id: nat, c: Observed<D, R>,
                                            q: Queue<D, R>, d0: D, m: nat) {
    exists n: nat :: Alike(ReplyN(exec, user, id, c, m), ServeN(exec, user, id, q, n), id, d0)
  }

  ghost predicate QueueCanEnd<D(!new), R(!new)>(exec: Engine<D, R>, user: Application<R>, id: nat, q: Queue<D, R>) {
    exists n: nat :: Finished(ServeN(exec, user, id, q, n))
  }

  predicate EndsAt<D, R>(exec: Engine<D, R>, user: Application<R>, id: nat, c: Observed<D, R>, m: nat) {
    Ended(ReplyN(exec, user, id, c, m).s.log, id)
  }

  lemma QueueEndsSoon<D(!new), R(!new)>(exec: Engine<D, R>, user: Application<R>, id: nat, c: Observed<D, R>,
                                        q: Queue<D, R>, d0: D)
    requires Level(c, q, id, d0) && WellUsed(exec, user, id, c) && QueueCanEnd(exec, user, id, q)
    ensures exists m: nat :: EndsAt(exec, user, id, c, m)
  {
    var n: nat :| Finished(ServeN(exec, user, id, q, n));
    var m := QueueEnds(exec, user, id, c, q, d0, n);
    assert EndsAt(exec, user, id, c, m);
  }

  lemma RunEndsAlike<D(!new), R(!new)>(exec: Engine<D, R>, user: Application<R>, id: nat, c: Observed<D, R>,
                                       q: Queue<D, R>, d0: D, m: nat)
    requires Level(c, q, id, d0) && WellUsed(exec, user, id, c) && EndsAt(exec, user, id, c, m)
    ensures AlikeAt(exec, user, id, c, q, d0, m) && QueueCanEnd(exec, user, id, q)
  {
    hide Level, Alike, WellUsed, Finished;
    var n := BatchesEnd(exec, user, id, c, q, d0, m);
    AlikeFinished(ReplyN(exec, user, id, c, m), ServeN(exec, user, id, q, n), id, d0);
  }

  /** For every engine and every application that keeps the rules of use: the transaction ends exactly if the queue
      ends, and then they end alike. */
  lemma EndTogether<D(!new), R(!new)>(exec: Engine<D, R>, user: Application<R>, s: State, id: nat, fn: Script,
                                      last: Script, w: World<D>)
    requires Inv(s) && StartsLocking(s, id, fn) && !Tick(s, fn, last).misuse && w.saved == None
    requires WellUsed<D, R>(exec, user, id, Observed(Tick(s, fn, last), w, [], []))
    ensures id < |s.txs|
    ensures var c: Observed<D, R> := Observed(Tick(s, fn, last), w, [], []);
            var q: Queue<D, R> := Begins(w, s.txs[id], id, fn);
            && (QueueCanEnd(exec, user, id, q) <==> exists m: nat :: EndsAt(exec, user, id, c, m))
            && (forall m: nat :: EndsAt(exec, user, id, c, m) ==> AlikeAt(exec, user, id, c, q, w.db, m))
  {
    hide *;
    StartsExists(s, id, fn);
    StartLevel<D, R>(s, id, fn, last, w);
    var c: Observed<D, R> := Observed(Tick(s, fn, last), w, [], []);
    var q: Queue<D, R> := Begins(w, s.txs[id], id, fn);
    if QueueCanEnd(exec, user, id, q) {
      QueueEndsSoon(exec, user, id, c, q, w.db);
    }
    forall m: nat | EndsAt(exec, user, id, c, m)
      ensures AlikeAt(exec, user, id, c, q, w.db, m) && QueueCanEnd(exec, user, id, q)
    {
      RunEndsAlike(exec, user, id, c, q, w.db, m);
    }
  }

  lemma AlikeFinished<D(!new), R(!new)>(c: Observed<D, R>, q: Queue<D, R>, id: nat, d0: D)
    requires Alike(c, q, id, d0)
    ensures Finished(q)
  {
  }
}
