/** The reference: a transaction as a queue of statements served one at a time (processing model of
    section 4.3.2 of the W3C Web SQL Database document). */
module QueueModel {
  import opened Statements
  import opened Scheduler
  import opened Storage

  /** A handler invocation, as the application sees it. */
  datatype Invocation<R> = Invocation(statement: Statement, reply: R)

  /** The statement's outcome must end the transaction. */
  predicate Fatal(st: Statement, ok: bool, outcome: Outcome) {
    if Handled(st, ok) then (if ok then outcome.Throws? else !outcome.ReturnsFalse?) else !ok
  }

  /** `held`: the application has not yet said that nothing more will come. */
  datatype Queue<D, R> = Queue(
    w: World<D>,
    pending: seq<Statement>,
    held: bool,
    calls: seq<Invocation<R>>,
    done: seq<Statement>,
    failed: bool)

  predicate Finished<D, R>(q: Queue<D, R>) {
    q.failed || (q.pending == [] && !q.held)
  }

  /** What a call of the application means for transaction `id`. */
  function Heed<D, R>(q: Queue<D, R>, id: nat, a: Action): Queue<D, R> {
    match a
    case ExecuteSql(tx, text, params, onSuccess, onError) =>
      if tx == id then q.(pending := q.pending + [Sql(text, params, onSuccess, onError)]) else q
    case End(tx, _, _) => if tx == id then q.(held := false) else q
    case Abort(tx, _) => if tx == id && q.held then q.(held := false, pending := q.pending + [Invalid]) else q
    case _ => q
  }

  function HeedAll<D, R>(q: Queue<D, R>, id: nat, acts: seq<Action>): Queue<D, R>
    decreases |acts|
  {
    if acts == [] then q else HeedAll(Heed(q, id, acts[0]), id, acts[1..])
  }

  /** The first pending statement: executed, answered, and its handler run to the end before anything else. */
  function ServeOne<D, R>(exec: Engine<D, R>, id: nat, q: Queue<D, R>, script: Script): Queue<D, R> {
    if q.failed || q.pending == [] then q else
    var st := q.pending[0];
    var (w, reply, ok) := Apply(exec, q.w, st);
    var called := Handled(st, ok) && reply.Some?;
    var q1 := q.(w := w, pending := q.pending[1..], done := q.done + [st],
                 calls := if called then q.calls + [Invocation(st, reply.value)] else q.calls);
    var q2 := if called then HeedAll(q1, id, script.acts) else q1;
    q2.(failed := Fatal(st, ok, script.outcome))
  }

  /** A call from outside the transaction's handlers, or the service of one statement. */
  datatype Move = Outside(act: Action) | Serve(script: Script)

  function PlayOne<D, R>(exec: Engine<D, R>, id: nat, q: Queue<D, R>, m: Move): Queue<D, R> {
    match m
    case Outside(a) => if Finished(q) then q else Heed(q, id, a)
    case Serve(script) => ServeOne(exec, id, q, script)
  }

  function Play<D, R>(exec: Engine<D, R>, id: nat, q: Queue<D, R>, moves: seq<Move>): Queue<D, R>
    decreases |moves|
  {
    if moves == [] then q else Play(exec, id, PlayOne(exec, id, q, moves[0]), moves[1..])
  }

  lemma {:induction false} PlaySplit<D, R>(exec: Engine<D, R>, id: nat, q: Queue<D, R>, a: seq<Move>, b: seq<Move>)
    ensures Play(exec, id, q, a + b) == Play(exec, id, Play(exec, id, q, a), b)
    decreases |a|
  {
    if a == [] {
      assert a + b == b;
    } else {
      assert (a + b)[1..] == a[1..] + b;
      PlaySplit(exec, id, PlayOne(exec, id, q, a[0]), a[1..], b);
    }
  }

  function Serves(scripts: seq<Script>): seq<Move> {
    seq(|scripts|, i requires 0 <= i < |scripts| => Serve(scripts[i]))
  }

  /** A transaction begins: what has been queued on it before, and then what its body queues, call by call. */
  function Begins<D, R>(w: World<D>, t: Tx, id: nat, fn: Script): Queue<D, R> {
    var q := Queue(w, t.executes, t.canPause, [], [], false);
    if UserBody(t.request) then HeedAll(q, id, fn.acts) else q.(pending := q.pending + PluginBody(t.request))
  }

  // ---- what the queue does to the database

  /** BEGIN, or SELECT 1 and BEGIN, and then ordinary statements. */
  predicate Opens(b: seq<Statement>) {
    || (|b| >= 1 && b[0].Begin? && Ordinary(b[1..]))
    || (|b| >= 2 && b[0].SelectOne? && b[1].Begin? && Ordinary(b[2..]))
  }

  /** BEGIN is still to be served: nothing has happened. */
  ghost predicate Beginning<D(!new), R(!new)>(q: Queue<D, R>, d0: D) {
    !q.failed && q.w == World(d0, None) && Opens(q.pending)
  }

  /** BEGIN has been served: whatever happens, `d0` can be brought back. */
  ghost predicate Begun<D(!new), R(!new)>(q: Queue<D, R>, d0: D) {
    q.w.saved == Some(d0) && Ordinary(q.pending)
  }

  lemma HeedKeeps<D(!new), R(!new)>(q: Queue<D, R>, id: nat, a: Action, d0: D)
    ensures Begun(q, d0) ==> Begun(Heed(q, id, a), d0)
    ensures Beginning(q, d0) ==> Beginning(Heed(q, id, a), d0)
  {
    var more := Heed(q, id, a).pending[|q.pending|..];
    assert Heed(q, id, a).pending == q.pending + more;
    assert Ordinary(more);
    if |q.pending| >= 1 {
      assert (q.pending + more)[1..] == q.pending[1..] + more;
    }
    if |q.pending| >= 2 {
      assert (q.pending + more)[2..] == q.pending[2..] + more;
    }
  }

  lemma {:induction false} HeedAllKeeps<D(!new), R(!new)>(q: Queue<D, R>, id: nat, acts: seq<Action>, d0: D)
    ensures Begun(q, d0) ==> Begun(HeedAll(q, id, acts), d0)
    ensures Beginning(q, d0) ==> Beginning(HeedAll(q, id, acts), d0)
    decreases |acts|
  {
    hide Begun, Beginning, Heed;
    if acts != [] {
      HeedKeeps(q, id, acts[0], d0);
      HeedAllKeeps(Heed(q, id, acts[0]), id, acts[1..], d0);
    }
  }

  /** Nothing fails before BEGIN is served, and BEGIN does not fail; after it, the saved database stays. */
  lemma ServeKeeps<D(!new), R(!new)>(exec: Engine<D, R>, id: nat, q: Queue<D, R>, script: Script, d0: D)
    requires Begun(q, d0) || Beginning(q, d0)
    ensures var q1 := ServeOne(exec, id, q, script); Begun(q1, d0) || Beginning(q1, d0)
  {
    if !q.failed && q.pending != [] {
      var st := q.pending[0];
      var (w, reply, ok) := Apply(exec, q.w, st);
      var called := Handled(st, ok) && reply.Some?;
      var q1 := q.(w := w, pending := q.pending[1..], done := q.done + [st],
                   calls := if called then q.calls + [Invocation(st, reply.value)] else q.calls);
      if Begun(q, d0) {
        assert st in q.pending;
        assert Begun(q1, d0);
      } else {
        assert st.SelectOne? ==> q1.pending[1..] == q.pending[2..];
      }
      HeedAllKeeps(q1, id, script.acts, d0);
    }
  }
}
