/** The native side: a database connection that executes statements one after the other. */
module Storage {
  import opened Statements

  /** What one statement does to the database: the new database, the reply, and whether it succeeded. */
  type Engine<!D, !R> = (D, Statement) -> (D, R, bool)

  /** The connection; while a transaction is open, `saved` is what ROLLBACK brings back. */
  datatype World<D> = World(db: D, saved: Option<D>)

  /** BEGIN fails inside a transaction, ROLLBACK outside; SELECT 1 does nothing; COMMIT succeeds. */
  function Apply<D, R>(exec: Engine<D, R>, w: World<D>, st: Statement): (World<D>, Option<R>, bool) {
    match st
    case Begin => if w.saved.None? then (World(w.db, Some(w.db)), None, true) else (w, None, false)
    case SelectOne => (w, None, true)
    case Commit => (World(w.db, None), None, true)
    case Rollback => if w.saved.Some? then (World(w.saved.value, None), None, true) else (w, None, false)
    case _ => var (db, reply, ok) := exec(w.db, st); (World(db, w.saved), Some(reply), ok)
  }

  /** A batch is executed as a whole. */
  function Execute<D, R>(exec: Engine<D, R>, w: World<D>, b: seq<Statement>): World<D>
    decreases |b|
  {
    if b == [] then w else Execute(exec, Apply(exec, w, b[0]).0, b[1..])
  }

  function Results<D, R>(exec: Engine<D, R>, w: World<D>, b: seq<Statement>): (r: seq<bool>)
    ensures |r| == |b|
    decreases |b|
  {
    if b == [] then [] else var (w1, _, ok) := Apply(exec, w, b[0]); [ok] + Results(exec, w1, b[1..])
  }

  lemma {:induction false} ExecuteSplit<D, R>(exec: Engine<D, R>, w: World<D>, a: seq<Statement>, b: seq<Statement>)
    ensures Execute(exec, w, a + b) == Execute(exec, Execute(exec, w, a), b)
    decreases |a|
  {
    if a == [] {
      assert a + b == b;
    } else {
      assert (a + b)[1..] == a[1..] + b;
      ExecuteSplit(exec, Apply(exec, w, a[0]).0, a[1..], b);
    }
  }

  /** An application statement, or the one that `abort` queues: no transaction statement. */
  predicate Ordinary(b: seq<Statement>) {
    forall st :: st in b ==> st.Sql? || st.Invalid?
  }

  lemma {:induction false} OrdinaryKeepsSaved<D, R>(exec: Engine<D, R>, w: World<D>, b: seq<Statement>)
    requires Ordinary(b)
    ensures Execute(exec, w, b).saved == w.saved
    decreases |b|
  {
    if b != [] {
      assert b[0] in b;
      OrdinaryKeepsSaved(exec, Apply(exec, w, b[0]).0, b[1..]);
    }
  }
}
