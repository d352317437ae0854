/** The order in which statements are executed: the level-order walk of the tree of statements that handlers queue. */
module LevelOrder {
  import opened Statements
  import opened Protocol
  import opened Scheduler
  import opened Invariant
  import opened Histories
  import opened Runs
  import opened Storage
  import opened QueueModel
  import opened Refinement
  import opened RunRefinement

  /** A statement, and the statements that its handler queues. */
  datatype Tree = Tree(statement: Statement, children: seq<Tree>)

  /** Whoever queues more has both handlers, so that one of them is called. */
  predicate WellFormed(t: Tree) {
    && t.statement.Sql?
    && (t.children != [] ==> t.statement.onSuccess && t.statement.onError)
    && forall c :: c in t.children ==> WellFormed(c)
  }

  predicate AllWellFormed(f: seq<Tree>) {
    forall t :: t in f ==> WellFormed(t)
  }

  function TreeSize(t: Tree): nat {
    1 + Size(t.children)
  }

  function Size(f: seq<Tree>): nat {
    if f == [] then 0 else TreeSize(f[0]) + Size(f[1..])
  }

  lemma {:induction false} SizeSplit(f: seq<Tree>, g: seq<Tree>)
    ensures Size(f + g) == Size(f) + Size(g)
    decreases |f|
  {
    if f == [] {
      assert f + g == g;
    } else {
      assert (f + g)[1..] == f[1..] + g;
      SizeSplit(f[1..], g);
    }
  }

  /** Taking a tree out and putting its children in makes a forest smaller. */
  lemma SizeStep(f: seq<Tree>)
    requires f != []
    ensures Size(f[1..] + f[0].children) < Size(f)
  {
    SizeSplit(f[1..], f[0].children);
    assert TreeSize(f[0]) == 1 + Size(f[0].children);
  }

  function Roots(f: seq<Tree>): (r: seq<Statement>)
    ensures |r| == |f|
  {
    seq(|f|, i requires 0 <= i < |f| => f[i].statement)
  }

  /** The next level. */
  function Children(f: seq<Tree>): seq<Tree>
    decreases |f|
  {
    if f == [] then [] else f[0].children + Children(f[1..])
  }

  lemma {:induction false} ChildrenSize(f: seq<Tree>)
    ensures Size(Children(f)) + |f| == Size(f)
    decreases |f|
  {
    if f != [] {
      ChildrenSize(f[1..]);
      SizeSplit(f[0].children, Children(f[1..]));
    }
  }

  /** Level by level, each of them from left to right. */
  function Walk(f: seq<Tree>): seq<Statement>
    decreases Size(f)
  {
    ChildrenSize(f);
    if f == [] then [] else Roots(f) + Walk(Children(f))
  }

  /** First in, first out. */
  function Served(f: seq<Tree>): seq<Statement>
    decreases Size(f)
  {
    if f == [] then [] else
    SizeStep(f);
    [f[0].statement] + Served(f[1..] + f[0].children)
  }

  lemma {:induction false} ServedLevel(f: seq<Tree>, g: seq<Tree>)
    ensures Served(f + g) == Roots(f) + Served(g + Children(f))
    decreases |f|
  {
    if f == [] {
      assert f + g == g == g + Children(f);
    } else {
      var more := g + f[0].children;
      assert (f + g)[1..] + f[0].children == f[1..] + more;
      ServedLevel(f[1..], more);
      assert more + Children(f[1..]) == g + Children(f);
      assert Roots(f) == [f[0].statement] + Roots(f[1..]);
    }
  }

  /** A queue walks the forest level by level. */
  lemma {:induction false} ServedIsWalk(f: seq<Tree>)
    ensures Served(f) == Walk(f)
    decreases Size(f)
  {
    if f != [] {
      ChildrenSize(f);
      assert f + [] == f && [] + Children(f) == Children(f);
      ServedLevel(f, []);
      ServedIsWalk(Children(f));
    }
  }

  // ---- the application that queues the statements of a forest

  function Calls(id: nat, statements: seq<Statement>): seq<Action>
    requires forall st :: st in statements ==> st.Sql?
  {
    seq(|statements|, i requires 0 <= i < |statements| =>
      assert statements[i] in statements;
      ExecuteSql(id, statements[i].text, statements[i].params, statements[i].onSuccess, statements[i].onError))
  }

  /** The handler of one tree; a failure of its statement is recovered from. */
  function TreeHandler(id: nat, t: Tree): Script
    requires WellFormed(t)
  {
    RootsSql(t.children);
    Script(Calls(id, Roots(t.children)), ReturnsFalse)
  }

  lemma RootsSql(f: seq<Tree>)
    requires AllWellFormed(f)
    ensures forall st :: st in Roots(f) ==> st.Sql?
  {
    forall i | 0 <= i < |f| ensures Roots(f)[i].Sql? {
      assert f[i] in f;
    }
  }

  lemma MoreTrees(f: seq<Tree>)
    requires f != [] && AllWellFormed(f)
    ensures WellFormed(f[0]) && AllWellFormed(f[1..] + f[0].children)
  {
    assert f[0] in f;
  }

  /** The handlers in the order in which the queue calls them. */
  function TreeHandlers(id: nat, f: seq<Tree>): seq<Script>
    requires AllWellFormed(f)
    decreases Size(f)
  {
    if f == [] then [] else
    SizeStep(f);
    MoreTrees(f);
    [TreeHandler(id, f[0])] + TreeHandlers(id, f[1..] + f[0].children)
  }

  lemma {:induction false} HeedCalls<D, R>(q: Queue<D, R>, id: nat, statements: seq<Statement>)
    requires forall st :: st in statements ==> st.Sql?
    ensures HeedAll(q, id, Calls(id, statements)) == q.(pending := q.pending + statements)
    decreases |statements|
  {
    if statements == [] {
      assert q.pending + [] == q.pending;
    } else {
      assert statements[0] in statements;
      assert Calls(id, statements)[1..] == Calls(id, statements[1..]);
      HeedCalls(Heed(q, id, Calls(id, statements)[0]), id, statements[1..]);
      assert (q.pending + [statements[0]]) + statements[1..] == q.pending + statements;
    }
  }

  /** Serving a tree: it is executed, and its children go to the end of the queue; or the transaction fails. */
  lemma ServeTree<D, R>(exec: Engine<D, R>, id: nat, q: Queue<D, R>, f: seq<Tree>)
    requires f != [] && AllWellFormed(f) && q.pending == Roots(f) && !q.failed
    ensures WellFormed(f[0])
    ensures var q1 := ServeOne(exec, id, q, TreeHandler(id, f[0]));
            && q1.done == q.done + [f[0].statement] && q1.held == q.held
            && (!q1.failed ==> q1.pending == Roots(f[1..] + f[0].children))
  {
    MoreTrees(f);
    var st := f[0].statement;
    var (w, reply, ok) := Apply(exec, q.w, st);
    var q1 := q.(w := w, pending := q.pending[1..], done := q.done + [st],
                 calls := if Handled(st, ok) && reply.Some? then q.calls + [Invocation(st, reply.value)] else q.calls);
    RootsSql(f[0].children);
    HeedCalls(q1, id, Roots(f[0].children));
    assert Roots(f)[1..] == Roots(f[1..]);
    assert Roots(f[1..] + f[0].children) == Roots(f[1..]) + Roots(f[0].children);
    if f[0].children == [] {
      assert Roots(f[1..]) + [] == Roots(f[1..]);
    }
    hide HeedAll, Calls;
  }

  lemma WalkStep(done: seq<Statement>, f: seq<Tree>)
    requires f != []
    ensures done + Walk(f) == (done + [f[0].statement]) + Walk(f[1..] + f[0].children)
    ensures done + [f[0].statement] <= done + Walk(f)
  {
    hide Walk, Served;
    ServedIsWalk(f);
    ServedIsWalk(f[1..] + f[0].children);
    ServedStep(f);
  }

  lemma ServedStep(f: seq<Tree>)
    requires f != []
    ensures Served(f) == [f[0].statement] + Served(f[1..] + f[0].children)
  {
  }

  /** The queue executes a forest in level order; if it fails it has executed a beginning of the walk. */
  lemma {:induction false} ServesForest<D, R>(exec: Engine<D, R>, id: nat, q: Queue<D, R>, f: seq<Tree>)
    requires AllWellFormed(f) && q.pending == Roots(f) && !q.failed
    ensures var q1 := ServeAll(exec, id, q, TreeHandlers(id, f));
            && q1.done <= q.done + Walk(f) && q1.held == q.held
            && (!q1.failed ==> q1.pending == [] && q1.done == q.done + Walk(f))
    decreases Size(f)
  {
    if f == [] {
      assert q.done + [] == q.done;
    } else {
      SizeStep(f);
      MoreTrees(f);
      var rest := f[1..] + f[0].children;
      var scripts := TreeHandlers(id, f);
      var q1 := ServeOne(exec, id, q, scripts[0]);
      ServeTree(exec, id, q, f);
      assert scripts[1..] == TreeHandlers(id, rest);
      WalkStep(q.done, f);
      hide ServeOne, Play, Serves, TreeHandlers, Walk, Roots, WellFormed;
      ServesOne(exec, id, q, scripts);
      if q1.failed {
        FailedStays(exec, id, q1, Serves(TreeHandlers(id, rest)));
      } else {
        ServesForest(exec, id, q1, rest);
      }
    }
  }

  // ---- runs

  /** The scripts of all replies to `id`, one for each statement. */
  function ReplyScripts(s: State, id: nat, events: seq<Event>): seq<Script>
    decreases |events|
  {
    if events == [] then [] else
    var e := events[0];
    (if Replies(s, id, e) && !Ended(s.log, id) then Padded(e.scripts, 0, |s.wire[e.k].batch|) else [])
    + ReplyScripts(Step(s, e), id, events[1..])
  }

  predicate OnlyReplies(events: seq<Event>) {
    forall e :: e in events ==> e.BatchReply?
  }

  lemma ServesSplit(a: seq<Script>, b: seq<Script>)
    ensures Serves(a + b) == Serves(a) + Serves(b)
  {
  }

  lemma {:induction false} PlayReplies<D, R>(exec: Engine<D, R>, id: nat, s: State, q: Queue<D, R>, events: seq<Event>)
    requires OnlyReplies(events)
    ensures PlayAll(exec, id, s, q, events) == ServeAll(exec, id, q, ReplyScripts(s, id, events))
    decreases |events|
  {
    hide Step, Ended;
    if events != [] {
      var e := events[0];
      assert e in events && forall x :: x in events[1..] ==> x in events;
      var own := if Replies(s, id, e) && !Ended(s.log, id) then Padded(e.scripts, 0, |s.wire[e.k].batch|) else [];
      var later := ReplyScripts(Step(s, e), id, events[1..]);
      assert MovesOf(s, id, e) == Serves(own);
      PlayReplies(exec, id, Step(s, e), Play(exec, id, q, Serves(own)), events[1..]);
      ServesSplit(own, later);
      PlaySplit(exec, id, q, Serves(own), Serves(later));
    }
  }

  /** BEGIN, with or without SELECT 1 before it, is served without a handler. */
  lemma ServesOpening<D, R>(exec: Engine<D, R>, id: nat, q: Queue<D, R>, r: Request, rest: seq<Statement>,
                            scripts: seq<Script>)
    requires Locking(r) && q.pending == Opening(r) + rest && !q.failed && q.w.saved == None && |scripts| == |Opening(r)|
    ensures var q1 := ServeAll(exec, id, q, scripts);
            q1.pending == rest && !q1.failed && q1.done == q.done + Opening(r) && q1.held == q.held
  {
    var o := Opening(r);
    var q1 := ServeOne(exec, id, q, scripts[0]);
    assert q.pending == [o[0]] + (o[1..] + rest);
    ServesUnhandled(exec, id, q, o[0], o[1..] + rest, scripts[0]);
    ServesOne(exec, id, q, scripts);
    if |o| == 2 {
      assert q1.pending == [o[1]] + rest && scripts[1..][0] == scripts[1];
      ServesUnhandled(exec, id, q1, o[1], rest, scripts[1]);
      ServesOne(exec, id, q1, scripts[1..]);
      ServesOne(exec, id, ServeOne(exec, id, q1, scripts[1]), scripts[2..]);
      assert scripts[1..][1..] == scripts[2..] && o == [o[0]] + [o[1]];
      assert q.done + [o[0]] + [o[1]] == q.done + o;
    } else {
      ServesOne(exec, id, q1, scripts[1..]);
      assert o == [o[0]] && o[1..] + rest == rest;
    }
  }

  lemma ServesOne<D, R>(exec: Engine<D, R>, id: nat, q: Queue<D, R>, scripts: seq<Script>)
    ensures scripts == [] ==> ServeAll(exec, id, q, scripts) == q
    ensures scripts != [] ==>
              ServeAll(exec, id, q, scripts) == ServeAll(exec, id, ServeOne(exec, id, q, scripts[0]), scripts[1..])
  {
    hide ServeOne;
    if scripts != [] {
      assert Serves(scripts)[0] == Serve(scripts[0]) && Serves(scripts)[1..] == Serves(scripts[1..]);
    }
  }

  lemma ServesUnhandled<D, R>(exec: Engine<D, R>, id: nat, q: Queue<D, R>, st: Statement, rest: seq<Statement>,
                              script: Script)
    requires !q.failed && q.pending == [st] + rest && (st.SelectOne? || (st.Begin? && q.w.saved == None))
    ensures var q1 := ServeOne(exec, id, q, script);
            && q1.pending == rest && !q1.failed && q1.done == q.done + [st] && q1.held == q.held
            && (st.SelectOne? ==> q1.w == q.w)
  {
  }

  /** Level order, over runs: a locking transaction whose body queues the roots of a forest and whose handlers queue the
      children of their trees, when it has committed, has executed its opening, the level-order walk of the forest, and
      COMMIT, however the statements came to be divided into batches. */
  lemma ExecutesInLevelOrder<D(!new), R(!new)>(exec: Engine<D, R>, before: seq<Event>, id: nat, fn: Script,
                                               last: Script, after: seq<Event>, w: World<D>, f: seq<Tree>,
                                               opening: seq<Script>, rest: seq<Script>)
    requires StartsLocking(After(before), id, fn) && w.saved == None && OnlyReplies(after) && AllWellFormed(f)
    requires !After(before + [TickRuns(fn, last)] + after).misuse
    requires AllGenuine<D, R>(exec, id, Observed(Tick(After(before), fn, last), w, [], []), after)
    requires id < |After(before).txs| && Locking(After(before).txs[id].request)
    requires |opening| == |Opening(After(before).txs[id].request)|
    requires Begins<D, R>(w, After(before).txs[id], id, fn).pending == Opening(After(before).txs[id].request) + Roots(f)
    requires ReplyScripts(Tick(After(before), fn, last), id, after) == opening + TreeHandlers(id, f) + rest
    requires Released(id, CommitOk) in After(before + [TickRuns(fn, last)] + after).log
    ensures var c: Observed<D, R> := ObserveAll(exec, id, Observed(Tick(After(before), fn, last), w, [], []), after);
            c.done == Opening(After(before).txs[id].request) + Walk(f) + [Commit]
  {
    var s := After(before);
    var q: Queue<D, R> := Begins(w, s.txs[id], id, fn);
    var c: Observed<D, R> := ObserveAll(exec, id, Observed(Tick(s, fn, last), w, [], []), after);
    hide *;
    BatchingRefinesQueue(exec, before, id, fn, last, after, w);
    PlayReplies(exec, id, Tick(s, fn, last), q, after);
    BeginsFresh<D, R>(w, s.txs[id], id, fn);
    QueueWalks(exec, id, q, s.txs[id].request, f, opening, rest);
    EveryRun(before + [TickRuns(fn, last)] + after);
    InvAccepted(c.s);
    CommittedIsAlike(c, ServeAll(exec, id, q, opening + TreeHandlers(id, f) + rest), id, w.db);
  }

  lemma InvAccepted(s: State)
    requires Inv(s)
    ensures Accepted(s.log)
  {
  }

  /** The queue of a transaction whose application queues a forest. */
  lemma QueueWalks<D, R>(exec: Engine<D, R>, id: nat, q: Queue<D, R>, r: Request, f: seq<Tree>, opening: seq<Script>,
                         rest: seq<Script>)
    requires Locking(r) && AllWellFormed(f) && |opening| == |Opening(r)|
    requires q.pending == Opening(r) + Roots(f) && !q.failed && q.w.saved == None && q.done == []
    ensures var q1 := ServeAll(exec, id, q, opening + TreeHandlers(id, f) + rest);
            !q1.failed ==> q1.done == Opening(r) + Walk(f)
  {
    var q1 := ServeAll(exec, id, q, opening);
    var q2 := ServeAll(exec, id, q1, TreeHandlers(id, f));
    hide TreeHandlers, Walk;
    ServesOpening(exec, id, q, r, Roots(f), opening);
    ServesForest(exec, id, q1, f);
    NothingToServeAfter(exec, id, q2, rest);
    hide Play, Serves;
    ServesSplit(opening + TreeHandlers(id, f), rest);
    ServesSplit(opening, TreeHandlers(id, f));
    PlaySplit(exec, id, q, Serves(opening) + Serves(TreeHandlers(id, f)), Serves(rest));
    PlaySplit(exec, id, q, Serves(opening), Serves(TreeHandlers(id, f)));
    assert [] + Opening(r) == Opening(r);
  }

  lemma NothingToServeAfter<D, R>(exec: Engine<D, R>, id: nat, q: Queue<D, R>, rest: seq<Script>)
    requires q.failed || q.pending == []
    ensures Play(exec, id, q, Serves(rest)) == q
  {
    NothingToServe(exec, id, q, rest);
  }

  lemma CommittedIsAlike<D(!new), R(!new)>(c: Observed<D, R>, q: Queue<D, R>, id: nat, d0: D)
    requires Level(c, q, id, d0) && Released(id, CommitOk) in c.s.log && Accepted(c.s.log)
    ensures !q.failed && c.done == q.done + [Commit]
  {
    assert Ended(c.s.log, id);
    if q.failed {
      var log := c.s.log;
      var i :| 0 <= i < |log| && log[i] == Released(id, CommitOk);
      var j :| 0 <= j < |log| && log[j] == Released(id, RollbackOk);
      EndsOnce(log, if i < j then i else j, if i < j then j else i);
    }
  }
}
