/** The other end of the bridge: what arrives of a transaction, and what executing the texts does to the database. */
module Receiver {
  import opened Statements
  import opened Protocol
  import opened Scheduler
  import opened Invariant
  import opened Runs
  import opened Transitions
  import opened Storage
  import opened Wire

  /** What the texts of the application do to the database, with the reply and whether they succeed. */
  type TextEngine<!D, !R> = (D, string, seq<Value>) -> (D, R, bool)

  /** One statement as it is received: three words are commands to the connection, the rest is SQL. */
  function Obey<D, R>(engine: TextEngine<D, R>, w: World<D>, item: (string, seq<Value>)): (World<D>, bool) {
    if item.0 == "BEGIN" then (if w.saved.None? then (World(w.db, Some(w.db)), true) else (w, false))
    else if item.0 == "COMMIT" then (World(w.db, None), true)
    else if item.0 == "ROLLBACK" then (if w.saved.Some? then (World(w.saved.value, None), true) else (w, false))
    else var (db, _, ok) := engine(w.db, item.0, item.1); (World(db, w.saved), ok)
  }

  function ObeyAll<D, R>(engine: TextEngine<D, R>, w: World<D>, items: seq<(string, seq<Value>)>): World<D>
    decreases |items|
  {
    if items == [] then w else ObeyAll(engine, Obey(engine, w, items[0]).0, items[1..])
  }

  /** The results sent back. */
  function Report<D, R>(engine: TextEngine<D, R>, w: World<D>, items: seq<(string, seq<Value>)>): seq<bool>
    decreases |items|
  {
    if items == [] then [] else
    var (w1, ok) := Obey(engine, w, items[0]);
    [ok] + Report(engine, w1, items[1..])
  }

  /** `exec` is what `engine` makes of the application's statements and of the one that `abort` queues; SELECT 1 does
      nothing. */
  ghost predicate Understands<D(!new), R(!new)>(engine: TextEngine<D, R>, exec: Engine<D, R>) {
    && (forall d: D, text, params, ok, err :: exec(d, Sql(text, params, ok, err)) == engine(d, text, params))
    && (forall d: D :: exec(d, Invalid) == engine(d, "INVALID STATEMENT", []))
    && (forall d: D :: engine(d, "SELECT 1", []).0 == d && engine(d, "SELECT 1", []).2)
  }

  /** The application's own SQL is none of the three commands. */
  predicate NoCommands(batch: seq<Statement>) {
    forall st :: st in batch && st.Sql? ==> st.text != "BEGIN" && st.text != "COMMIT" && st.text != "ROLLBACK"
  }

  lemma ObeyOne<D(!new), R(!new)>(engine: TextEngine<D, R>, exec: Engine<D, R>, w: World<D>,
                                  item: (string, seq<Value>), st: Statement)
    requires Understands(engine, exec) && ReadAs(item, st) && NoCommands([st])
    ensures Obey(engine, w, item) == (Apply(exec, w, st).0, Apply(exec, w, st).2)
  {
    assert st in [st];
  }

  lemma {:induction false} ObeysItems<D(!new), R(!new)>(engine: TextEngine<D, R>, exec: Engine<D, R>, w: World<D>,
                                                        items: seq<(string, seq<Value>)>, batch: seq<Statement>)
    requires Understands(engine, exec) && NoCommands(batch)
    requires |items| == |batch| && forall i :: 0 <= i < |batch| ==> ReadAs(items[i], batch[i])
    ensures ObeyAll(engine, w, items) == Execute(exec, w, batch)
    ensures Report(engine, w, items) == Results(exec, w, batch)
    decreases |batch|
  {
    hide Obey, Apply, Understands, ReadAs;
    if batch != [] {
      ObeyOne(engine, exec, w, items[0], batch[0]);
      var w1 := Apply(exec, w, batch[0]).0;
      forall i | 0 <= i < |batch| - 1 ensures ReadAs(items[1..][i], batch[1..][i]) {
        assert items[1..][i] == items[i + 1] && batch[1..][i] == batch[i + 1];
      }
      ObeysItems(engine, exec, w1, items[1..], batch[1..]);
    }
  }

  /** A receiver that is handed the parts of a batch, joins them, and obeys what it reads, does to the database what the
      batch does, and reports the same results: BEGIN saves, COMMIT keeps and ROLLBACK restores. */
  method Deliver<D(!new), R(!new)>(engine: TextEngine<D, R>, ghost exec: Engine<D, R>, w: World<D>,
                                   batch: seq<Statement>)
    returns (w1: World<D>, results: seq<bool>)
    requires Understands(engine, exec) && NoCommands(batch)
    ensures w1 == Execute(exec, w, batch) && results == Results(exec, w, batch)
  {
    hide Understands, Decode, ReadAs, ObeyAll, Report, Execute, Results;
    var parts, flen := SendParts(batch);
    var items := Decode(Join(parts), flen);
    ObeysItems(engine, exec, w, items.value, batch);
    w1, results := ObeyAll(engine, w, items.value), Report(engine, w, items.value);
  }

  // ---- what arrives when a transaction starts

  /** `sqlBatch`: the batch that is sent right after the start reads as BEGIN and the given statements in their order;
      none of them has a handler. */
  lemma BatchArrives(s: State, fn: Script, last: Script) returns (b: seq<Statement>)
    requires Inv(s) && s.ticks > 0 && s.db.IsOpen? && s.queue != [] && !s.inProgress
    requires var t := s.txs[s.queue[0]]; t.request.Batch? && t.executes == [Begin]
    ensures var id := s.queue[0]; var r := s.txs[id].request; var s1 := Tick(s, fn, last);
            && s1.log == s.log + [Started(id, r), Sent(id, b)] && s1.wire == s.wire + [Outstanding(id, b)]
            && |b| == |r.items| + 1 && Decode(Flat(b), |b|) == Some([("BEGIN", [])] + r.items)
            && forall i :: 1 <= i < |b| ==> !Handled(b[i], true) && !Handled(b[i], false)
  {
    hide Tick, Inv, Decode, Flat;
    var more := PluginStarts(s, fn, last);
    b := [Begin] + more;
    RequestRoundTrip(b);
    var items := Decode(Flat(b), |b|).value;
    var asked := s.txs[s.queue[0]].request.items;
    forall i | 0 <= i < |b| ensures items[i] == ([("BEGIN", [])] + asked)[i] {
      assert ReadAs(items[i], b[i]);
    }
    assert items == [("BEGIN", [])] + asked;
  }

  /** `executeSql` on the database: SELECT 1 and the given statement, with both handlers. */
  lemma SingleArrives(s: State, fn: Script, last: Script) returns (b: seq<Statement>)
    requires Inv(s) && s.ticks > 0 && s.db.IsOpen? && s.queue != [] && !s.inProgress
    requires var t := s.txs[s.queue[0]]; t.request.Single? && t.executes == [SelectOne]
    ensures var id := s.queue[0]; var r := s.txs[id].request; var s1 := Tick(s, fn, last);
            && s1.log == s.log + [Started(id, r), Sent(id, b)] && s1.wire == s.wire + [Outstanding(id, b)]
            && |b| == 2 && Decode(Flat(b), |b|) == Some([("SELECT 1", []), (r.text, r.params)])
            && Handled(b[1], true) && Handled(b[1], false)
  {
    hide Tick, Inv, Decode, Flat;
    var more := PluginStarts(s, fn, last);
    b := [SelectOne] + more;
    RequestRoundTrip(b);
    var items := Decode(Flat(b), |b|).value;
    assert ReadAs(items[0], b[0]) && ReadAs(items[1], b[1]);
    var r := s.txs[s.queue[0]].request;
    assert items == [("SELECT 1", []), (r.text, r.params)];
  }

  /** `beginTransaction`: what has been queued on it before, behind SELECT 1 and BEGIN, and nothing else. */
  lemma MultiPartArrives(s: State, fn: Script, last: Script)
    requires Inv(s) && s.ticks > 0 && s.db.IsOpen? && s.queue != [] && !s.inProgress
    requires s.txs[s.queue[0]].request.MultiPart?
    ensures var id := s.queue[0]; var t := s.txs[id]; var s1 := Tick(s, fn, last);
            && s1.log == s.log + [Started(id, t.request), Sent(id, t.executes)]
            && s1.wire == s.wire + [Outstanding(id, t.executes)]
  {
    hide Tick, Inv;
    var more := PluginStarts(s, fn, last);
    var executes := s.txs[s.queue[0]].executes;
    assert executes + [] == executes;
  }
}
