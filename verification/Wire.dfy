/** The flat lists of `run_batch`: requests as counted parameters, sliced into parts, and replies as tagged results. */
module Wire {
  import opened Statements

  const MAX_PART_SIZE: nat := 500

  // ---- requests

  function Flat(batch: seq<Statement>): seq<Value> {
    if batch == [] then [] else
    [Text(SqlText(batch[0])), Int(|Params(batch[0])|)] + Params(batch[0]) + Flat(batch[1..])
  }

  function Items(batch: seq<Statement>): seq<(string, seq<Value>)> {
    if batch == [] then [] else [(SqlText(batch[0]), Params(batch[0]))] + Items(batch[1..])
  }

  /** What a receiver that is told the number of statements makes of a flat list. */
  function Decode(flat: seq<Value>, flen: nat): Option<seq<(string, seq<Value>)>>
    decreases flen
  {
    if flen == 0 then if flat == [] then Some([]) else None
    else if |flat| >= 2 && flat[0].Text? && flat[1].Int? && 0 <= flat[1].n <= |flat| - 2 then
      var n := flat[1].n;
      var rest := Decode(flat[2 + n..], flen - 1);
      if rest.Some? then Some([(flat[0].s, flat[2..2 + n])] + rest.value) else None
    else None
  }

  /** What the receiver must read for a statement: the plugin's own ones by their SQL, the application's as given. */
  predicate ReadAs(item: (string, seq<Value>), st: Statement) {
    match st
    case Begin => item == ("BEGIN", [])
    case SelectOne => item == ("SELECT 1", [])
    case Invalid => item == ("INVALID STATEMENT", [])
    case Commit => item == ("COMMIT", [])
    case Rollback => item == ("ROLLBACK", [])
    case Sql(text, params, _, _) => item == (text, params)
  }

  /** A flat list and a count from which the receiver reads exactly the statements of the batch, in order. */
  predicate Carries(flat: seq<Value>, flen: nat, batch: seq<Statement>) {
    var items := Decode(flat, flen);
    items.Some? && |items.value| == |batch| && forall i :: 0 <= i < |batch| ==> ReadAs(items.value[i], batch[i])
  }

  /** Parameters are delimited by their count alone, so no value can be taken for anything else. */
  lemma DecodeOne(text: string, p: seq<Value>, rest: seq<Value>, flen: nat)
    ensures var items := Decode(rest, flen);
            Decode([Text(text), Int(|p|)] + p + rest, flen + 1)
            == if items.Some? then Some([(text, p)] + items.value) else None
  {
    var flat := [Text(text), Int(|p|)] + p + rest;
    assert flat[2..2 + |p|] == p;
    assert flat[2 + |p|..] == rest;
  }

  lemma {:induction false} FlatDecodes(batch: seq<Statement>)
    ensures Decode(Flat(batch), |batch|) == Some(Items(batch))
  {
    hide SqlText, Params;
    if batch != [] {
      FlatDecodes(batch[1..]);
      DecodeOne(SqlText(batch[0]), Params(batch[0]), Flat(batch[1..]), |batch| - 1);
    }
  }

  lemma {:induction false} ItemsReadAs(batch: seq<Statement>)
    ensures |Items(batch)| == |batch| && forall i :: 0 <= i < |batch| ==> ReadAs(Items(batch)[i], batch[i])
  {
    if batch != [] {
      ItemsReadAs(batch[1..]);
      forall i | 0 < i < |batch| ensures ReadAs(Items(batch)[i], batch[i]) {
        assert Items(batch)[i] == Items(batch[1..])[i - 1] && batch[i] == batch[1..][i - 1];
      }
    }
  }

  /** What is sent is what is received: index by index the plugin's own statements by their SQL, without parameters,
      and the application's with theirs. */
  lemma RequestRoundTrip(batch: seq<Statement>)
    ensures Carries(Flat(batch), |batch|, batch)
  {
    FlatDecodes(batch);
    ItemsReadAs(batch);
  }

  method FlatList(batch: seq<Statement>) returns (flatlist: seq<Value>)
    ensures flatlist == Flat(batch) && Carries(flatlist, |batch|, batch)
  {
    RequestRoundTrip(batch);
    hide SqlText, Params, Carries;
    flatlist := [];
    var i := 0;
    while i < |batch|
      invariant i <= |batch| && flatlist + Flat(batch[i..]) == Flat(batch)
    {
      ghost var before := flatlist;
      var params := Params(batch[i]);
      flatlist := flatlist + [Text(SqlText(batch[i]))];
      flatlist := flatlist + [Int(|params|)];
      var l := 0;
      while l < |params|
        invariant l <= |params| && flatlist == before + [Text(SqlText(batch[i])), Int(|params|)] + params[..l]
      {
        flatlist := flatlist + [params[l]];
        l := l + 1;
      }
      assert params[..l] == params && batch[i..][1..] == batch[i + 1..];
      i := i + 1;
    }
  }

  datatype Part = Part(partid: nat, entries: seq<Value>)

  function Join(parts: seq<Part>): seq<Value> {
    if parts == [] then [] else Join(parts[..|parts| - 1]) + parts[|parts| - 1].entries
  }

  /** Parts are numbered from 1, hold 1 to 500 entries, and only the last may hold fewer than 500. */
  predicate PartsOk(parts: seq<Part>) {
    && (forall i :: 0 <= i < |parts| ==> parts[i].partid == i + 1 && 1 <= |parts[i].entries| <= MAX_PART_SIZE)
    && (forall i :: 0 <= i < |parts| - 1 ==> |parts[i].entries| == MAX_PART_SIZE)
  }

  predicate AllFull(parts: seq<Part>) {
    forall i :: 0 <= i < |parts| ==> |parts[i].entries| == MAX_PART_SIZE
  }

  /** The number of parts is the length divided by 500, rounded up. */
  lemma {:induction false} CountParts(parts: seq<Part>)
    requires PartsOk(parts)
    ensures |parts| == (|Join(parts)| + MAX_PART_SIZE - 1) / MAX_PART_SIZE
    ensures AllFull(parts) ==> |Join(parts)| == MAX_PART_SIZE * |parts|
    decreases |parts|
  {
    if parts != [] {
      CountParts(parts[..|parts| - 1]);
    }
  }

  lemma PartsSnoc(parts: seq<Part>, part: seq<Value>)
    requires PartsOk(parts) && AllFull(parts) && 1 <= |part| <= MAX_PART_SIZE
    ensures var more := parts + [Part(|parts| + 1, part)];
            PartsOk(more) && Join(more) == Join(parts) + part && (|part| == MAX_PART_SIZE ==> AllFull(more))
  {
    var more := parts + [Part(|parts| + 1, part)];
    assert more[..|more| - 1] == parts;
  }

  method Slice(flatlist: seq<Value>) returns (parts: seq<Part>)
    ensures Join(parts) == flatlist && PartsOk(parts)
    ensures forall i :: 0 <= i < |parts| ==>
              && parts[i].partid == i + 1 && 1 <= |parts[i].entries| <= 500
              && (i < |parts| - 1 ==> |parts[i].entries| == 500)
    ensures |parts| == (|flatlist| + MAX_PART_SIZE - 1) / MAX_PART_SIZE
  {
    hide Join, PartsOk;
    parts := [];
    var rem := flatlist;
    var partid := 0;
    NoParts();
    while |rem| > 0
      invariant partid == |parts| && PartsOk(parts) && Join(parts) + rem == flatlist
      invariant |rem| > 0 ==> AllFull(parts)
      decreases |rem|
    {
      var pl := if |rem| > MAX_PART_SIZE then MAX_PART_SIZE else |rem|;
      var part := rem[..pl];
      partid := partid + 1;
      PartsSnoc(parts, part);
      assert rem == part + rem[pl..];
      rem := rem[pl..];
      parts := parts + [Part(partid, part)];
    }
    CountParts(parts);
    PartsBounds(parts);
  }

  lemma PartsBounds(parts: seq<Part>)
    requires PartsOk(parts)
    ensures forall i :: 0 <= i < |parts| ==>
              && parts[i].partid == i + 1 && 1 <= |parts[i].entries| <= 500
              && (i < |parts| - 1 ==> |parts[i].entries| == 500)
  {
  }

  lemma NoParts()
    ensures PartsOk([]) && Join([]) == []
  {
  }

  /** The worker's request: whatever the batch, the parts put together in order decode to its statements. */
  method SendParts(batch: seq<Statement>) returns (parts: seq<Part>, flen: nat)
    ensures PartsOk(parts) && flen == |batch| && Carries(Join(parts), flen, batch)
  {
    var flatlist := FlatList(batch);
    flen := |batch|;
    parts := Slice(flatlist);
  }

  // ---- replies

  /** One column of a row. */
  datatype Cell = Cell(name: string, value: Value)

  datatype Result =
    | Done                                                    // 'ok'
    | Changed(rowsAffected: Value, insertId: Value)           // 'ch2'
    | Rows(changes: Option<Value>, rowId: Option<Value>, rows: seq<seq<Cell>>)   // 'okrows'
    | Failed(code: Value, sqliteCode: Value, message: Value)  // 'error'

  function Cells(row: seq<Cell>): seq<Value> {
    if row == [] then [] else [Text(row[0].name), row[0].value] + Cells(row[1..])
  }

  function EncodeRows(rows: seq<seq<Cell>>): seq<Value> {
    if rows == [] then [Text("endrows")] else [Int(|rows[0]|)] + Cells(rows[0]) + EncodeRows(rows[1..])
  }

  function Tagged(tag: string, value: Option<Value>): seq<Value> {
    if value.Some? then [Text(tag), value.value] else []
  }

  function Encode(r: Result): seq<Value> {
    match r
    case Done => [Text("ok")]
    case Changed(rowsAffected, insertId) => [Text("ch2"), rowsAffected, insertId]
    case Rows(changes, insertId, rows) =>
      [Text("okrows")] + Tagged("changes", changes) + Tagged("insert_id", insertId) + EncodeRows(rows)
    case Failed(code, sqliteCode, message) => [Text("error"), code, sqliteCode, message]
  }

  function EncodeAll(rs: seq<Result>): seq<Value> {
    if rs == [] then [] else Encode(rs[0]) + EncodeAll(rs[1..])
  }

  /** The name that stands for an object's prototype. */
  const PROTO := "__proto__"

  /** A row object: its own properties, and whether its prototype has been set to null. */
  datatype Row = Row(cells: map<string, Value>, bare: bool)

  /** `row[k] = v`.  As long as there is a prototype, assigning to its name goes to a setter: null takes the prototype
      away, numbers and strings do nothing.  Without a prototype the name is one like any other. */
  function Assign(row: Row, k: string, v: Value): Row {
    if k == PROTO && !row.bare then row.(bare := v.Null?) else row.(cells := row.cells[k := v])
  }

  function RowObject(row: seq<Cell>): Row {
    if row == [] then Row(map[], false)
    else Assign(RowObject(row[..|row| - 1]), row[|row| - 1].name, row[|row| - 1].value)
  }

  predicate Named(row: seq<Cell>, name: string) {
    exists i :: 0 <= i < |row| && row[i].name == name
  }

  /** The last column of that name is column `i`. */
  predicate LastNamed(row: seq<Cell>, name: string, i: nat) {
    i < |row| && row[i].name == name && forall j :: i < j < |row| ==> row[j].name != name
  }

  /** A column that takes the prototype away. */
  predicate Bares(row: seq<Cell>, i: nat) {
    i < |row| && row[i].name == PROTO && row[i].value.Null?
  }

  /** A column named after the prototype comes after one that has taken it away. */
  predicate BaredBefore(row: seq<Cell>) {
    exists i: nat, j: nat :: i < j < |row| && Bares(row, i) && row[j].name == PROTO
  }

  /** The names that become properties. */
  predicate Arrives(row: seq<Cell>, name: string) {
    if name == PROTO then BaredBefore(row) else Named(row, name)
  }

  lemma {:induction false} RowIsBare(row: seq<Cell>)
    ensures RowObject(row).bare <==> exists i: nat :: Bares(row, i)
    decreases |row|
  {
    if row != [] {
      var n := |row| - 1;
      RowIsBare(row[..n]);
      assert forall i: nat :: i < n ==> (Bares(row, i) <==> Bares(row[..n], i));
      if RowObject(row).bare && !RowObject(row[..n]).bare {
        assert Bares(row, n);
      }
    }
  }

  lemma ArrivesSnoc(row: seq<Cell>, name: string)
    requires row != []
    ensures var n := |row| - 1; var front := row[..n];
            Arrives(row, name)
            <==> Arrives(front, name) || (row[n].name == name && (name == PROTO ==> exists i: nat :: Bares(front, i)))
  {
    var n := |row| - 1;
    var front := row[..n];
    assert forall i: nat :: i < n ==> row[i] == front[i];
    assert forall i: nat :: i < n ==> (Bares(row, i) <==> Bares(front, i));
    if BaredBefore(row) {
      var i: nat, j: nat :| i < j < |row| && Bares(row, i) && row[j].name == PROTO;
      assert Bares(front, i);
      if j < n {
        assert front[j].name == PROTO;
      }
    }
    if BaredBefore(front) {
      var i: nat, j: nat :| i < j < |front| && Bares(front, i) && front[j].name == PROTO;
      assert Bares(row, i) && row[j].name == PROTO;
    }
    if i: nat :| Bares(front, i) && row[n].name == PROTO {
      assert Bares(row, i) && i < n;
    }
    if i :| 0 <= i < |front| && front[i].name == name {
      assert row[i].name == name;
    }
    if i :| 0 <= i < |row| && row[i].name == name && i < n {
      assert front[i].name == name;
    }
  }

  /** A row object has the names of the columns, each with the value of its last column; only the prototype's name is
      a property exactly if an earlier column of that name has taken the prototype away. */
  lemma {:induction false} RowKeepsLast(row: seq<Cell>, name: string)
    ensures name in RowObject(row).cells <==> Arrives(row, name)
    ensures forall i: nat :: LastNamed(row, name, i) && Arrives(row, name) ==>
              RowObject(row).cells[name] == row[i].value
    decreases |row|
  {
    if row != [] {
      var n := |row| - 1;
      var front := row[..n];
      RowKeepsLast(front, name);
      RowIsBare(front);
      ArrivesSnoc(row, name);
      hide Arrives, Bares;
      forall i: nat | LastNamed(row, name, i) && Arrives(row, name) ensures RowObject(row).cells[name] == row[i].value {
        if i < n {
          assert row[n].name != name && LastNamed(front, name, i);
        } else if Arrives(front, name) && name == PROTO {
          StillBare(front);
        }
      }
    }
  }

  lemma StillBare(row: seq<Cell>)
    requires Arrives(row, PROTO)
    ensures RowObject(row).bare
  {
    RowIsBare(row);
  }

  /** A row arrives complete exactly if no column has the prototype's name, or a null of that name precedes another. */
  lemma RowCompleteIff(row: seq<Cell>)
    ensures (forall i :: 0 <= i < |row| ==> row[i].name in RowObject(row).cells)
            <==> !Named(row, PROTO) || BaredBefore(row)
  {
    forall i | 0 <= i < |row| ensures row[i].name in RowObject(row).cells
      <==> row[i].name != PROTO || BaredBefore(row) {
      RowKeepsLast(row, row[i].name);
    }
    hide BaredBefore, RowObject;
  }

  function RowObjects(rows: seq<seq<Cell>>): seq<Row> {
    seq(|rows|, i requires 0 <= i < |rows| => RowObject(rows[i]))
  }

  /** The handler invocation that a result must cause. */
  datatype HandlerCall =
    | Success(rows: seq<Row>, rowsAffected: Option<Value>, insertId: Option<Value>)
    | Failure(code: Value, sqliteCode: Value, message: Value)

  function Delivered(r: Result): HandlerCall {
    match r
    case Done => Success([], None, None)
    case Changed(rowsAffected, insertId) => Success([], Some(rowsAffected), Some(insertId))
    case Rows(changes, insertId, rows) =>
      Success(RowObjects(rows), if changes.Some? then changes else Some(Int(0)), insertId)
    case Failed(code, sqliteCode, message) => Failure(code, sqliteCode, message)
  }

  lemma RowObjectSnoc(row: seq<Cell>, j: nat)
    requires j < |row|
    ensures RowObject(row[..j + 1]) == Assign(RowObject(row[..j]), row[j].name, row[j].value)
  {
    assert row[..j + 1][..j] == row[..j];
  }

  /** The `c` columns of one row, from `start` on. */
  method ParseRow(result: seq<Value>, start: nat, c: int, ghost row: seq<Cell>, ghost rest: seq<Value>)
    returns (obj: Row, ri: nat)
    requires start <= |result| && c == |row| && result[start..] == Cells(row) + rest
    ensures obj == RowObject(row) && ri <= |result| && result[ri..] == rest
  {
    ri := start;
    obj := Row(map[], false);
    var j := 0;
    while j < c
      invariant j <= |row| && ri <= |result| && result[ri..] == Cells(row[j..]) + rest
      invariant obj == RowObject(row[..j])
    {
      assert row[j..][0] == row[j] && row[j..][1..] == row[j + 1..];
      assert result[ri..] == [Text(row[j].name), row[j].value] + (Cells(row[j + 1..]) + rest);
      assert result[ri..][0] == Text(row[j].name) && result[ri..][1] == row[j].value;
      assert result[ri..][2..] == result[ri + 2..];
      var k, v := result[ri], result[ri + 1];
      RowObjectSnoc(row, j);
      ri := ri + 2;
      obj := Assign(obj, k.s, v);
      j := j + 1;
    }
    assert row[..j] == row && row[j..] == [];
    assert Cells([]) + rest == rest;
  }

  /** All rows up to and including the 'endrows' marker. */
  method ParseRows(result: seq<Value>, start: nat, ghost encoded: seq<seq<Cell>>, ghost rest: seq<Value>)
    returns (rows: seq<Row>, ri: nat)
    requires start <= |result| && result[start..] == EncodeRows(encoded) + rest
    ensures rows == RowObjects(encoded) && ri <= |result| && result[ri..] == rest
  {
    hide Cells, EncodeRows, RowObject, RowObjects;
    NoRowObjects();
    ri := start;
    rows := [];
    ghost var i := 0;
    RowsHead(result, ri, encoded, rest);
    assert encoded[0..] == encoded;
    while result[ri] != Text("endrows")
      invariant i <= |encoded| && ri < |result| && result[ri..] == EncodeRows(encoded[i..]) + rest
      invariant rows == RowObjects(encoded[..i])
      decreases |encoded| - i
    {
      RowsHead(result, ri, encoded[i..], rest);
      ghost var row := encoded[i];
      assert encoded[i..][1..] == encoded[i + 1..];
      var c := result[ri].n;
      var obj;
      obj, ri := ParseRow(result, ri + 1, c, row, EncodeRows(encoded[i + 1..]) + rest);
      rows := rows + [obj];
      RowObjectsSnoc(encoded, i);
      i := i + 1;
      RowsHead(result, ri, encoded[i..], rest);
    }
    RowsHead(result, ri, encoded[i..], rest);
    assert encoded[..i] == encoded;
    ri := ri + 1;
  }

  lemma NoRowObjects()
    ensures RowObjects([]) == []
  {
  }

  lemma RowObjectsSnoc(rows: seq<seq<Cell>>, i: nat)
    requires i < |rows|
    ensures RowObjects(rows[..i + 1]) == RowObjects(rows[..i]) + [RowObject(rows[i])]
  {
  }

  /** What stands at the cursor, at the beginning of a row or of the end marker. */
  lemma RowsHead(result: seq<Value>, ri: nat, rows: seq<seq<Cell>>, rest: seq<Value>)
    requires ri <= |result| && result[ri..] == EncodeRows(rows) + rest
    ensures ri < |result|
    ensures if rows == [] then result[ri] == Text("endrows") && result[ri + 1..] == rest
            else result[ri] == Int(|rows[0]|) && result[ri + 1..] == Cells(rows[0]) + (EncodeRows(rows[1..]) + rest)
  {
    hide Cells;
    var suffix := result[ri..];
    if rows == [] {
      assert suffix == [Text("endrows")] + rest;
    } else {
      assert suffix == [Int(|rows[0]|)] + (Cells(rows[0]) + (EncodeRows(rows[1..]) + rest));
    }
    assert suffix[0] == result[ri] && suffix[1..] == result[ri + 1..];
  }

  /** 'changes' and 'insert_id', each of them optional. */
  method ParseTagged(result: seq<Value>, start: nat, tag: string, ghost value: Option<Value>, ghost rest: seq<Value>)
    returns (v: Option<Value>, ri: nat)
    requires start <= |result| && result[start..] == Tagged(tag, value) + rest
    requires rest != [] && rest[0] != Text(tag)
    ensures v == value && ri <= |result| && result[ri..] == rest
  {
    ri := start;
    v := None;
    assert result[start..][0] == result[start];
    if result[ri] == Text(tag) {
      assert result[start..][1] == result[start + 1] && result[start..][2..] == result[start + 2..];
      v := Some(result[ri + 1]);
      ri := ri + 2;
    }
  }

  // ---- where a call's data stand in the flat list

  /** Row by row: the number of columns, and name and value of each; then the end marker. */
  ghost predicate RowsAt(flat: seq<Value>, q: nat, rows: seq<Row>)
    decreases |rows|
  {
    && q < |flat|
    && if rows == [] then flat[q] == Text("endrows")
       else exists row :: RowAt(flat, q, row) && rows[0] == RowObject(row) && RowsAt(flat, q + 1 + 2 * |row|, rows[1..])
  }

  predicate RowAt(flat: seq<Value>, q: nat, row: seq<Cell>) {
    && q + 1 + 2 * |row| <= |flat| && flat[q] == Int(|row|)
    && forall j :: 0 <= j < |row| ==> flat[q + 1 + 2 * j] == Text(row[j].name) && flat[q + 2 + 2 * j] == row[j].value
  }

  /** The call delivers the entries that follow the tag at `o`. */
  ghost predicate CallAt(flat: seq<Value>, o: nat, call: HandlerCall) {
    && o < |flat|
    && match call
       case Failure(code, sqliteCode, message) =>
         flat[o] == Text("error") && o + 3 < |flat|
         && flat[o + 1] == code && flat[o + 2] == sqliteCode && flat[o + 3] == message
       case Success(rows, rowsAffected, insertId) =>
         || (flat[o] == Text("ok") && rows == [] && rowsAffected == insertId == None)
         || (flat[o] == Text("ch2") && o + 2 < |flat|
             && rows == [] && rowsAffected == Some(flat[o + 1]) && insertId == Some(flat[o + 2]))
         || (flat[o] == Text("okrows") && RowsCallAt(flat, o, rows, rowsAffected, insertId))
  }

  /** After 'okrows': a change count if 'changes' is next, or else 0; an id if 'insert_id' is next; and the rows. */
  ghost predicate RowsCallAt(flat: seq<Value>, o: nat, rows: seq<Row>, rowsAffected: Option<Value>,
                             insertId: Option<Value>)
  {
    && o + 1 < |flat|
    && var changed := flat[o + 1] == Text("changes");
       var p := if changed then o + 3 else o + 1;
       && p < |flat|
       && var inserted := flat[p] == Text("insert_id");
          var q := if inserted then p + 2 else p;
          && RowsAt(flat, q, rows)
          && rowsAffected == Some(if changed then flat[o + 2] else Int(0))
          && insertId == if inserted then Some(flat[p + 1]) else None
  }

  lemma {:induction false} CellsAt(row: seq<Cell>)
    ensures |Cells(row)| == 2 * |row|
    ensures forall j :: 0 <= j < |row| ==>
              Cells(row)[2 * j] == Text(row[j].name) && Cells(row)[2 * j + 1] == row[j].value
  {
    if row != [] {
      var rest := Cells(row[1..]);
      CellsAt(row[1..]);
      assert Cells(row)[0] == Text(row[0].name) && Cells(row)[1] == row[0].value && Cells(row)[2..] == rest;
      forall j | 0 < j < |row|
        ensures Cells(row)[2 * j] == Text(row[j].name) && Cells(row)[2 * j + 1] == row[j].value
      {
        assert Cells(row)[2 * j] == Cells(row[1..])[2 * (j - 1)];
        assert Cells(row)[2 * j + 1] == Cells(row[1..])[2 * (j - 1) + 1];
      }
    }
  }

  lemma RowIsAt(flat: seq<Value>, q: nat, row: seq<Cell>, rest: seq<Value>)
    requires q < |flat| && flat[q] == Int(|row|) && flat[q + 1..] == Cells(row) + rest
    ensures RowAt(flat, q, row) && flat[q + 1 + 2 * |row|..] == rest
  {
    CellsAt(row);
    var cells := flat[q + 1..];
    forall j | 0 <= j < |row|
      ensures flat[q + 1 + 2 * j] == Text(row[j].name) && flat[q + 2 + 2 * j] == row[j].value
    {
      assert cells[2 * j] == Cells(row)[2 * j] && cells[2 * j + 1] == Cells(row)[2 * j + 1];
    }
    assert flat[q + 1 + 2 * |row|..] == cells[2 * |row|..];
  }

  lemma {:induction false} RowsAreAt(flat: seq<Value>, q: nat, rows: seq<seq<Cell>>, rest: seq<Value>)
    requires q <= |flat| && flat[q..] == EncodeRows(rows) + rest
    ensures RowsAt(flat, q, RowObjects(rows))
    decreases |rows|
  {
    hide RowAt, Cells, RowObject, EncodeRows;
    RowsHead(flat, q, rows, rest);
    if rows != [] {
      RowIsAt(flat, q, rows[0], EncodeRows(rows[1..]) + rest);
      RowAtFits(flat, q, rows[0]);
      RowsAreAt(flat, q + 1 + 2 * |rows[0]|, rows[1..], rest);
      RowsAtStep(flat, q, rows[0], RowObjects(rows[1..]));
      assert RowObjects(rows) == [RowObject(rows[0])] + RowObjects(rows[1..]);
    }
  }

  lemma RowAtFits(flat: seq<Value>, q: nat, row: seq<Cell>)
    requires RowAt(flat, q, row)
    ensures q + 1 + 2 * |row| <= |flat|
  {
  }

  lemma RowsAtStep(flat: seq<Value>, q: nat, row: seq<Cell>, rows: seq<Row>)
    requires RowAt(flat, q, row) && RowsAt(flat, q + 1 + 2 * |row|, rows)
    ensures RowsAt(flat, q, [RowObject(row)] + rows)
  {
    hide RowObject;
    assert ([RowObject(row)] + rows)[1..] == rows;
  }

  lemma TaggedAt(flat: seq<Value>, p: nat, tag: string, value: Option<Value>, rest: seq<Value>)
    requires p <= |flat| && flat[p..] == Tagged(tag, value) + rest && rest != [] && rest[0] != Text(tag)
    ensures p < |flat| && (flat[p] == Text(tag) <==> value.Some?)
    ensures value.Some? ==> p + 2 <= |flat| && flat[p + 1] == value.value && flat[p + 2..] == rest
    ensures value.None? ==> flat[p..] == rest
  {
    var x := flat[p..];
    assert x[0] == flat[p];
    if value.Some? {
      assert x[1] == flat[p + 1] && x[2..] == flat[p + 2..];
    } else {
      assert x == rest;
    }
  }

  lemma CallIsAt(flat: seq<Value>, o: nat, r: Result, rest: seq<Value>)
    requires o <= |flat| && flat[o..] == Encode(r) + rest
    ensures CallAt(flat, o, Delivered(r))
  {
    TagAndBody(r);
    hide Encode, EncodeRows, Tagged, RowObjects, RowsAt;
    assert flat[o..] == [Text(Tag(r))] + (Payload(r) + rest);
    assert flat[o..][0] == flat[o];
    assert flat[o + 1..] == Payload(r) + rest;
    if r.Rows? {
      RowsCallIsAt(flat, o, r, rest);
    } else {
      var n := |Payload(r)|;
      assert n > 0 ==> flat[o + 1] == flat[o + 1..][0];
      assert n > 1 ==> flat[o + 2] == flat[o + 1..][1];
      assert n > 2 ==> flat[o + 3] == flat[o + 1..][2];
    }
  }

  /** Where the rows begin, behind the optional entries. */
  lemma BehindTagged(flat: seq<Value>, o: nat, changes: Option<Value>, rowId: Option<Value>, rows: seq<Value>,
                     ids: seq<Value>)
    returns (p: nat, q: nat)
    requires o < |flat| && flat[o + 1..] == Tagged("changes", changes) + ids && ids == Tagged("insert_id", rowId) + rows
    requires ids != [] && ids[0] != Text("changes") && rows != [] && rows[0] != Text("insert_id")
    ensures o + 1 < |flat| && (flat[o + 1] == Text("changes") <==> changes.Some?)
    ensures p == (if changes.Some? then o + 3 else o + 1) && p < |flat|
    ensures changes.Some? ==> flat[o + 2] == changes.value
    ensures flat[p] == Text("insert_id") <==> rowId.Some?
    ensures q == (if rowId.Some? then p + 2 else p) && q <= |flat| && flat[q..] == rows
    ensures rowId.Some? ==> flat[p + 1] == rowId.value
  {
    hide Tagged;
    TaggedAt(flat, o + 1, "changes", changes, ids);
    p := if changes.Some? then o + 3 else o + 1;
    TaggedAt(flat, p, "insert_id", rowId, rows);
    q := if rowId.Some? then p + 2 else p;
  }

  lemma RowsCallIsAt(flat: seq<Value>, o: nat, r: Result, rest: seq<Value>)
    requires r.Rows? && o < |flat| && flat[o + 1..] == Payload(r) + rest
    ensures RowsCallAt(flat, o, RowObjects(r.rows), if r.changes.Some? then r.changes else Some(Int(0)), r.rowId)
  {
    var rows := EncodeRows(r.rows) + rest;
    var ids := Tagged("insert_id", r.rowId) + rows;
    OkRowsShape(r, rest);
    hide EncodeRows, Tagged, RowObjects, RowsAt, Payload;
    var p, q := BehindTagged(flat, o, r.changes, r.rowId, rows, ids);
    RowsAreAt(flat, q, r.rows, rest);
  }

  lemma {:induction false} EncodeSplit(rs: seq<Result>, i: nat)
    requires i <= |rs|
    ensures EncodeAll(rs) == EncodeAll(rs[..i]) + EncodeAll(rs[i..])
  {
    hide Encode;
    if i == 0 {
      assert rs[0..] == rs;
    } else {
      EncodeSplit(rs[1..], i - 1);
      assert rs[1..][..i - 1] == rs[..i][1..] && rs[1..][i - 1..] == rs[i..];
    }
  }

  /** Result `i` begins where the results before it end. */
  lemma ReplyLaidOut(rs: seq<Result>, i: nat)
    requires i < |rs|
    ensures CallAt(EncodeAll(rs), |EncodeAll(rs[..i])|, Delivered(rs[i]))
  {
    hide Encode, Delivered, CallAt;
    EncodeSplit(rs, i);
    var flat, o := EncodeAll(rs), |EncodeAll(rs[..i])|;
    assert flat[o..] == EncodeAll(rs[i..]);
    assert rs[i..][0] == rs[i] && rs[i..][1..] == rs[i + 1..];
    CallIsAt(flat, o, rs[i], EncodeAll(rs[i + 1..]));
  }

  /** The reply parser: for every list of results, one handler call per statement, in order, whatever the column names
      and cell values are.  The data are the original ones, and a row is an object made of its columns. */
  method ParseReply(result: seq<Value>, ghost rs: seq<Result>) returns (calls: seq<(nat, HandlerCall)>)
    requires result == EncodeAll(rs)
    ensures |calls| == |rs| && forall i :: 0 <= i < |rs| ==> calls[i] == (i, Delivered(rs[i]))
    ensures forall i :: 0 <= i < |rs| ==> CallAt(result, |EncodeAll(rs[..i])|, calls[i].1)
  {
    hide Encode, Delivered, CallAt;
    calls := [];
    var i: nat, ri: nat := 0, 0;
    assert rs[0..] == rs && result[0..] == result;
    while ri < |result|
      invariant i == |calls| <= |rs| && ri <= |result| && result[ri..] == EncodeAll(rs[i..])
      invariant forall k :: 0 <= k < i ==> calls[k] == (k, Delivered(rs[k]))
      decreases |rs| - i
    {
      assert rs[i..] != [];
      ghost var r := rs[i];
      assert rs[i..][0] == r && rs[i..][1..] == rs[i + 1..];
      var call;
      call, ri := ParseOne(result, ri, r, EncodeAll(rs[i + 1..]));
      calls := calls + [(i, call)];
      i := i + 1;
    }
    EmptyEncoding(rs[i..]);
    forall k | 0 <= k < |rs| ensures CallAt(result, |EncodeAll(rs[..k])|, calls[k].1) {
      ReplyLaidOut(rs, k);
    }
  }

  lemma EmptyEncoding(rs: seq<Result>)
    requires EncodeAll(rs) == []
    ensures rs == []
  {
    if rs != [] {
      TagAndBody(rs[0]);
    }
  }

  /** The entries that follow the tag of an encoded result. */
  function Payload(r: Result): seq<Value> {
    match r
    case Done => []
    case Changed(rowsAffected, insertId) => [rowsAffected, insertId]
    case Rows(changes, rowId, rows) => Tagged("changes", changes) + (Tagged("insert_id", rowId) + EncodeRows(rows))
    case Failed(code, sqliteCode, message) => [code, sqliteCode, message]
  }

  function Tag(r: Result): string {
    match r
    case Done => "ok"
    case Changed(_, _) => "ch2"
    case Rows(_, _, _) => "okrows"
    case Failed(_, _, _) => "error"
  }

  lemma TagAndBody(r: Result)
    ensures Encode(r) == [Text(Tag(r))] + Payload(r)
  {
    hide EncodeRows, Tagged;
    if r.Rows? {
      var c, i, e := Tagged("changes", r.changes), Tagged("insert_id", r.rowId), EncodeRows(r.rows);
      assert [Text("okrows")] + c + i + e == [Text("okrows")] + (c + (i + e));
    }
  }

  /** One result. */
  method ParseOne(result: seq<Value>, start: nat, ghost r: Result, ghost rest: seq<Value>)
    returns (call: HandlerCall, ri: nat)
    requires start <= |result| && result[start..] == Encode(r) + rest
    ensures call == Delivered(r) && ri <= |result| && result[ri..] == rest
  {
    TagAndBody(r);
    hide Encode, EncodeRows, Tagged, RowObjects;
    assert result[start..] == [Text(Tag(r))] + (Payload(r) + rest);
    assert result[start..][0] == result[start] && result[start..][1..] == result[start + 1..];
    ri := start + 1;
    var tag := result[start];
    if tag == Text("ok") {
      call := Success([], None, None);
    } else if tag == Text("ch2") {
      assert result[ri..][0] == result[ri] && result[ri..][1] == result[ri + 1]
        && result[ri..][2..] == result[ri + 2..];
      call := Success([], Some(result[ri]), Some(result[ri + 1]));
      ri := ri + 2;
    } else if tag == Text("okrows") {
      call, ri := ParseOkRows(result, ri, r, rest);
    } else {
      assert result[ri..][0] == result[ri] && result[ri..][1] == result[ri + 1] && result[ri..][2] == result[ri + 2];
      assert result[ri..][3..] == result[ri + 3..];
      call := Failure(result[ri], result[ri + 1], result[ri + 2]);
      ri := ri + 3;
    }
  }

  method ParseOkRows(result: seq<Value>, start: nat, ghost r: Result, ghost rest: seq<Value>)
    returns (call: HandlerCall, ri: nat)
    requires r.Rows? && start <= |result| && result[start..] == Payload(r) + rest
    ensures call == Delivered(r) && ri <= |result| && result[ri..] == rest
  {
    ghost var rows := EncodeRows(r.rows) + rest;
    ghost var ids := Tagged("insert_id", r.rowId) + rows;
    OkRowsShape(r, rest);
    hide EncodeRows, Tagged, RowObjects, Payload;
    var changes, insertId, objects;
    changes, ri := ParseTagged(result, start, "changes", r.changes, ids);
    insertId, ri := ParseTagged(result, ri, "insert_id", r.rowId, rows);
    objects, ri := ParseRows(result, ri, r.rows, rest);
    call := Success(objects, if changes.Some? then changes else Some(Int(0)), insertId);
  }

  /** The optional entries cannot be mistaken for what follows them. */
  lemma OkRowsShape(r: Result, rest: seq<Value>)
    requires r.Rows?
    ensures var rows := EncodeRows(r.rows) + rest; var ids := Tagged("insert_id", r.rowId) + rows;
            && Payload(r) + rest == Tagged("changes", r.changes) + ids
            && ids != [] && ids[0] != Text("changes") && rows != [] && rows[0] != Text("insert_id")
  {
    RowsNotTagged(r.rows, rest);
    NotChanges(r.rowId, EncodeRows(r.rows) + rest);
    hide EncodeRows, Tagged;
    var ids := Tagged("insert_id", r.rowId) + (EncodeRows(r.rows) + rest);
    assert Payload(r) + rest == Tagged("changes", r.changes) + ids;
  }

  lemma NotChanges(rowId: Option<Value>, rest: seq<Value>)
    requires rest != [] && rest[0] != Text("changes")
    ensures var ids := Tagged("insert_id", rowId) + rest; ids != [] && ids[0] != Text("changes")
  {
  }

  lemma RowsNotTagged(rows: seq<seq<Cell>>, rest: seq<Value>)
    ensures EncodeRows(rows) != []
    ensures var head := (EncodeRows(rows) + rest)[0]; head != Text("changes") && head != Text("insert_id")
  {
  }

  // ---- the reply format is a prefix code

  lemma {:induction false} CellsUnique(a: seq<Cell>, b: seq<Cell>, ta: seq<Value>, tb: seq<Value>)
    requires |a| == |b| && Cells(a) + ta == Cells(b) + tb
    ensures a == b && ta == tb
    decreases |a|
  {
    if a == [] {
      assert ta == Cells(a) + ta && tb == Cells(b) + tb;
    } else {
      var x, y := Cells(a) + ta, Cells(b) + tb;
      assert x[0] == Text(a[0].name) && x[1] == a[0].value && x[2..] == Cells(a[1..]) + ta;
      assert y[0] == Text(b[0].name) && y[1] == b[0].value && y[2..] == Cells(b[1..]) + tb;
      CellsUnique(a[1..], b[1..], ta, tb);
      assert a == [a[0]] + a[1..] && b == [b[0]] + b[1..];
    }
  }

  lemma {:induction false} RowsUnique(a: seq<seq<Cell>>, b: seq<seq<Cell>>, ta: seq<Value>, tb: seq<Value>)
    requires EncodeRows(a) + ta == EncodeRows(b) + tb
    ensures a == b && ta == tb
    decreases |a|
  {
    var x := EncodeRows(a) + ta;
    assert x[0..] == x;
    RowsHead(x, 0, a, ta);
    RowsHead(x, 0, b, tb);
    if a != [] {
      CellsUnique(a[0], b[0], EncodeRows(a[1..]) + ta, EncodeRows(b[1..]) + tb);
      RowsUnique(a[1..], b[1..], ta, tb);
      assert a == [a[0]] + a[1..] && b == [b[0]] + b[1..];
    }
  }

  lemma TaggedUnique(tag: string, v: Option<Value>, w: Option<Value>, tv: seq<Value>, tw: seq<Value>)
    requires Tagged(tag, v) + tv == Tagged(tag, w) + tw
    requires tv != [] && tw != [] && tv[0] != Text(tag) && tw[0] != Text(tag)
    ensures v == w && tv == tw
  {
    var x, y := Tagged(tag, v) + tv, Tagged(tag, w) + tw;
    if v.Some? && w.Some? {
      assert x[1] == v.value && x[2..] == tv && y[1] == w.value && y[2..] == tw;
    } else {
      assert x[0] == (if v.Some? then Text(tag) else tv[0]) && y[0] == (if w.Some? then Text(tag) else tw[0]);
      assert tv == x && tw == y;
    }
  }

  lemma BodyUnique(r: Result, q: Result, tr: seq<Value>, tq: seq<Value>)
    requires Tag(r) == Tag(q) && Payload(r) + tr == Payload(q) + tq
    ensures r == q && tr == tq
  {
    match r
    case Done => assert tr == Payload(r) + tr && tq == Payload(q) + tq;
    case Changed(a, i) => FixedBody(r, q, tr, tq, 2);
    case Failed(c, s, m) => FixedBody(r, q, tr, tq, 3);
    case Rows(changes, rowId, rows) =>
      var rr, rq := EncodeRows(r.rows) + tr, EncodeRows(q.rows) + tq;
      RowsNotTagged(r.rows, tr);
      RowsNotTagged(q.rows, tq);
      NotChanges(r.rowId, rr);
      NotChanges(q.rowId, rq);
      OkRowsUnique(r, q, tr, tq, rr, rq);
  }

  lemma OkRowsUnique(r: Result, q: Result, tr: seq<Value>, tq: seq<Value>, rr: seq<Value>, rq: seq<Value>)
    requires r.Rows? && q.Rows? && Payload(r) + tr == Payload(q) + tq
    requires rr == EncodeRows(r.rows) + tr && rq == EncodeRows(q.rows) + tq
    requires rr != [] && rq != [] && rr[0] != Text("insert_id") && rq[0] != Text("insert_id")
    requires var ir, iq := Tagged("insert_id", r.rowId) + rr, Tagged("insert_id", q.rowId) + rq;
             ir != [] && iq != [] && ir[0] != Text("changes") && iq[0] != Text("changes")
    ensures r == q && tr == tq
  {
    hide EncodeRows, Tagged;
    var ir, iq := Tagged("insert_id", r.rowId) + rr, Tagged("insert_id", q.rowId) + rq;
    assert Payload(r) + tr == Tagged("changes", r.changes) + ir;
    assert Payload(q) + tq == Tagged("changes", q.changes) + iq;
    TaggedUnique("changes", r.changes, q.changes, ir, iq);
    TaggedUnique("insert_id", r.rowId, q.rowId, rr, rq);
    RowsUnique(r.rows, q.rows, tr, tq);
  }

  lemma FixedBody(r: Result, q: Result, tr: seq<Value>, tq: seq<Value>, n: nat)
    requires |Payload(r)| == |Payload(q)| == n && Payload(r) + tr == Payload(q) + tq
    ensures Payload(r) == Payload(q) && tr == tq
  {
    assert (Payload(r) + tr)[..n] == Payload(r) && (Payload(q) + tq)[..n] == Payload(q);
    assert (Payload(r) + tr)[n..] == tr && (Payload(q) + tq)[n..] == tq;
  }

  lemma EncodeUnique(r: Result, q: Result, tr: seq<Value>, tq: seq<Value>)
    requires Encode(r) + tr == Encode(q) + tq
    ensures r == q && tr == tq
  {
    TagAndBody(r);
    TagAndBody(q);
    hide Encode, Tag, Payload;
    var x, y := Encode(r) + tr, Encode(q) + tq;
    assert x[0] == Text(Tag(r)) && x[1..] == Payload(r) + tr;
    assert y[0] == Text(Tag(q)) && y[1..] == Payload(q) + tq;
    BodyUnique(r, q, tr, tq);
  }

  /** No two lists of results have the same encoding. */
  lemma {:induction false} ReplyUnique(rs: seq<Result>, qs: seq<Result>)
    requires EncodeAll(rs) == EncodeAll(qs)
    ensures rs == qs
    decreases |rs|
  {
    if rs == [] {
      EmptyEncoding(qs);
    } else if qs == [] {
      EmptyEncoding(rs);
    } else {
      hide Encode;
      EncodeUnique(rs[0], qs[0], EncodeAll(rs[1..]), EncodeAll(qs[1..]));
      ReplyUnique(rs[1..], qs[1..]);
      assert rs == [rs[0]] + rs[1..] && qs == [qs[0]] + qs[1..];
    }
  }
}
