/** The Android side: the last WHERE clause of an UPDATE or DELETE, its bound parameters, and the batch loop. */
module AndroidBatch {
  import opened Statements

  // ---- the pattern  \s+WHERE\s+(.+)$  in any letter case

  predicate Space(c: char) {
    c == ' ' || c == '\t' || c == '\n' || c == '\r' || c == '\U{000B}' || c == '\U{000C}'
  }

  predicate Terminator(c: char) {
    c == '\n' || c == '\r' || c == '\U{0085}' || c == '\U{2028}' || c == '\U{2029}'
  }

  predicate Spaces(q: string, a: nat, b: nat)
    requires b <= |q|
  {
    forall k: nat :: a <= k < b ==> Space(q[k])
  }

  /** The first line terminator from `g` on, or the end. */
  function LineEnd(q: string, g: nat): (e: nat)
    requires g <= |q|
    ensures g <= e <= |q| && (forall k: nat :: g <= k < e ==> !Terminator(q[k])) && (e < |q| ==> Terminator(q[e]))
    decreases |q| - g
  {
    if g == |q| || Terminator(q[g]) then g else LineEnd(q, g + 1)
  }

  /** `(.+)$` matches at `g`: one line, not empty, and nothing but one final line terminator after it. */
  predicate TailAt(q: string, g: nat)
    requires g <= |q|
  {
    var e := LineEnd(q, g);
    e > g && (e == |q| || e + 1 == |q| || q[e..] == "\r\n")
  }

  /** The pattern matches at `i` with its group starting at `g`. */
  ghost predicate WhereAt(q: string, i: nat, g: nat) {
    exists w: nat :: WhereWord(q, i, w, g)
  }

  predicate WhereWord(q: string, i: nat, w: nat, g: nat) {
    && i < w && w + 5 < g <= |q|
    && Spaces(q, i, w) && Lower(q[w..w + 5]) == "where" && Spaces(q, w + 5, g) && TailAt(q, g)
  }

  function SpaceEnd(q: string, i: nat): (e: nat)
    requires i <= |q|
    ensures i <= e <= |q| && Spaces(q, i, e) && (e < |q| ==> !Space(q[e]))
    decreases |q| - i
  {
    if i < |q| && Space(q[i]) then SpaceEnd(q, i + 1) else i
  }

  /** Backtracking of the second `\s+`: the largest group start in (lo, hi]. */
  function GroupStart(q: string, lo: nat, hi: nat): (r: Option<nat>)
    requires lo <= hi <= |q|
    ensures match r
            case Some(g) => lo < g <= hi && TailAt(q, g) && forall k: nat :: g < k <= hi ==> !TailAt(q, k)
            case None => forall k: nat :: lo < k <= hi ==> !TailAt(q, k)
    decreases hi - lo
  {
    if hi == lo then None else if TailAt(q, hi) then Some(hi) else GroupStart(q, lo, hi - 1)
  }

  function MatchAt(q: string, i: nat): Option<nat>
    requires i <= |q|
  {
    var w := SpaceEnd(q, i);
    if i < w && w + 5 <= |q| && Lower(q[w..w + 5]) == "where" then GroupStart(q, w + 5, SpaceEnd(q, w + 5)) else None
  }

  lemma WordIsNotSpace(q: string, w: nat)
    requires w + 5 <= |q| && Lower(q[w..w + 5]) == "where"
    ensures !Space(q[w])
  {
    assert LowerChar(q[w]) == Lower(q[w..w + 5])[0] == 'w';
  }

  /** The matcher finds exactly the matches of the pattern, with the longest white space before the group. */
  lemma MatchAtIff(q: string, i: nat)
    requires i <= |q|
    ensures match MatchAt(q, i)
            case Some(g) => WhereAt(q, i, g) && i + 7 <= g <= |q| && forall k: nat :: WhereAt(q, i, k) ==> k <= g
            case None => forall k: nat :: !WhereAt(q, i, k)
  {
    var w := SpaceEnd(q, i);
    forall k: nat, v: nat | WhereWord(q, i, v, k) ensures v == w && w + 5 < k <= SpaceEnd(q, w + 5) && TailAt(q, k) {
      WordIsNotSpace(q, v);
      assert Spaces(q, i, w) && Spaces(q, i, v);
    }
    if MatchAt(q, i).Some? {
      assert WhereWord(q, i, w, MatchAt(q, i).value);
    }
  }

  /** `find(pos)`: the leftmost match at or after `pos`, as (start, start of the group). */
  function Find(q: string, pos: nat): Option<(nat, nat)>
    requires pos <= |q|
    decreases |q| - pos
  {
    var m := MatchAt(q, pos);
    if m.Some? then Some((pos, m.value)) else if pos == |q| then None else Find(q, pos + 1)
  }

  /** The search finds the leftmost match from `pos` on, with the longest white space before its group. */
  lemma {:induction false} FindIff(q: string, pos: nat)
    requires pos <= |q|
    ensures match Find(q, pos)
            case Some((i, g)) =>
              && pos <= i && i + 7 <= g <= |q| && WhereAt(q, i, g)
              && (forall j: nat, h: nat :: pos <= j < i ==> !WhereAt(q, j, h))
              && (forall h: nat :: WhereAt(q, i, h) ==> h <= g)
            case None => forall i: nat, g: nat :: i >= pos ==> !WhereAt(q, i, g)
    decreases |q| - pos
  {
    hide MatchAt, WhereAt;
    MatchAtIff(q, pos);
    if MatchAt(q, pos).None? {
      if pos < |q| {
        FindIff(q, pos + 1);
      } else {
        NoMatchAfterEnd(q);
      }
    }
  }

  lemma NoMatchAfterEnd(q: string)
    ensures forall i: nat, g: nat :: i >= |q| ==> !WhereAt(q, i, g)
  {
  }

  function Group(q: string, g: nat): string
    requires g <= |q|
  {
    q[g..LineEnd(q, g)]
  }

  /** The query's last WHERE clause: no further match starts at or after it; or nothing, if there is no match. */
  ghost predicate LastClause(q: string, clause: string) {
    || (clause == "" && forall i: nat, g: nat :: !WhereAt(q, i, g))
    || exists i: nat, g: nat :: WhereAt(q, i, g) && g <= |q| && clause == " WHERE " + Group(q, g)
                                && forall j: nat, h: nat :: WhereAt(q, j, h) ==> j < g
  }

  /** The search loop: it ends because each match moves `pos` forward by at least 7. */
  method LastWhere(q: string) returns (clause: string)
    ensures LastClause(q, clause)
  {
    clause := "";
    var pos := 0;
    ghost var last: Option<(nat, nat)> := None;
    while true
      invariant pos <= |q|
      invariant match last
                case None => clause == "" && pos == 0
                case Some((i, g)) => WhereAt(q, i, g) && g == pos && clause == " WHERE " + Group(q, g)
      decreases |q| - pos
    {
      FindIff(q, pos);
      var m := Find(q, pos);
      if m.None? {
        break;
      }
      clause := " WHERE " + Group(q, m.value.1);
      pos := m.value.1;
      last := m;
    }
  }

  method CountQuestionMarks(s: string) returns (n: nat)
    ensures n == multiset(s)['?']
  {
    n := 0;
    for j := 0 to |s|
      invariant n == multiset(s[..j])['?']
    {
      assert s[..j + 1] == s[..j] + [s[j]];
      if s[j] == '?' {
        n := n + 1;
      }
    }
    assert s[..|s|] == s;
  }

  /** The last `k` parameters; taking more than there are throws. */
  method LastParams(orig: seq<Value>, k: nat) returns (subParams: Option<seq<Value>>)
    ensures subParams == if k <= |orig| then Some(orig[|orig| - k..]) else None
  {
    var startPos: int := |orig| - k;
    var result: seq<Value> := [];
    var j := startPos;
    while j < |orig|
      invariant startPos <= j <= |orig|
      invariant startPos >= 0 ==> result == orig[startPos..j]
      invariant startPos < 0 ==> j == startPos
    {
      if j < 0 {
        return None;
      }
      result := result + [orig[j]];
      j := j + 1;
    }
    if k <= |orig| {
      assert orig[startPos..j] == orig[|orig| - k..];
    }
    return Some(result);
  }

  /** The counting query's clause and parameters: as many parameters as the clause has '?', or an exception. */
  method CountClause(query: string, params: seq<Value>) returns (clause: string, subParams: Option<seq<Value>>)
    ensures LastClause(query, clause)
    ensures var n := multiset(clause)['?'];
            subParams == if n <= |params| then Some(params[|params| - n..]) else None
  {
    clause := LastWhere(query);
    var n := CountQuestionMarks(clause);
    subParams := LastParams(params, n);
  }

  // ---- the batch loop

  datatype QueryType = Update | Insert | Delete | Select | Begin_ | Commit_ | Rollback_ | Other

  function SkipSpace(s: string): string {
    if s != "" && Space(s[0]) then SkipSpace(s[1..]) else s
  }

  function FirstWord(s: string): string {
    if s == "" || Space(s[0]) then "" else [s[0]] + FirstWord(s[1..])
  }

  function GetQueryType(query: string): QueryType {
    var word := Lower(FirstWord(SkipSpace(query)));
    if word == "update" then Update
    else if word == "insert" then Insert
    else if word == "delete" then Delete
    else if word == "select" then Select
    else if word == "begin" then Begin_
    else if word == "commit" then Commit_
    else if word == "rollback" then Rollback_
    else Other
  }

  // ---- the first word, as a span of the query

  /** White space, a word, and white space or the end. */
  predicate WordAt(q: string, a: nat, b: nat) {
    && a < b <= |q| && Spaces(q, 0, a)
    && (forall k :: a <= k < b ==> !Space(q[k]))
    && (b < |q| ==> Space(q[b]))
  }

  /** The first word is this one, in any letter case. */
  ghost predicate FirstWordIs(q: string, word: string) {
    exists a: nat, b: nat :: WordAt(q, a, b) && Spells(q[a..b], word)
  }

  lemma {:induction false} SkipSpaceSpan(s: string)
    ensures |SkipSpace(s)| <= |s| && SkipSpace(s) == s[|s| - |SkipSpace(s)|..] && Spaces(s, 0, |s| - |SkipSpace(s)|)
    ensures SkipSpace(s) != "" ==> !Space(SkipSpace(s)[0])
    decreases |s|
  {
    if s != "" && Space(s[0]) {
      SkipSpaceSpan(s[1..]);
      forall k: nat | k < |s| - |SkipSpace(s)| ensures Space(s[k]) {
        assert k > 0 ==> s[k] == s[1..][k - 1];
      }
    }
  }

  lemma {:induction false} FirstWordSpan(s: string)
    ensures var n := |FirstWord(s)|;
            && n <= |s| && FirstWord(s) == s[..n] && (forall k :: 0 <= k < n ==> !Space(s[k]))
            && (n < |s| ==> Space(s[n]))
    decreases |s|
  {
    if s != "" && !Space(s[0]) {
      FirstWordSpan(s[1..]);
      var n := |FirstWord(s)|;
      assert s[..n] == [s[0]] + s[1..][..n - 1];
      forall k | 0 <= k < n ensures !Space(s[k]) {
        assert k > 0 ==> s[k] == s[1..][k - 1];
      }
    }
  }

  lemma OneWord(q: string, a: nat, b: nat, c: nat, d: nat)
    requires WordAt(q, a, b) && WordAt(q, c, d)
    ensures a == c && b == d
  {
    var x, y := q[a], q[c];
    var v, w := if b < |q| then q[b] else ' ', if d < |q| then q[d] else ' ';
  }

  /** The type of a query says what its first word is. */
  lemma FirstWordIff(q: string, word: string)
    requires word != "" && forall c :: c in word ==> 'a' <= c <= 'z'
    ensures Lower(FirstWord(SkipSpace(q))) == word <==> FirstWordIs(q, word)
  {
    var rest := SkipSpace(q);
    var a := |q| - |rest|;
    var b := a + |FirstWord(rest)|;
    SkipSpaceSpan(q);
    FirstWordSpan(rest);
    LowerSpells(FirstWord(rest), word);
    assert FirstWord(rest) == q[a..b];
    assert forall k :: 0 <= k < |rest| ==> rest[k] == q[a + k];
    if a < b {
      assert WordAt(q, a, b);
    }
    if c: nat, d: nat :| WordAt(q, c, d) && Spells(q[c..d], word) {
      if a < b {
        OneWord(q, a, b, c, d);
      } else {
        NoWord(q);
      }
    }
  }

  /** A query that is white space up to its end has no first word. */
  lemma NoWord(q: string)
    requires Spaces(q, 0, |q|)
    ensures forall c: nat, d: nat :: !WordAt(q, c, d)
  {
    forall c: nat, d: nat ensures !WordAt(q, c, d) {
      var x := if c < |q| then q[c] else ' ';
    }
  }

  lemma QueryTypeIff(q: string)
    ensures GetQueryType(q).Update? <==> FirstWordIs(q, "update")
    ensures GetQueryType(q).Delete? <==> FirstWordIs(q, "delete")
    ensures GetQueryType(q).Insert? <==> FirstWordIs(q, "insert")
    ensures GetQueryType(q).Begin_? <==> FirstWordIs(q, "begin")
    ensures GetQueryType(q).Commit_? <==> FirstWordIs(q, "commit")
    ensures GetQueryType(q).Rollback_? <==> FirstWordIs(q, "rollback")
  {
    hide FirstWordIs, Lower, FirstWord, SkipSpace;
    FirstWordIff(q, "update");
    FirstWordIff(q, "delete");
    FirstWordIff(q, "insert");
    FirstWordIff(q, "begin");
    FirstWordIff(q, "commit");
    FirstWordIff(q, "rollback");
  }

  datatype Ending = Returns | SqlException(message: string) | OtherException(message: string)

  /** How the platform answers one statement's calls. */
  datatype Platform = Platform(
    prepare: Ending,
    update: Ending,
    insert: Ending,
    begin: Ending,
    commit: Ending,
    rollback: Ending,
    rawQuery: Ending)

  /** The calls that can change the database. */
  datatype Operation = DoUpdate | DoInsert | DoBegin | DoCommit | DoRollback | DoRawQuery

  function Answer(p: Platform, op: Operation): Ending {
    match op
    case DoUpdate => p.update
    case DoInsert => p.insert
    case DoBegin => p.begin
    case DoCommit => p.commit
    case DoRollback => p.rollback
    case DoRawQuery => p.rawQuery
  }

  datatype StatementResult = Success(qid: string) | Error(qid: string, message: string)

  /** The operations that have taken effect. */
  function Effective(p: Platform, ops: seq<Operation>): seq<Operation> {
    if ops == [] then [] else
    Effective(p, ops[..|ops| - 1]) + (if Answer(p, ops[|ops| - 1]).Returns? then [ops[|ops| - 1]] else [])
  }

  /** The outcome of one statement: the calls made, and whether success is reported. */
  predicate Gives(result: StatementResult, ops: seq<Operation>, expected: seq<Operation>, success: bool) {
    ops == expected && (result.Success? <==> success)
  }

  /** Without a count of its own, a change is preceded by a counting query with the last WHERE clause. */
  ghost predicate CountsFirst(query: string, params: seq<Value>, p: Platform, result: StatementResult,
                              ops: seq<Operation>) {
    exists clause :: LastClause(query, clause)
                     && if multiset(clause)['?'] <= |params| then Gives(result, ops, [DoRawQuery], p.rawQuery.Returns?)
                        else Gives(result, ops, [], false)
  }

  ghost predicate ChangeGives(params: Option<seq<Value>>, p: Platform, result: StatementResult, ops: seq<Operation>) {
    if !p.prepare.Returns? then Gives(result, ops, [], false)
    else if p.update.OtherException? && params.Some? then
      Gives(result, ops, [DoUpdate, DoRawQuery], p.rawQuery.Returns?)
    else Gives(result, ops, [DoUpdate], p.update.Returns?)
  }

  /** Which calls a statement gets, if its query begins a transaction, and so on, or changes rows. */
  ghost predicate DispatchedFor(begin: bool, commit: bool, rollback: bool, insert: bool, change: bool, query: string,
                                params: Option<seq<Value>>, honeycomb: bool, p: Platform, result: StatementResult,
                                ops: seq<Operation>)
  {
    if begin then Gives(result, ops, [DoBegin], p.begin.Returns?)
    else if commit then Gives(result, ops, [DoCommit], p.commit.Returns?)
    else if rollback then Gives(result, ops, [DoRollback], p.rollback.Returns?)
    else if insert && params.Some? then
      if p.prepare.Returns? then Gives(result, ops, [DoInsert], p.insert.Returns?) else Gives(result, ops, [], false)
    else if change && honeycomb then ChangeGives(params, p, result, ops)
    else if params.None? then Gives(result, ops, [], false)
    else if change then CountsFirst(query, params.value, p, result, ops)
    else Gives(result, ops, [DoRawQuery], p.rawQuery.Returns?)
  }

  /** That is decided by the first word of the query, in any letter case. */
  ghost predicate Dispatched(query: string, params: Option<seq<Value>>, honeycomb: bool, p: Platform,
                             result: StatementResult, ops: seq<Operation>)
  {
    DispatchedFor(FirstWordIs(query, "begin"), FirstWordIs(query, "commit"), FirstWordIs(query, "rollback"),
                  FirstWordIs(query, "insert"), FirstWordIs(query, "update") || FirstWordIs(query, "delete"),
                  query, params, honeycomb, p, result, ops)
  }

  ghost predicate DispatchedAs(t: QueryType, query: string, params: Option<seq<Value>>, honeycomb: bool, p: Platform,
                               result: StatementResult, ops: seq<Operation>)
  {
    DispatchedFor(t.Begin_?, t.Commit_?, t.Rollback_?, t.Insert?, t.Update? || t.Delete?,
                  query, params, honeycomb, p, result, ops)
  }

  lemma DispatchedByWord(query: string, params: Option<seq<Value>>, honeycomb: bool, p: Platform,
                         result: StatementResult, ops: seq<Operation>)
    requires DispatchedAs(GetQueryType(query), query, params, honeycomb, p, result, ops)
    ensures Dispatched(query, params, honeycomb, p, result, ops)
  {
    QueryTypeIff(query);
    hide GetQueryType, FirstWordIs, DispatchedFor;
  }

  /** A change before its raw query: the platform's own count where there is one, else the counting query. */
  method TryChange(query: string, qid: string, params: Option<seq<Value>>, honeycomb: bool, p: Platform)
    returns (result: StatementResult, ops: seq<Operation>, needRawQuery: bool, ended: bool)
    ensures result.qid == qid
    ensures honeycomb ==> ended == !p.prepare.Returns? && ops == (if ended then [] else [DoUpdate])
                          && (result.Success? <==> !ended && p.update.Returns?)
                          && (!ended ==> needRawQuery == p.update.OtherException?)
    ensures !honeycomb ==> ops == [] && result.Error? && needRawQuery
    ensures !honeycomb && params.None? ==> !ended
    ensures !honeycomb && params.Some? ==>
              exists clause :: LastClause(query, clause) && ended == (multiset(clause)['?'] > |params.value|)
  {
    hide LastClause;
    result, ops, needRawQuery, ended := Error(qid, "unknown"), [], true, false;
    if honeycomb {
      if !p.prepare.Returns? {
        result, ended := Error(qid, p.prepare.message), true;
        return;
      }
      ops := [DoUpdate];
      match p.update {
        case Returns => result := Success(qid); needRawQuery := false;
        case SqlException(message) => result := Error(qid, message); needRawQuery := false;
        case OtherException(_) =>
      }
    } else if params.Some? {
      var clause, subParams := CountClause(query, params.value);
      ended := subParams.None?; // the exception ends this statement
      assert LastClause(query, clause);
    }
  }

  /** The calls of one statement. */
  method Dispatch(query: string, qid: string, params: Option<seq<Value>>, honeycomb: bool, p: Platform)
    returns (result: StatementResult, ops: seq<Operation>)
    ensures result.qid == qid && DispatchedAs(GetQueryType(query), query, params, honeycomb, p, result, ops)
  {
    hide GetQueryType, LastClause, Effective;
    ops := [];
    result := Error(qid, "unknown");
    var needRawQuery := true;
    var queryType := GetQueryType(query);
    if queryType.Update? || queryType.Delete? {
      var ended;
      result, ops, needRawQuery, ended := TryChange(query, qid, params, honeycomb, p);
      if ended {
        return;
      }
    }
    if queryType.Insert? && params.Some? {
      needRawQuery := false;
      if !p.prepare.Returns? {
        result := Error(qid, p.prepare.message);
        return;
      }
      ops, result := Try(qid, p, DoInsert);
    }
    if queryType.Begin_? { needRawQuery := false; ops, result := Try(qid, p, DoBegin); }
    if queryType.Commit_? { needRawQuery := false; ops, result := Try(qid, p, DoCommit); }
    if queryType.Rollback_? { needRawQuery := false; ops, result := Try(qid, p, DoRollback); }
    if needRawQuery {
      if params.None? {
        result := Error(qid, "null pointer"); // the parameters are indexed without a check
        return;
      }
      var raw;
      raw, result := Try(qid, p, DoRawQuery);
      ops := ops + raw;
    }
  }

  lemma EffectiveCalls(p: Platform, a: Operation, b: Operation)
    ensures Effective(p, []) == []
    ensures Effective(p, [a]) == if Answer(p, a).Returns? then [a] else []
    ensures Effective(p, [a, b]) == Effective(p, [a]) + Effective(p, [b])
  {
    assert [a][..0] == [] && [b][..0] == [] && [a, b][..1] == [a];
  }

  /** One statement: which calls are made is decided by the first word of the query; success is reported exactly if one
      of them took effect, and never more than one does; a change is tried again, as a raw query, only after an attempt
      that did not take effect. */
  method ExecuteStatement(query: string, qid: string, params: Option<seq<Value>>, honeycomb: bool, p: Platform)
    returns (result: StatementResult, ops: seq<Operation>)
    ensures result.qid == qid
    ensures Dispatched(query, params, honeycomb, p, result, ops)
    ensures result.Success? <==> |Effective(p, ops)| == 1
    ensures |Effective(p, ops)| <= 1 && |ops| <= 2
    ensures |ops| == 2 ==> ops == [DoUpdate, DoRawQuery] && p.update.OtherException?
  {
    result, ops := Dispatch(query, qid, params, honeycomb, p);
    DispatchedByWord(query, params, honeycomb, p, result, ops);
    DispatchedEffective(GetQueryType(query), query, params, honeycomb, p, result, ops);
    hide Dispatched, DispatchedAs, Effective;
  }

  lemma DispatchedEffective(t: QueryType, query: string, params: Option<seq<Value>>, honeycomb: bool, p: Platform,
                            result: StatementResult, ops: seq<Operation>)
    requires DispatchedAs(t, query, params, honeycomb, p, result, ops)
    ensures result.Success? <==> |Effective(p, ops)| == 1
    ensures |Effective(p, ops)| <= 1 && |ops| <= 2
    ensures |ops| == 2 ==> ops == [DoUpdate, DoRawQuery] && p.update.OtherException?
  {
    hide Effective, LastClause;
    if |ops| > 0 {
      var last := ops[|ops| - 1];
      assert ops == [ops[0]] || ops == [ops[0], last];
      EffectiveCalls(p, ops[0], last);
      EffectiveCalls(p, last, last);
    } else {
      EffectiveCalls(p, DoBegin, DoBegin);
    }
  }

  /** One operation: an exception of either kind is reported with its message. */
  method Try(qid: string, p: Platform, op: Operation) returns (ops: seq<Operation>, result: StatementResult)
    ensures ops == [op] && result.qid == qid
    ensures Effective(p, ops) == if Answer(p, op).Returns? then [op] else []
    ensures result == match Answer(p, op)
                      case Returns => Success(qid)
                      case SqlException(m) => Error(qid, m)
                      case OtherException(m) => Error(qid, m)
  {
    ops := [op];
    assert ops[..0] == [];
    match Answer(p, op) {
      case Returns => result := Success(qid);
      case SqlException(message) => result := Error(qid, message);
      case OtherException(message) => result := Error(qid, message);
    }
  }

  /** The batch loop: whatever fails, exactly one result per statement, in order and with the statement's own id. */
  method ExecuteSqlBatch(queries: seq<string>, qids: seq<string>, params: Option<seq<seq<Value>>>, honeycomb: bool,
                         platform: seq<Platform>)
    returns (batchResults: seq<StatementResult>, ops: seq<seq<Operation>>)
    requires |queries| == |qids| == |platform| && (params.Some? ==> |params.value| == |queries|)
    ensures |batchResults| == |ops| == |queries|
    ensures forall i :: 0 <= i < |queries| ==>
              && batchResults[i].qid == qids[i] && |Effective(platform[i], ops[i])| <= 1
              && (batchResults[i].Success? <==> |Effective(platform[i], ops[i])| == 1)
              && Dispatched(queries[i], if params.Some? then Some(params.value[i]) else None, honeycomb, platform[i],
                            batchResults[i], ops[i])
  {
    hide Dispatched;
    batchResults, ops := [], [];
    for i := 0 to |queries|
      invariant |batchResults| == |ops| == i
      invariant forall k :: 0 <= k < i ==>
                  && batchResults[k].qid == qids[k] && |Effective(platform[k], ops[k])| <= 1
                  && (batchResults[k].Success? <==> |Effective(platform[k], ops[k])| == 1)
                  && Dispatched(queries[k], if params.Some? then Some(params.value[k]) else None, honeycomb,
                       platform[k],
                                batchResults[k], ops[k])
    {
      var own := if params.Some? then Some(params.value[i]) else None;
      var result, done := ExecuteStatement(queries[i], qids[i], own, honeycomb, platform[i]);
      batchResults := batchResults + [result];
      ops := ops + [done];
    }
  }
}
