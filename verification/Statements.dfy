/** The data a transaction is made of: SQL values, queued statements, and the five
    kinds of request that put a transaction on a database's queue. */
module Statements {

  datatype Option<+T> = None | Some(value: T)

  /** A value in a flat list: JSON null, numbers and strings. */
  datatype Value = Null | Int(n: int) | Float(x: real) | Text(s: string)

  /** One entry of a transaction's `executes` list.  The plugin's own statements carry fixed
      handlers; a statement given by the application has, or lacks, each of its two handlers. */
  datatype Statement =
    | Begin      // no success handler; the error handler throws
    | SelectOne  // no handlers
    | Invalid    // queued by `abort`; no handlers
    | Commit     // both handlers release the lock
    | Rollback   // both handlers release the lock
    | Sql(text: string, params: seq<Value>, onSuccess: bool, onError: bool)

  function SqlText(st: Statement): string {
    match st
    case Begin => "BEGIN"
    case SelectOne => "SELECT 1"
    case Invalid => "INVALID STATEMENT"
    case Commit => "COMMIT"
    case Rollback => "ROLLBACK"
    case Sql(text, _, _, _) => text
  }

  function Params(st: Statement): seq<Value> {
    if st.Sql? then st.params else []
  }

  /** The success handler, or the error handler, is there to be called. */
  predicate Handled(st: Statement, ok: bool) {
    st.Sql? && if ok then st.onSuccess else st.onError
  }

  /** COMMIT and ROLLBACK, the statements whose replies release the lock. */
  predicate Settles(st: Statement) {
    st.Commit? || st.Rollback?
  }

  /** The calls that create a transaction, with the callbacks they were given. */
  datatype Request =
    | Transaction(onSuccess: bool, onError: bool)
    | ReadTransaction(onSuccess: bool, onError: bool)
    | Single(text: string, params: seq<Value>)
    | Batch(items: seq<(string, seq<Value>)>, onSuccess: bool, onError: bool)
    | MultiPart(onError: bool)

  /** `txlock`: the request is wrapped in BEGIN ... COMMIT or ROLLBACK. */
  predicate Locking(r: Request) {
    r.Transaction? || r.Batch? || r.MultiPart?
  }

  /** The transaction body is a function of the application, not one made by the plugin. */
  predicate UserBody(r: Request) {
    r.Transaction? || r.ReadTransaction?
  }

  /** What the constructor (and `beginTransaction`) queue before anything else. */
  function Opening(r: Request): seq<Statement> {
    match r
    case Transaction(_, _) => [Begin]
    case Batch(_, _, _) => [Begin]
    case ReadTransaction(_, _) => [SelectOne]
    case Single(_, _) => [SelectOne]
    case MultiPart(_) => [SelectOne, Begin]
  }

  /** What a body made by the plugin queues when the transaction starts. */
  function PluginBody(r: Request): seq<Statement> {
    match r
    case Single(text, params) => [Sql(text, params, true, true)]
    case Batch(items, _, _) => seq(|items|, i requires 0 <= i < |items| => Sql(items[i].0, items[i].1, false, false))
    case _ => []
  }

  // ---- the pattern that a read transaction refuses

  const SPACES := " \t\n\r\U{000B}\U{000C}\U{00A0}\U{1680}\U{2000}\U{2001}\U{2002}\U{2003}\U{2004}\U{2005}"
                  + "\U{2006}\U{2007}\U{2008}\U{2009}\U{200A}\U{2028}\U{2029}\U{202F}\U{205F}\U{3000}\U{FEFF}"

  const WRITE_VERBS := ["drop", "delete", "insert", "update", "create"]

  predicate IsSpace(c: char) {
    c in SPACES
  }

  function LowerChar(c: char): char {
    if 'A' <= c <= 'Z' then ((c as int) + 32) as char else c
  }

  function Lower(s: string): string {
    seq(|s|, i requires 0 <= i < |s| => LowerChar(s[i]))
  }

  /** The same letter, in either case. */
  predicate Cased(c: char, letter: char) {
    c == letter || ('a' <= letter <= 'z' && c as int + 32 == letter as int)
  }

  predicate Spells(s: string, word: string) {
    |s| == |word| && forall i :: 0 <= i < |s| ==> Cased(s[i], word[i])
  }

  lemma LowerSpells(s: string, word: string)
    requires forall c :: c in word ==> 'a' <= c <= 'z'
    ensures Lower(s) == word <==> Spells(s, word)
  {
    if |s| == |word| {
      forall i | 0 <= i < |s| ensures LowerChar(s[i]) == word[i] <==> Cased(s[i], word[i]) {
        assert word[i] in word;
      }
      assert Lower(s) == word <==> forall i :: 0 <= i < |s| ==> Lower(s)[i] == word[i];
    }
  }

  function SkipSpaces(s: string): string {
    if s != "" && IsSpace(s[0]) then SkipSpaces(s[1..]) else s
  }

  /** `rest` is the verb, in any letter case, followed by a white-space character. */
  predicate StartsWithVerb(rest: string, verb: string) {
    |rest| > |verb| && Lower(rest[..|verb|]) == verb && IsSpace(rest[|verb|])
  }

  predicate Modifies(sql: string) {
    exists verb :: verb in WRITE_VERBS && StartsWithVerb(SkipSpaces(sql), verb)
  }

  /** The white space of the pattern. */
  predicate White(c: char) {
    || c == ' ' || c == '\t' || c == '\n' || c == '\r' || c == '\U{000B}' || c == '\U{000C}'
    || c == '\U{00A0}' || c == '\U{1680}' || '\U{2000}' <= c <= '\U{200A}' || c == '\U{2028}' || c == '\U{2029}'
    || c == '\U{202F}' || c == '\U{205F}' || c == '\U{3000}' || c == '\U{FEFF}'
  }

  /** White space, this verb in any letter case, and one more white-space character. */
  predicate VerbAt(sql: string, a: nat, b: nat, verb: string) {
    a <= b < |sql| && (forall k :: 0 <= k < a ==> White(sql[k])) && Spells(sql[a..b], verb) && White(sql[b])
  }

  /** One of the five verbs. */
  predicate WriteAt(sql: string, a: nat, b: nat) {
    || VerbAt(sql, a, b, "drop") || VerbAt(sql, a, b, "delete") || VerbAt(sql, a, b, "insert")
    || VerbAt(sql, a, b, "update") || VerbAt(sql, a, b, "create")
  }

  lemma SpaceIff(c: char)
    ensures IsSpace(c) <==> White(c)
  {
  }

  lemma {:induction false} SkipsWhite(s: string)
    ensures var r := SkipSpaces(s); var a := |s| - |r|;
            a >= 0 && r == s[a..] && (forall k :: 0 <= k < a ==> White(s[k])) && (r != "" ==> !White(r[0]))
    decreases |s|
  {
    hide White, IsSpace;
    if s != "" {
      SpaceIff(s[0]);
      if IsSpace(s[0]) {
        SkipsWhite(s[1..]);
        forall k | 0 <= k < |s| - |SkipSpaces(s)| ensures White(s[k]) {
          assert k > 0 ==> s[k] == s[1..][k - 1];
        }
      }
    }
  }

  lemma VerbIff(rest: string, verb: string)
    requires forall c :: c in verb ==> 'a' <= c <= 'z'
    ensures StartsWithVerb(rest, verb) <==>
              |rest| > |verb| && Spells(rest[..|verb|], verb) && White(rest[|verb|])
  {
    hide White, IsSpace;
    if |rest| > |verb| {
      LowerSpells(rest[..|verb|], verb);
      SpaceIff(rest[|verb|]);
    }
  }

  lemma LettersAreNotWhite(s: string, verb: string)
    requires verb != "" && Spells(s, verb) && forall c :: c in verb ==> 'a' <= c <= 'z'
    ensures !White(s[0])
  {
    assert verb[0] in verb;
  }

  /** Where a verb can stand. */
  lemma VerbStandsFirst(sql: string, a: nat, b: nat, verb: string)
    requires VerbAt(sql, a, b, verb) && verb != "" && forall c :: c in verb ==> 'a' <= c <= 'z'
    ensures a == |sql| - |SkipSpaces(sql)| && b == a + |verb|
  {
    hide White;
    SkipsWhite(sql);
    LettersAreNotWhite(sql[a..b], verb);
    var rest := SkipSpaces(sql);
    var m := |sql| - |rest|;
    var x, y := if m < |sql| then sql[m] else ' ', if rest != "" then rest[0] else ' ';
  }

  lemma StartsVerbIff(sql: string, verb: string)
    requires verb != "" && forall c :: c in verb ==> 'a' <= c <= 'z'
    ensures StartsWithVerb(SkipSpaces(sql), verb) <==> exists a: nat, b: nat :: VerbAt(sql, a, b, verb)
  {
    hide White, Spells, StartsWithVerb;
    var rest := SkipSpaces(sql);
    SkipsWhite(sql);
    VerbIff(rest, verb);
    var m := |sql| - |rest|;
    if |rest| > |verb| {
      assert rest[..|verb|] == sql[m..m + |verb|] && rest[|verb|] == sql[m + |verb|];
    }
    if StartsWithVerb(rest, verb) {
      assert VerbAt(sql, m, m + |verb|, verb);
    }
    forall a: nat, b: nat | VerbAt(sql, a, b, verb) ensures StartsWithVerb(rest, verb) {
      VerbStandsFirst(sql, a, b, verb);
    }
  }

  /** The refused statements, as texts. */
  lemma ModifiesIff(sql: string)
    ensures Modifies(sql) <==> exists a: nat, b: nat :: WriteAt(sql, a, b)
  {
    hide VerbAt, StartsWithVerb, SkipSpaces;
    StartsVerbIff(sql, "drop");
    StartsVerbIff(sql, "delete");
    StartsVerbIff(sql, "insert");
    StartsVerbIff(sql, "update");
    StartsVerbIff(sql, "create");
    WriteVerbs(SkipSpaces(sql));
    var verbs := WRITE_VERBS;
    forall a: nat, b: nat, verb | verb in verbs && VerbAt(sql, a, b, verb) ensures WriteAt(sql, a, b) {
    }
  }

  lemma WriteVerbs(rest: string)
    ensures (exists verb :: verb in WRITE_VERBS && StartsWithVerb(rest, verb))
            <==> StartsWithVerb(rest, "drop") || StartsWithVerb(rest, "delete") || StartsWithVerb(rest, "insert")
                 || StartsWithVerb(rest, "update") || StartsWithVerb(rest, "create")
  {
    hide StartsWithVerb;
    assert forall verb :: verb in WRITE_VERBS <==> verb in ["drop", "delete", "insert", "update", "create"];
    var verbs := ["drop", "delete", "insert", "update", "create"];
    assert verbs[0] in verbs && verbs[1] in verbs && verbs[2] in verbs && verbs[3] in verbs && verbs[4] in verbs;
  }

  // ---- what a transaction may carry besides its opening

  /** An application statement, or the statement that `abort` adds to a multi-part transaction. */
  predicate Permitted(r: Request, st: Statement) {
    match st
    case Sql(text, _, _, _) => r.ReadTransaction? ==> !Modifies(text)
    case Invalid => r.MultiPart?
    case _ => false
  }

  predicate AllPermitted(r: Request, batch: seq<Statement>) {
    forall st :: st in batch ==> Permitted(r, st)
  }

  /** A transaction's opening followed by permitted statements only. */
  predicate OpensWith(r: Request, batch: seq<Statement>) {
    && Opening(r) <= batch
    && AllPermitted(r, batch[|Opening(r)|..])
  }
}
