/** The worker's one-shot callback table: requests get fresh ids, replies are dispatched by id. */
module AqWorker {
  import opened Statements

  const BASE := "!!!"
  const SET_HANDLER_NAME := "!!!sethandlername"

  // ---- callback ids

  function Digit(n: nat): char
    requires n < 10
  {
    "0123456789"[n]
  }

  function Digits(n: nat): (s: string)
    ensures s != [] && '.' !in s && '?' !in s
  {
    if n < 10 then [Digit(n)] else Digits(n / 10) + [Digit(n % 10)]
  }

  function Number(s: string): int {
    if s == "" then 0 else 10 * Number(s[..|s| - 1]) + (s[|s| - 1] as int - '0' as int)
  }

  lemma {:induction false} NumberOfDigits(n: nat)
    ensures Number(Digits(n)) == n
  {
    var s := Digits(n);
    if n < 10 {
      assert s[..0] == "";
    } else {
      assert s[..|s| - 1] == Digits(n / 10);
      NumberOfDigits(n / 10);
    }
  }

  /** `aqbasecbprefix + aqcbprefix + '.' + aqcbid`. */
  function CallbackId(prefix: string, n: nat): string {
    BASE + prefix + "." + Digits(n)
  }

  /** Nothing after the dot at `|x|` can begin later than the dot-free end `b`. */
  lemma NoLonger(x: string, a: string, y: string, b: string)
    requires x + "." + a == y + "." + b && '.' !in b
    ensures |b| <= |a|
  {
    var s := x + "." + a;
    assert s[|x|] == '.';
    assert forall i :: |y| < i < |s| ==> s[i] == b[i - |y| - 1] && b[i - |y| - 1] in b;
  }

  /** Ids differ as soon as the counters differ, even if the prefix has been changed in between. */
  lemma IdsAreFresh(p: string, m: nat, q: string, n: nat)
    requires CallbackId(p, m) == CallbackId(q, n)
    ensures m == n
  {
    var a, b := Digits(m), Digits(n);
    NoLonger(BASE + p, a, BASE + q, b);
    NoLonger(BASE + q, b, BASE + p, a);
    var s := CallbackId(p, m);
    assert s[|s| - |a|..] == a && s[|s| - |b|..] == b;
    NumberOfDigits(m);
    NumberOfDigits(n);
  }

  /** The `n`-th request's id, under some prefix. */
  ghost predicate IdOf(id: string, n: nat) {
    exists p :: id == CallbackId(p, n)
  }

  lemma IdFacts(id: string, n: nat)
    requires IdOf(id, n)
    ensures id != SET_HANDLER_NAME && BASE <= id
    ensures forall m: nat :: IdOf(id, m) ==> m == n
  {
    var p :| id == CallbackId(p, n);
    IdIsNotHandlerName(p, n);
    forall m: nat | IdOf(id, m) ensures m == n {
      var q :| id == CallbackId(q, m);
      IdsAreFresh(p, n, q, m);
    }
  }

  lemma IdIsNotHandlerName(p: string, n: nat)
    ensures CallbackId(p, n) != SET_HANDLER_NAME
  {
    var s := CallbackId(p, n);
    assert s[|BASE + p|] == '.';
    assert forall i :: 0 <= i < |SET_HANDLER_NAME| ==> SET_HANDLER_NAME[i] != '.';
  }

  // ---- messages

  /** Up to the first '?', or all of it. */
  function Head(s: string): string {
    if s == "" || s[0] == '?' then "" else [s[0]] + Head(s[1..])
  }

  /** The first two components of `data.split('?')`, if there are two. */
  function Split(data: string): Option<(string, string)> {
    var head := Head(data);
    if |head| < |data| then Some((head, Head(data[|head| + 1..]))) else None
  }

  lemma {:induction false} HeadOf(a: string, rest: string)
    requires '?' !in a && (rest == "" || rest[0] == '?')
    ensures Head(a + rest) == a
    decreases |a|
  {
    if a == "" {
      assert a + rest == rest;
    } else {
      assert (a + rest)[1..] == a[1..] + rest;
      HeadOf(a[1..], rest);
    }
  }

  /** A reply arrives whole when neither the id nor the payload has a '?'. */
  lemma PayloadArrivesWhole(id: string, payload: string)
    requires '?' !in id && '?' !in payload
    ensures Split(id + "?" + payload) == Some((id, payload))
  {
    var data := id + "?" + payload;
    assert data == id + ("?" + payload);
    HeadOf(id, "?" + payload);
    assert data[|id| + 1..] == payload && payload + "" == payload;
    HeadOf(payload, "");
  }

  // ---- the table

  datatype Callback = SetHandlerName | Reply(number: nat)

  /** A callback that has run: whose it was, the id it was called for, the payload, and whether it threw. */
  datatype Called = Called(number: nat, id: string, payload: string, threw: bool)

  datatype Worker = Worker(
    cbmap: map<string, Callback>,
    prefix: string,               // "" while it is not set
    handlerName: string,          // "" while it is not set
    cbid: nat,
    issued: seq<string>,          // the id of every request, in order
    called: seq<Called>,          // history
    named: nat)                   // how often the handler name has been set

  const Initial := Worker(map[SET_HANDLER_NAME := SetHandlerName], "", "", 0, [], [], 0)

  /** What application code does. */
  datatype Action = SetPrefix(prefix: string) | Request

  function Act(w: Worker, a: Action): Worker {
    match a
    case SetPrefix(p) => w.(prefix := p)
    case Request =>
      if w.handlerName == "" || w.prefix == "" then w // throws
      else
        var id := CallbackId(w.prefix, w.cbid + 1);
        w.(cbid := w.cbid + 1, cbmap := w.cbmap[id := Reply(w.cbid + 1)], issued := w.issued + [id])
  }

  function Acts(w: Worker, acts: seq<Action>): Worker
    decreases |acts|
  {
    if acts == [] then w else Acts(Act(w, acts[0]), acts[1..])
  }

  /** The message listener; the callback, if it runs, performs `acts` and may throw. */
  function OnMessage(w: Worker, data: string, acts: seq<Action>, throws: bool): Worker {
    if !(BASE <= data) || Split(data).None? then w else
    var (id, payload) := Split(data).value;
    if id !in w.cbmap then w else
    match w.cbmap[id]
    case SetHandlerName => w.(handlerName := payload, named := w.named + 1, cbmap := w.cbmap - {id})
    case Reply(number) =>
      var w1 := Acts(w.(called := w.called + [Called(number, id, payload, throws)]), acts);
      if throws then w1 else w1.(cbmap := w1.cbmap - {id})
  }

  datatype Event = Do(act: Action) | Message(data: string, acts: seq<Action>, throws: bool)

  function Step(w: Worker, e: Event): Worker {
    match e
    case Do(a) => Act(w, a)
    case Message(data, acts, throws) => OnMessage(w, data, acts, throws)
  }

  function After(events: seq<Event>): Worker
    decreases |events|
  {
    if events == [] then Initial else Step(After(events[..|events| - 1]), events[|events| - 1])
  }

  // ---- what every message sequence keeps

  /** Every id belongs to one request; the table holds ids of their own requests only. */
  ghost predicate TableOk(w: Worker) {
    && |w.issued| == w.cbid
    && (forall i: nat :: i < w.cbid ==> IdOf(w.issued[i], i + 1))
    && (forall id :: id in w.cbmap ==>
          match w.cbmap[id]
          case SetHandlerName => id == SET_HANDLER_NAME
          case Reply(n) => 1 <= n <= w.cbid && w.issued[n - 1] == id)
    && (SET_HANDLER_NAME in w.cbmap <==> w.named == 0) && w.named <= 1
  }

  /** Callbacks ran for their own ids; one that returned is gone from the table and never runs again. */
  predicate HistoryOk(w: Worker) {
    && (forall i: nat :: i < |w.called| ==>
          var c := w.called[i];
          1 <= c.number <= |w.issued| && c.id == w.issued[c.number - 1] && (!c.threw ==> c.id !in w.cbmap))
    && (forall i, j :: 0 <= i < j < |w.called| && w.called[i].number == w.called[j].number ==> w.called[i].threw)
  }

  /** The table without the entries that are being dealt with. */
  function Without(w: Worker, gone: set<string>): Worker {
    w.(cbmap := w.cbmap - gone)
  }

  lemma RequestKeeps(w: Worker, gone: set<string>)
    requires TableOk(w) && HistoryOk(Without(w, gone))
    ensures var w1 := Act(w, Request);
            && TableOk(w1) && HistoryOk(Without(w1, gone))
            && (w1 != w ==> w1.cbid == w.cbid + 1 && |w1.issued| == w1.cbid && w1.issued[w.cbid] !in w.cbmap
                            && w1.cbmap == w.cbmap[w1.issued[w.cbid] := Reply(w.cbid + 1)])
  {
    var id := CallbackId(w.prefix, w.cbid + 1);
    assert IdOf(id, w.cbid + 1);
    hide CallbackId, IdOf;
    IdFacts(id, w.cbid + 1);
    assert forall i: nat :: i < w.cbid ==> w.issued[i] != id;
    IssueKeeps(w, id, gone);
  }

  function Issue(w: Worker, id: string): Worker {
    w.(cbid := w.cbid + 1, cbmap := w.cbmap[id := Reply(w.cbid + 1)], issued := w.issued + [id])
  }

  lemma IssueKeeps(w: Worker, id: string, gone: set<string>)
    requires TableOk(w) && HistoryOk(Without(w, gone))
    requires IdOf(id, w.cbid + 1) && id != SET_HANDLER_NAME && forall i: nat :: i < w.cbid ==> w.issued[i] != id
    ensures TableOk(Issue(w, id)) && HistoryOk(Without(Issue(w, id), gone)) && id !in w.cbmap
  {
    hide IdOf;
    var w1 := Issue(w, id);
    forall i: nat | i < w1.cbid ensures IdOf(w1.issued[i], i + 1) {
      assert i < w.cbid ==> w1.issued[i] == w.issued[i];
    }
    forall i: nat | i < |w1.called|
      ensures var c := w1.called[i]; c.id == w1.issued[c.number - 1] && (!c.threw ==> c.id !in Without(w1, gone).cbmap)
    {
      var c := w.called[i];
      assert c.id == w.issued[c.number - 1] && (!c.threw ==> c.id !in Without(w, gone).cbmap);
    }
  }

  /** Requests have been added; no entry that was there has been touched. */
  predicate Grown(w: Worker, w1: Worker) {
    && w1.called == w.called && w1.named == w.named
    && |w.issued| == w.cbid <= w1.cbid == |w1.issued| && w.issued <= w1.issued
    && (forall id :: id in w.cbmap ==> id in w1.cbmap && w1.cbmap[id] == w.cbmap[id])
    && (forall i: nat :: w.cbid <= i < w1.cbid ==> w1.issued[i] in w1.cbmap && w1.issued[i] !in w.cbmap)
  }

  lemma GrownTwice(w: Worker, w1: Worker, w2: Worker)
    requires Grown(w, w1) && Grown(w1, w2)
    ensures Grown(w, w2)
  {
  }

  lemma ActKeeps(w: Worker, a: Action, gone: set<string>)
    requires TableOk(w) && HistoryOk(Without(w, gone))
    ensures TableOk(Act(w, a)) && HistoryOk(Without(Act(w, a), gone)) && Grown(w, Act(w, a))
  {
    hide CallbackId, IdOf;
    if a.Request? {
      RequestKeeps(w, gone);
    }
  }

  /** Application code keeps the table, and never touches an entry that is already there. */
  lemma {:induction false} ActsKeep(w: Worker, acts: seq<Action>, gone: set<string>)
    requires TableOk(w) && HistoryOk(Without(w, gone))
    ensures TableOk(Acts(w, acts)) && HistoryOk(Without(Acts(w, acts), gone)) && Grown(w, Acts(w, acts))
    decreases |acts|
  {
    hide IdOf, HistoryOk, Act;
    if acts != [] {
      var w1 := Act(w, acts[0]);
      ActKeeps(w, acts[0], gone);
      ActsKeep(w1, acts[1..], gone);
      GrownTwice(w, w1, Acts(w1, acts[1..]));
    }
  }

  /** What the listener takes out of the table: the entry of a callback that returns. */
  function Gone(id: string, threw: bool): set<string> {
    if threw then {} else {id}
  }

  /** The callback registered for `id` runs and is deleted unless it throws. */
  lemma CallbackKeeps(w: Worker, id: string, payload: string, acts: seq<Action>, throws: bool)
    requires TableOk(w) && HistoryOk(w) && id in w.cbmap && w.cbmap[id].Reply?
    ensures var w0 := w.(called := w.called + [Called(w.cbmap[id].number, id, payload, throws)]);
            var w1 := Acts(w0, acts);
            Grown(w0, w1) && TableOk(Without(w1, Gone(id, throws))) && HistoryOk(Without(w1, Gone(id, throws)))
  {
    hide IdOf, Acts, CallbackId;
    RunningKeeps(w, id, payload, throws);
    hide TableOk, HistoryOk;
    var w0 := w.(called := w.called + [Called(w.cbmap[id].number, id, payload, throws)]);
    ActsKeep(w0, acts, Gone(id, throws));
    DeleteKeeps(Acts(w0, acts), id, throws);
  }

  lemma RunningKeeps(w: Worker, id: string, payload: string, throws: bool)
    requires TableOk(w) && HistoryOk(w) && id in w.cbmap && w.cbmap[id].Reply?
    ensures var w0 := w.(called := w.called + [Called(w.cbmap[id].number, id, payload, throws)]);
            TableOk(w0) && HistoryOk(Without(w0, Gone(id, throws))) && id != SET_HANDLER_NAME
  {
    hide IdOf;
    IdFacts(id, w.cbmap[id].number);
  }

  lemma DeleteKeeps(w: Worker, id: string, throws: bool)
    requires TableOk(w) && id != SET_HANDLER_NAME
    ensures TableOk(Without(w, Gone(id, throws)))
  {
    hide IdOf;
    assert Without(w, {}) == w;
  }

  lemma MessageKeeps(w: Worker, data: string, acts: seq<Action>, throws: bool)
    requires TableOk(w) && HistoryOk(w)
    ensures var w1 := OnMessage(w, data, acts, throws); TableOk(w1) && HistoryOk(w1)
  {
    hide IdOf, Acts, Split;
    if BASE <= data && Split(data).Some? {
      var (id, payload) := Split(data).value;
      if id in w.cbmap && w.cbmap[id].Reply? {
        CallbackKeeps(w, id, payload, acts, throws);
        var w1 := Acts(w.(called := w.called + [Called(w.cbmap[id].number, id, payload, throws)]), acts);
        assert Without(w1, {}) == w1;
      }
    }
  }

  /** Over every message sequence, whatever callbacks do, the table and the history agree. */
  lemma {:induction false} Kept(events: seq<Event>)
    ensures TableOk(After(events)) && HistoryOk(After(events))
    decreases |events|
  {
    if events != [] {
      var e := events[|events| - 1];
      var before := events[..|events| - 1];
      Kept(before);
      var w := After(before);
      hide TableOk, HistoryOk, OnMessage, Act;
      match e
      case Do(a) =>
        assert Without(w, {}) == w && Without(Act(w, a), {}) == Act(w, a);
        ActKeeps(w, a, {});
      case Message(data, acts, throws) => MessageKeeps(w, data, acts, throws);
    }
  }

  /** Over every message sequence each callback runs only for its own request's id, and after it has returned never
      again; the handler name is set at most once. */
  lemma NeverAgain(events: seq<Event>)
    ensures var w := After(events);
            && w.named <= 1
            && (forall i, j :: 0 <= i < j < |w.called| && w.called[i].number == w.called[j].number
                 ==> w.called[i].threw)
            && (forall i: nat :: i < |w.called| ==>
                  1 <= w.called[i].number <= |w.issued| && w.called[i].id == w.issued[w.called[i].number - 1])
  {
    Kept(events);
  }

  predicate NothingThrows(events: seq<Event>) {
    forall e :: e in events && e.Message? ==> !e.throws
  }

  lemma {:induction false} ActsCallNothing(w: Worker, acts: seq<Action>)
    ensures Acts(w, acts).called == w.called
    decreases |acts|
  {
    if acts != [] {
      ActsCallNothing(Act(w, acts[0]), acts[1..]);
    }
  }

  lemma {:induction false} NothingThrew(events: seq<Event>, i: nat)
    requires NothingThrows(events) && i < |After(events).called|
    ensures !After(events).called[i].threw
    decreases |events|
  {
    var e := events[|events| - 1];
    var before := events[..|events| - 1];
    assert e in events && forall x :: x in before ==> x in events;
    var w := After(before);
    if e.Message? && Split(e.data).Some? && Split(e.data).value.0 in w.cbmap && w.cbmap[Split(e.data).value.0].Reply? {
      var (id, payload) := Split(e.data).value;
      ActsCallNothing(w.(called := w.called + [Called(w.cbmap[id].number, id, payload, e.throws)]), e.acts);
    }
    if i < |w.called| {
      NothingThrew(before, i);
    }
  }

  /** If callbacks do not throw, each request's callback runs at most once. */
  lemma EachCallbackOnce(events: seq<Event>)
    requires NothingThrows(events)
    ensures var w := After(events);
            forall i, j :: 0 <= i < j < |w.called| ==> w.called[i].number != w.called[j].number
  {
    NeverAgain(events);
    var w := After(events);
    forall i, j | 0 <= i < j < |w.called| ensures w.called[i].number != w.called[j].number {
      NothingThrew(events, i);
    }
  }

  /** A reply runs its callback with the payload; requests issued inside the callback are still registered after it,
      and the callback's own entry stays exactly if the callback throws. */
  lemma ReplyRunsCallback(events: seq<Event>, number: nat, id: string, payload: string, acts: seq<Action>, throws: bool)
    requires '?' !in id && '?' !in payload && id in After(events).cbmap && After(events).cbmap[id] == Reply(number)
    ensures var w := After(events); var w1 := OnMessage(w, id + "?" + payload, acts, throws);
            && w1.called == w.called + [Called(number, id, payload, throws)]
            && (id in w1.cbmap <==> throws)
            && (forall i: nat :: w.cbid <= i < w1.cbid ==> i < |w1.issued| && w1.issued[i] in w1.cbmap)
            && (forall other :: other in w.cbmap && other != id
                 ==> other in w1.cbmap && w1.cbmap[other] == w.cbmap[other])
  {
    Kept(events);
    var w := After(events);
    PayloadArrivesWhole(id, payload);
    StartsWithBase(w, id, payload);
    CallbackKeeps(w, id, payload, acts, throws);
    hide TableOk, HistoryOk, Acts, Split, After;
    var w0 := w.(called := w.called + [Called(number, id, payload, throws)]);
    assert Grown(w0, Acts(w0, acts));
  }

  lemma StartsWithBase(w: Worker, id: string, payload: string)
    requires TableOk(w) && id in w.cbmap
    ensures BASE <= id + "?" + payload
  {
    hide CallbackId, IdOf;
    if w.cbmap[id].Reply? {
      IdFacts(id, w.cbmap[id].number);
    }
  }

  // ---- what requests and messages do, over runs

  /** The next id is not in the table. */
  lemma NextIdIsNew(w: Worker)
    requires TableOk(w)
    ensures "!!!" + w.prefix + "." + Digits(w.cbid + 1) !in w.cbmap
  {
    var id := CallbackId(w.prefix, w.cbid + 1);
    assert IdOf(id, w.cbid + 1);
    IdFacts(id, w.cbid + 1);
    forall other | other in w.cbmap ensures other != id {
      if w.cbmap[other].Reply? {
        assert IdOf(w.issued[w.cbmap[other].number - 1], w.cbmap[other].number);
      }
    }
    hide IdOf;
  }

  lemma AfterOne(events: seq<Event>, e: Event)
    ensures After(events + [e]) == Step(After(events), e)
  {
    assert (events + [e])[..|events|] == events;
  }

  /** As soon as handler name and prefix are there, every request registers its callback under a new id, and a reply to
      that id runs it with the whole payload. */
  lemma RequestIsAnswered(events: seq<Event>, payload: string, acts: seq<Action>, throws: bool)
    requires After(events).handlerName != "" && After(events).prefix != ""
    ensures var w, w1 := After(events), After(events + [Do(Request)]);
            var n := w.cbid + 1; var id := "!!!" + w.prefix + "." + Digits(n);
            && id !in w.cbmap && w1 == w.(cbid := n, cbmap := w.cbmap[id := Reply(n)], issued := w.issued + [id])
            && ('?' !in w.prefix && '?' !in payload ==>
                  After(events + [Do(Request)] + [Message(id + "?" + payload, acts, throws)]).called
                  == w.called + [Called(n, id, payload, throws)])
  {
    var w := After(events);
    var id := "!!!" + w.prefix + "." + Digits(w.cbid + 1);
    Kept(events);
    NextIdIsNew(w);
    AfterOne(events, Do(Request));
    hide TableOk, HistoryOk, OnMessage;
    if '?' !in w.prefix && '?' !in payload {
      AfterOne(events + [Do(Request)], Message(id + "?" + payload, acts, throws));
      ReplyRunsCallback(events + [Do(Request)], w.cbid + 1, id, payload, acts, throws);
    }
  }

  /** A message that is split into this id and something else. */
  predicate Addresses(e: Event, id: string) {
    e.Message? && Split(e.data).Some? && Split(e.data).value.0 == id
  }

  lemma EntryStays(events: seq<Event>, e: Event, id: string)
    requires id in After(events).cbmap && !Addresses(e, id)
    ensures id in After(events + [e]).cbmap && After(events + [e]).cbmap[id] == After(events).cbmap[id]
  {
    Kept(events);
    AfterOne(events, e);
    hide TableOk, HistoryOk, OnMessage, Act, After;
    if e.Do? {
      WithoutNothing(After(events));
      ActKeeps(After(events), e.act, {});
    } else {
      MessageSpares(After(events), e, id);
    }
  }

  lemma MessageSpares(w: Worker, e: Event, id: string)
    requires TableOk(w) && HistoryOk(w) && e.Message? && id in w.cbmap && !Addresses(e, id)
    ensures var w1 := OnMessage(w, e.data, e.acts, e.throws); id in w1.cbmap && w1.cbmap[id] == w.cbmap[id]
  {
    hide TableOk, HistoryOk, Split, Acts;
    if BASE <= e.data && Split(e.data).Some? && Split(e.data).value.0 in w.cbmap {
      var (other, payload) := Split(e.data).value;
      if w.cbmap[other].Reply? {
        CallbackKeeps(w, other, payload, e.acts, e.throws);
      }
    }
  }

  lemma WithoutNothing(w: Worker)
    ensures Without(w, {}) == w
  {
  }

  /** A request's callback waits for its reply, whatever else comes and goes. */
  lemma {:induction false} StillWaits(events: seq<Event>, more: seq<Event>, id: string)
    requires id in After(events).cbmap && forall e :: e in more ==> !Addresses(e, id)
    ensures id in After(events + more).cbmap && After(events + more).cbmap[id] == After(events).cbmap[id]
    decreases |more|
  {
    hide Addresses, After;
    if more == [] {
      assert events + more == events;
    } else {
      var n := |more| - 1;
      StillWaits(events, more[..n], id);
      assert more[n] in more;
      EntryStays(events + more[..n], more[n], id);
      assert events + more == events + more[..n] + [more[n]];
    }
  }

  /** Without a name or a prefix a request changes nothing. */
  lemma RequestRefused(events: seq<Event>)
    requires After(events).handlerName == "" || After(events).prefix == ""
    ensures After(events + [Do(Request)]) == After(events)
  {
    AfterOne(events, Do(Request));
  }

  /** The first message that names the handler sets the name to its payload; later ones do nothing. */
  lemma NameIsSet(events: seq<Event>, payload: string, acts: seq<Action>, throws: bool)
    requires '?' !in payload
    ensures var w, w1 := After(events), After(events + [Message("!!!sethandlername?" + payload, acts, throws)]);
            if w.named == 0 then w1.handlerName == payload && w1.named == 1 && w1.called == w.called
                                 && w1.cbmap == w.cbmap - {"!!!sethandlername"}
            else w1 == w
  {
    var id := SET_HANDLER_NAME;
    var data := id + "?" + payload;
    assert data == "!!!sethandlername?" + payload;
    Kept(events);
    AfterOne(events, Message(data, acts, throws));
    PayloadArrivesWhole(id, payload);
    assert BASE <= data;
    NamesHandler(After(events), data, payload, acts, throws);
  }

  lemma NamesHandler(w: Worker, data: string, payload: string, acts: seq<Action>, throws: bool)
    requires TableOk(w) && BASE <= data && Split(data) == Some((SET_HANDLER_NAME, payload))
    ensures OnMessage(w, data, acts, throws)
            == if w.named == 0 then w.(handlerName := payload, named := 1, cbmap := w.cbmap - {SET_HANDLER_NAME}) else w
  {
    forall n: nat ensures !IdOf(SET_HANDLER_NAME, n) {
      if IdOf(SET_HANDLER_NAME, n) {
        IdFacts(SET_HANDLER_NAME, n);
      }
    }
    hide Split, Acts, IdOf;
  }

  /** Nothing else changes the name, and only the application changes the prefix. */
  lemma NameStays(events: seq<Event>, e: Event)
    ensures After(events).named == 1 ==>
              After(events + [e]).handlerName == After(events).handlerName && After(events + [e]).named == 1
    ensures e == Do(SetPrefix(After(events + [e]).prefix)) || e.Message?
            || After(events + [e]).prefix == After(events).prefix
  {
    Kept(events);
    AfterOne(events, e);
    hide HistoryOk, Split, CallbackId;
    if e.Message? && Split(e.data).Some? && Split(e.data).value.0 in After(events).cbmap {
      var (id, payload) := Split(e.data).value;
      if After(events).cbmap[id].Reply? {
        var entry := Called(After(events).cbmap[id].number, id, payload, e.throws);
        ActsNameNothing(After(events).(called := After(events).called + [entry]), e.acts);
      }
    }
  }

  /** Once set, the name stays, whatever comes later. */
  lemma {:induction false} NameStaysSet(events: seq<Event>, more: seq<Event>)
    requires After(events).named == 1
    ensures After(events + more).handlerName == After(events).handlerName && After(events + more).named == 1
    decreases |more|
  {
    if more == [] {
      assert events + more == events;
    } else {
      var n := |more| - 1;
      NameStaysSet(events, more[..n]);
      NameStays(events + more[..n], more[n]);
      assert events + more == events + more[..n] + [more[n]];
    }
  }

  lemma {:induction false} ActsNameNothing(w: Worker, acts: seq<Action>)
    ensures Acts(w, acts).handlerName == w.handlerName && Acts(w, acts).named == w.named
    decreases |acts|
  {
    if acts != [] {
      ActsNameNothing(Act(w, acts[0]), acts[1..]);
    }
  }

  /** Messages that do not begin with the base prefix, have no '?', or name nobody in the table are ignored. */
  lemma ForeignIgnored(w: Worker, data: string, acts: seq<Action>, throws: bool)
    requires !("!!!" <= data) || '?' !in data
             || forall id, payload :: data == id + "?" + payload && '?' !in id ==> id !in w.cbmap
    ensures OnMessage(w, data, acts, throws) == w
  {
    HeadSplits(data);
    if Split(data).Some? {
      assert data == Head(data) + "?" + data[|Head(data)| + 1..];
    }
  }

  lemma {:induction false} HeadSplits(s: string)
    ensures |Head(s)| <= |s| && '?' !in Head(s) && s[..|Head(s)|] == Head(s)
    ensures |Head(s)| < |s| ==> s[|Head(s)|] == '?'
    decreases |s|
  {
    if s != "" && s[0] != '?' {
      HeadSplits(s[1..]);
    }
  }

  // ---- the worker's globals

  class Globals {
    var cbmap: map<string, Callback>
    var prefix: string
    var handlerName: string
    var cbid: nat
    ghost var issued: seq<string>
    ghost var called: seq<Called>
    ghost var named: nat

    ghost function Model(): Worker
      reads this
    {
      Worker(cbmap, prefix, handlerName, cbid, issued, called, named)
    }

    constructor ()
      ensures Model() == Initial
    {
      cbmap := map[SET_HANDLER_NAME := SetHandlerName];
      prefix, handlerName, cbid := "", "", 0;
      issued, called, named := [], [], 0;
    }

    method SetCallbackPrefix(p: string)
      modifies this
      ensures Model() == Act(old(Model()), SetPrefix(p))
    {
      prefix := p;
    }

    /** `aqrequest`; the flag says that it threw. */
    method MakeRequest() returns (threw: bool)
      modifies this
      ensures Model() == Act(old(Model()), Request) && threw == (old(handlerName) == "" || old(prefix) == "")
      ensures threw ==> Model() == old(Model())
      ensures !threw ==>
                var id := "!!!" + prefix + "." + Digits(cbid);
                && cbid == old(cbid) + 1 && issued == old(issued) + [id] && cbmap == old(cbmap)[id := Reply(cbid)]
                && (old(TableOk(Model())) ==> id !in old(cbmap))
      ensures prefix == old(prefix) && handlerName == old(handlerName) && called == old(called) && named == old(named)
    {
      ghost var w := Model();
      if TableOk(w) {
        NextIdIsNew(w);
      }
      if handlerName == "" || prefix == "" {
        return true;
      }
      cbid := cbid + 1;
      var id := CallbackId(prefix, cbid);
      cbmap := cbmap[id := Reply(cbid)];
      issued := issued + [id];
      return false;
    }

    method Do(a: Action)
      modifies this
      ensures Model() == Act(old(Model()), a)
    {
      match a {
        case SetPrefix(p) => SetCallbackPrefix(p);
        case Request => var _ := MakeRequest();
      }
    }

    method Perform(acts: seq<Action>)
      modifies this
      ensures Model() == Acts(old(Model()), acts)
    {
      for i := 0 to |acts|
        invariant Acts(Model(), acts[i..]) == Acts(old(Model()), acts)
      {
        assert acts[i..][0] == acts[i] && acts[i..][1..] == acts[i + 1..];
        Do(acts[i]);
      }
    }

    method Listen(data: string, acts: seq<Action>, throws: bool)
      modifies this
      ensures Model() == OnMessage(old(Model()), data, acts, throws)
    {
      var components := Split(data);
      if !(BASE <= data) || components.None? {
        return;
      }
      var (id, payload) := components.value;
      if id in cbmap {
        match cbmap[id] {
          case SetHandlerName =>
            handlerName := payload;
            named := named + 1;
          case Reply(number) =>
            called := called + [Called(number, id, payload, throws)];
            Perform(acts);
            if throws {
              return;
            }
        }
        cbmap := cbmap - {id};
      }
    }
  }

  /** A whole run on the worker's globals: they end in the state of the model's run, so the theorems about runs are
      about them. */
  method RunEvents(events: seq<Event>) returns (globals: Globals)
    ensures fresh(globals) && globals.Model() == After(events)
    ensures TableOk(globals.Model()) && HistoryOk(globals.Model())
  {
    hide Act, OnMessage, TableOk, HistoryOk;
    globals := new Globals();
    for i := 0 to |events|
      invariant fresh(globals) && globals.Model() == After(events[..i])
    {
      assert events[..i + 1][..i] == events[..i];
      match events[i] {
        case Do(a) => globals.Do(a);
        case Message(data, acts, throws) => globals.Listen(data, acts, throws);
      }
    }
    assert events[..|events|] == events;
    Kept(events);
  }
}
