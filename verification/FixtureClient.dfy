/**
 The two request/reply clients of `evals/worlds/computer-use.ts`: a table of
 pending requests keyed by fresh ids, and replies, timeouts, exit and closed
 connections that race to settle each of them (JSON-RPC 2.0, sections 4 and 5).
 */
module FixtureClient {
  import opened Basics

  datatype Outcome = Result | Failure | TimedOut | Exited | Closed(conn: nat)
  datatype Settlement = Settlement(id: nat, outcome: Outcome)
  datatype Message = RequestMessage(id: nat) | CancelledMessage(id: nat)

  /** `pending` lists the ids in the order of the table, `timers` those whose timer is
      live; `settled` records every call of a promise's resolve or reject. */
  datatype Client = Client(pending: seq<nat>, timers: set<nat>, lastId: nat, settled: seq<Settlement>, written: seq<Message>)

  const START := Client([], {}, 0, [], [])

  // -------- turns --------

  function Request(c: Client): Client {
    var id := c.lastId + 1;
    c.(lastId := id, pending := c.pending + [id], timers := c.timers + {id}, written := c.written + [RequestMessage(id)])
  }

  function Settle(c: Client, id: nat, outcome: Outcome): Client {
    c.(pending := Remove(c.pending, id), timers := c.timers - {id}, settled := c.settled + [Settlement(id, outcome)])
  }

  /** A parsed line; `id` is `None` when it carries no numeric id, `error` says whether its error field is set. */
  function OnLineTurn(c: Client, id: Option<nat>, error: bool): Client {
    if id.None? || id.value !in c.pending then c else Settle(c, id.value, if error then Failure else Result)
  }

  /** The timer of `id`; the callback does not look whether the id is still in the table. */
  function TimeoutTurn(c: Client, id: nat): Client { Settle(c, id, TimedOut) }

  function SettleAll(ids: seq<nat>, outcome: Outcome): (r: seq<Settlement>)
    ensures |r| == |ids| && forall i :: 0 <= i < |ids| ==> r[i] == Settlement(ids[i], outcome)
  {
    seq(|ids|, i requires 0 <= i < |ids| => Settlement(ids[i], outcome))
  }

  /** Process exit, spawn error, the end of `close`, or a closed connection. */
  function FailAllTurn(c: Client, outcome: Outcome): Client {
    c.(pending := [], timers := c.timers - (set id | id in c.pending), settled := c.settled + SettleAll(c.pending, outcome))
  }

  function CancelPending(c: Client): Client {
    c.(written := c.written + Cancellations(c.pending))
  }

  function Cancellations(ids: seq<nat>): seq<Message> {
    seq(|ids|, i requires 0 <= i < |ids| => CancelledMessage(ids[i]))
  }

  // -------- runs --------

  datatype Event = Ask | Line(id: Option<nat>, error: bool) | Timeout(timer: nat) | Fail(outcome: Outcome) | Cancel

  predicate Enabled(c: Client, e: Event) { e.Timeout? ==> e.timer in c.timers }

  function Next(c: Client, e: Event): Client {
    match e
    case Ask => Request(c)
    case Line(id, error) => OnLineTurn(c, id, error)
    case Timeout(id) => TimeoutTurn(c, id)
    case Fail(outcome) => FailAllTurn(c, outcome)
    case Cancel => CancelPending(c)
  }

  ghost predicate Legal(c: Client, es: seq<Event>)
    decreases |es|
  {
    es == [] || (Enabled(c, es[0]) && Legal(Next(c, es[0]), es[1..]))
  }

  ghost function Run(c: Client, es: seq<Event>): Client
    decreases |es|
  {
    if es == [] then c else Run(Next(c, es[0]), es[1..])
  }

  ghost predicate Increasing(s: seq<nat>) { forall i, j :: 0 <= i < j < |s| ==> s[i] < s[j] }

  predicate SettledId(c: Client, id: nat) { exists i :: 0 <= i < |c.settled| && c.settled[i].id == id }

  /** Every id handed out is either pending, with a live timer, or settled, and settled once. */
  ghost predicate Inv(c: Client) {
    && Increasing(c.pending)
    && (forall id: nat :: id in c.pending <==> 1 <= id <= c.lastId && !SettledId(c, id))
    && (forall id: nat :: SettledId(c, id) ==> 1 <= id <= c.lastId)
    && (forall id: nat :: id in c.timers <==> id in c.pending)
    && (forall i, j :: 0 <= i < j < |c.settled| ==> c.settled[i].id != c.settled[j].id)
  }

  lemma {:induction false} RemoveIncreasing(s: seq<nat>, id: nat)
    requires Increasing(s)
    ensures Increasing(Remove(s, id))
  {
    if s != [] {
      var rest := Remove(s[1..], id);
      RemoveIncreasing(s[1..], id);
      forall i | 0 <= i < |rest| ensures s[0] < rest[i] {
        assert rest[i] in s[1..];
      }
    }
  }

  lemma SettleKeeps(c: Client, id: nat, outcome: Outcome)
    requires Inv(c) && id in c.pending
    ensures Inv(Settle(c, id, outcome))
  {
    var d := Settle(c, id, outcome);
    RemoveIncreasing(c.pending, id);
    assert d.settled[|c.settled|].id == id;
    forall x: nat ensures SettledId(d, x) <==> SettledId(c, x) || x == id {
      if SettledId(c, x) {
        var i :| 0 <= i < |c.settled| && c.settled[i].id == x;
        assert d.settled[i].id == x;
      }
    }
  }

  lemma FailKeeps(c: Client, outcome: Outcome)
    requires Inv(c)
    ensures Inv(FailAllTurn(c, outcome)) && FailAllTurn(c, outcome).pending == []
  {
    var d := FailAllTurn(c, outcome);
    var more := SettleAll(c.pending, outcome);
    forall x: nat ensures SettledId(d, x) <==> SettledId(c, x) || x in c.pending {
      if SettledId(c, x) {
        var i :| 0 <= i < |c.settled| && c.settled[i].id == x;
        assert d.settled[i].id == x;
      }
      if x in c.pending {
        var i :| 0 <= i < |c.pending| && c.pending[i] == x;
        assert d.settled[|c.settled| + i] == more[i];
      }
      if SettledId(d, x) && !SettledId(c, x) {
        var i :| 0 <= i < |d.settled| && d.settled[i].id == x;
        assert i >= |c.settled|;
        assert d.settled[i] == more[i - |c.settled|];
      }
    }
    forall i, j | 0 <= i < j < |d.settled| ensures d.settled[i].id != d.settled[j].id {
      if j >= |c.settled| {
        assert d.settled[j] == more[j - |c.settled|];
        if i >= |c.settled| { assert d.settled[i] == more[i - |c.settled|]; }
        else { assert SettledId(c, c.settled[i].id); }
      }
    }
  }

  lemma RequestKeeps(c: Client)
    requires Inv(c)
    ensures Inv(Request(c))
  {
    var d := Request(c);
    assert forall x: nat :: SettledId(d, x) <==> SettledId(c, x);
    assert forall x :: x in d.pending <==> x in c.pending || x == c.lastId + 1;
    assert forall i :: 0 <= i < |c.pending| ==> c.pending[i] in c.pending;
  }

  lemma StepKeeps(c: Client, e: Event)
    requires Inv(c) && Enabled(c, e)
    ensures Inv(Next(c, e)) && c.settled <= Next(c, e).settled
  {
    match e
    case Ask => RequestKeeps(c);
    case Line(id, error) => if id.Some? && id.value in c.pending { SettleKeeps(c, id.value, if error then Failure else Result); }
    case Timeout(id) => SettleKeeps(c, id, TimedOut);
    case Fail(outcome) => FailKeeps(c, outcome);
    case Cancel =>
      assert forall x: nat :: SettledId(CancelPending(c), x) <==> SettledId(c, x);
  }

  lemma {:induction false} RunKeeps(c: Client, es: seq<Event>)
    requires Inv(c) && Legal(c, es)
    ensures Inv(Run(c, es)) && c.settled <= Run(c, es).settled
    decreases |es|
  {
    if es != [] {
      StepKeeps(c, es[0]);
      RunKeeps(Next(c, es[0]), es[1..]);
    }
  }

  /** Over every run: each id ever handed out is pending with a live timer, or was
      settled once; what was settled stays as it was, whatever arrives later. */
  lemma SettledExactlyOnce(es: seq<Event>, more: seq<Event>)
    requires Legal(START, es) && Legal(Run(START, es), more)
    ensures Inv(Run(START, es))
    ensures Run(START, es).settled <= Run(Run(START, es), more).settled
  {
    RunKeeps(START, es);
    RunKeeps(Run(START, es), more);
  }

  /** What settles a request: a line with its own id and outcome, its own timer, or a failure of all. */
  lemma SettledByItsOwn(es: seq<Event>, e: Event, id: nat)
    requires Legal(START, es) && Enabled(Run(START, es), e)
    requires id in Run(START, es).pending && id !in Next(Run(START, es), e).pending
    ensures var d := Next(Run(START, es), e);
            || (e == Line(Some(id), false) && Settlement(id, Result) in d.settled)
            || (e == Line(Some(id), true) && Settlement(id, Failure) in d.settled)
            || (e == Timeout(id) && Settlement(id, TimedOut) in d.settled)
            || (e.Fail? && Settlement(id, e.outcome) in d.settled)
  {
    var c := Run(START, es);
    RunKeeps(START, es);
    if e.Line? && e.id.Some? { RemoveIncreasing(c.pending, e.id.value); }
    if e.Timeout? { RemoveIncreasing(c.pending, e.timer); }
    if e.Fail? {
      var i :| 0 <= i < |c.pending| && c.pending[i] == id;
      assert FailAllTurn(c, e.outcome).settled[|c.settled| + i] == Settlement(id, e.outcome);
    }
  }

  /** A late or unknown reply changes nothing, and no request waits for ever. */
  lemma LateRepliesIgnored(es: seq<Event>, id: nat, error: bool)
    requires Legal(START, es)
    ensures SettledId(Run(START, es), id) || id == 0 || id > Run(START, es).lastId
            ==> Next(Run(START, es), Line(Some(id), error)) == Run(START, es)
    ensures id in Run(START, es).pending ==>
              Enabled(Run(START, es), Timeout(id)) && id !in Next(Run(START, es), Timeout(id)).pending
  {
    RunKeeps(START, es);
    RemoveIncreasing(Run(START, es).pending, id);
  }

  // -------- what is written --------

  function AskCount(es: seq<Event>): nat
    decreases |es|
  {
    if es == [] then 0 else (if es[0] == Ask then 1 else 0) + AskCount(es[1..])
  }

  /** The ids of the requests among the messages, in order. */
  function RequestIds(messages: seq<Message>): seq<nat> {
    if messages == [] then []
    else
      var last := messages[|messages| - 1];
      RequestIds(messages[..|messages| - 1]) + if last.RequestMessage? then [last.id] else []
  }

  lemma {:induction false} IdsAppend(a: seq<Message>, b: seq<Message>)
    ensures RequestIds(a + b) == RequestIds(a) + RequestIds(b)
  {
    if b == [] {
      assert a + b == a;
    } else {
      assert (a + b)[..|a + b| - 1] == a + b[..|b| - 1];
      IdsAppend(a, b[..|b| - 1]);
    }
  }

  lemma {:induction false} NoRequests(messages: seq<Message>)
    requires forall m :: m in messages ==> m.CancelledMessage?
    ensures RequestIds(messages) == []
  {
    if messages != [] {
      assert messages[|messages| - 1] in messages;
      NoRequests(messages[..|messages| - 1]);
    }
  }

  /** The ids 1, 2, ... that requests get in turn. */
  ghost predicate InTurn(ids: seq<nat>) { forall i :: 0 <= i < |ids| ==> ids[i] == i + 1 }

  lemma StepWrites(c: Client, e: Event)
    requires Enabled(c, e)
    ensures var d := Next(c, e);
            && RequestIds(d.written) == RequestIds(c.written) + (if e == Ask then [c.lastId + 1] else [])
            && d.lastId == c.lastId + if e == Ask then 1 else 0
  {
    var d := Next(c, e);
    match e
    case Ask =>
      assert d.written[..|c.written|] == c.written && d.written[|c.written|].RequestMessage?;
    case Cancel =>
      IdsAppend(c.written, Cancellations(c.pending));
      NoRequests(Cancellations(c.pending));
    case _ =>
  }

  lemma {:induction false} RunWrites(c: Client, es: seq<Event>)
    requires Legal(c, es) && |RequestIds(c.written)| == c.lastId && InTurn(RequestIds(c.written))
    ensures var d := Run(c, es);
            |RequestIds(d.written)| == d.lastId == c.lastId + AskCount(es) && InTurn(RequestIds(d.written))
    decreases |es|
  {
    if es != [] {
      StepWrites(c, es[0]);
      RunWrites(Next(c, es[0]), es[1..]);
    }
  }

  lemma {:induction false} IdIsWritten(messages: seq<Message>, i: nat)
    requires i < |RequestIds(messages)|
    ensures RequestMessage(RequestIds(messages)[i]) in messages
  {
    var n := |messages| - 1;
    assert messages == messages[..n] + [messages[n]];
    if i < |RequestIds(messages[..n])| { IdIsWritten(messages[..n], i); }
  }

  /** Over every run: the requests written are numbered 1, 2, ... in the order in which
      they are made, one for each; so whatever is pending has been written under its own id. */
  lemma WrittenUnderOwnId(es: seq<Event>)
    requires Legal(START, es)
    ensures var c := Run(START, es);
            && |RequestIds(c.written)| == c.lastId == AskCount(es)
            && (forall i :: 0 <= i < c.lastId ==> RequestIds(c.written)[i] == i + 1)
            && forall id :: id in c.pending ==> RequestMessage(id) in c.written
  {
    var c := Run(START, es);
    RunKeeps(START, es);
    RunWrites(START, es);
    forall id | id in c.pending ensures RequestMessage(id) in c.written { IdIsWritten(c.written, id - 1); }
  }

  /** `cancelPending` announces every pending request once, in the order of the table, and does nothing else. */
  lemma CancelAnnouncesAll(c: Client)
    ensures var d := Next(c, Cancel);
            && d == c.(written := d.written) && c.written <= d.written && |d.written| == |c.written| + |c.pending|
            && forall i :: 0 <= i < |c.pending| ==> d.written[|c.written| + i] == CancelledMessage(c.pending[i])
  {
  }

  // -------- the kept end of stderr --------

  const KEPT := 2000

  /** `slice(-2000)` */
  function Tail(s: string): string { if |s| <= KEPT then s else s[|s| - KEPT..] }

  /** What is kept are the last 2000 characters, or everything if there are no more. */
  lemma TailMeans(s: string)
    ensures |Tail(s)| == (if |s| <= 2000 then |s| else 2000) && Tail(s) == s[|s| - |Tail(s)|..]
  {
  }

  /** Cutting after every piece keeps the same text as cutting once at the end. */
  lemma TailStep(s: string, t: string)
    ensures Tail(Tail(s) + t) == Tail(s + t)
  {
  }

  // -------- the loopback client: who may answer, and whose end counts --------

  /** The connections that are open, with whether each has shown the token, and the
      one that was first to show it; from then on no connection is accepted. */
  datatype Native = Native(client: Client, open: map<nat, bool>, socket: Option<nat>)

  const LISTENING := Native(START, map[], None)

  datatype NativeEvent =
    | Connect(conn: nat)
    | FirstLine(conn: nat, tokenMatches: bool)
    | ReplyLine(conn: nat, id: Option<nat>, error: bool)
    | CloseConnection(conn: nat)
    | NativeAsk
    | NativeTimeout(timer: nat)

  predicate NativeEnabled(n: Native, e: NativeEvent) {
    match e
    case Connect(conn) => n.socket.None? && conn !in n.open
    case FirstLine(conn, _) => conn in n.open && !n.open[conn]
    case ReplyLine(conn, _, _) => conn in n.open && n.open[conn]
    case CloseConnection(conn) => conn in n.open
    case NativeAsk => n.socket.Some?
    case NativeTimeout(id) => id in n.client.timers
  }

  function NativeNext(n: Native, e: NativeEvent): Native
    requires NativeEnabled(n, e)
  {
    match e
    case Connect(conn) => n.(open := n.open[conn := false])
    case FirstLine(conn, tokenMatches) =>
      if !tokenMatches then n   // destroyed; the close event follows
      else n.(open := n.open[conn := true], socket := if n.socket.None? then Some(conn) else n.socket)
    case ReplyLine(_, id, error) => n.(client := OnLineTurn(n.client, id, error))
    case CloseConnection(conn) => n.(client := FailAllTurn(n.client, Closed(conn)), open := n.open - {conn})
    case NativeAsk => n.(client := Request(n.client))
    case NativeTimeout(id) => n.(client := TimeoutTurn(n.client, id))
  }

  /** What a connection event means for the table. */
  function Image(e: NativeEvent): seq<Event> {
    match e
    case ReplyLine(_, id, error) => [Line(id, error)]
    case CloseConnection(conn) => [Fail(Closed(conn))]
    case NativeAsk => [Ask]
    case NativeTimeout(id) => [Timeout(id)]
    case _ => []
  }

  ghost predicate NativeLegal(n: Native, es: seq<NativeEvent>)
    decreases |es|
  {
    es == [] || (NativeEnabled(n, es[0]) && NativeLegal(NativeNext(n, es[0]), es[1..]))
  }

  ghost function NativeRun(n: Native, es: seq<NativeEvent>): Native
    requires NativeLegal(n, es)
    decreases |es|
  {
    if es == [] then n else NativeRun(NativeNext(n, es[0]), es[1..])
  }

  /** The loopback client's table goes through a run of the pipe client's table, so all of the above holds of it too. */
  lemma {:induction false} NativeRefines(n: Native, es: seq<NativeEvent>) returns (fs: seq<Event>)
    requires NativeLegal(n, es)
    ensures Legal(n.client, fs) && Run(n.client, fs) == NativeRun(n, es).client
    decreases |es|
  {
    if es == [] { return []; }
    var m := NativeNext(n, es[0]);
    var rest := NativeRefines(m, es[1..]);
    fs := Image(es[0]) + rest;
    assert if Image(es[0]) == [] then fs == rest else fs[1..] == rest;
  }

  // -------- who may answer --------

  /** The connection has shown the token at an earlier step. */
  ghost predicate HasShown(es: seq<NativeEvent>, conn: nat) {
    exists j :: 0 <= j < |es| && es[j] == FirstLine(conn, true)
  }

  lemma {:induction false} OpenHasShown(n: Native, es: seq<NativeEvent>, conn: nat)
    requires NativeLegal(n, es) && conn in NativeRun(n, es).open && NativeRun(n, es).open[conn]
    ensures HasShown(es, conn) || (conn in n.open && n.open[conn])
    decreases |es|
  {
    if es != [] {
      OpenHasShown(NativeNext(n, es[0]), es[1..], conn);
      if j :| 0 <= j < |es[1..]| && es[1..][j] == FirstLine(conn, true) { assert es[j + 1] == FirstLine(conn, true); }
    }
  }

  /** Only lines of connections that have shown the token are taken for replies; other
      lines, whatever they are, settle nothing. */
  lemma RepliesAreAuthenticated(es: seq<NativeEvent>, e: NativeEvent)
    requires NativeLegal(LISTENING, es) && NativeEnabled(NativeRun(LISTENING, es), e)
    ensures e.ReplyLine? ==> HasShown(es, e.conn)
    ensures e.FirstLine? || e.Connect? ==> NativeNext(NativeRun(LISTENING, es), e).client == NativeRun(LISTENING, es).client
  {
    if e.ReplyLine? { OpenHasShown(LISTENING, es, e.conn); }
  }

  // -------- strangers --------

  /** Settled by the close of a connection that is not the client's own. */
  predicate ByStranger(x: Settlement, socket: Option<nat>) { x.outcome.Closed? && socket != Some(x.outcome.conn) }

  ghost predicate StrangerSettled(n: Native) {
    exists i :: 0 <= i < |n.client.settled| && ByStranger(n.client.settled[i], n.socket)
  }

  /** Nothing is asked before there is a connection of one's own. */
  predicate NativeOk(n: Native) {
    n.socket.None? ==> n.client == START
  }

  lemma NativeStep(n: Native, e: NativeEvent)
    requires NativeOk(n) && NativeEnabled(n, e)
    ensures var m := NativeNext(n, e);
            && NativeOk(m) && n.client.settled <= m.client.settled
            && (n.socket.Some? ==> m.socket == n.socket && forall c :: c in m.open ==> c in n.open)
  {
  }

  lemma {:induction false} NativeRunOk(n: Native, es: seq<NativeEvent>)
    requires NativeOk(n) && NativeLegal(n, es)
    ensures NativeOk(NativeRun(n, es)) && n.client.settled <= NativeRun(n, es).client.settled
    ensures n.socket.Some? ==> NativeRun(n, es).socket == n.socket
    decreases |es|
  {
    if es != [] {
      NativeStep(n, es[0]);
      NativeRunOk(NativeNext(n, es[0]), es[1..]);
    }
  }

  /** At some step of the run a connection closes, not the client's own, while something is pending. */
  ghost predicate StrangerCloses(n: Native, es: seq<NativeEvent>)
    requires NativeLegal(n, es)
    decreases |es|
  {
    es != [] &&
    ((es[0].CloseConnection? && n.socket != Some(es[0].conn) && n.client.pending != [])
     || StrangerCloses(NativeNext(n, es[0]), es[1..]))
  }

  lemma StrangerStep(n: Native, e: NativeEvent)
    requires NativeOk(n) && NativeEnabled(n, e)
    ensures StrangerSettled(NativeNext(n, e)) <==>
            StrangerSettled(n) || (e.CloseConnection? && n.socket != Some(e.conn) && n.client.pending != [])
  {
    var m := NativeNext(n, e);
    NativeStep(n, e);
    if n.socket.None? {
      assert m.client.settled == [];
    } else {
      var was, all := n.client.settled, m.client.settled;
      assert forall i :: 0 <= i < |was| ==> all[i] == was[i];
      if i :| 0 <= i < |was| && ByStranger(was[i], n.socket) { assert ByStranger(all[i], m.socket); }
      if e.CloseConnection? && n.client.pending != [] {
        assert all[|was|] == SettleAll(n.client.pending, Closed(e.conn))[0];
      }
      if i :| 0 <= i < |all| && ByStranger(all[i], m.socket) && i >= |was| { LastCause(n, e, i); }
    }
  }

  /** What a step adds to the settlements with the outcome of a close, a close has added. */
  lemma LastCause(n: Native, e: NativeEvent, i: nat)
    requires NativeEnabled(n, e) && |n.client.settled| <= i < |NativeNext(n, e).client.settled|
    requires NativeNext(n, e).client.settled[i].outcome.Closed?
    ensures e.CloseConnection? && n.client.pending != [] && NativeNext(n, e).client.settled[i].outcome == Closed(e.conn)
  {
    if e.CloseConnection? {
      assert NativeNext(n, e).client.settled[i] == SettleAll(n.client.pending, Closed(e.conn))[i - |n.client.settled|];
    }
  }

  /** Over every run: some request is settled by a close that is none of its business if
      and only if a connection other than the client's own closes while something is pending. */
  lemma {:induction false} StrangerSettlesIff(n: Native, es: seq<NativeEvent>)
    requires NativeOk(n) && NativeLegal(n, es)
    ensures StrangerSettled(NativeRun(n, es)) <==> StrangerSettled(n) || StrangerCloses(n, es)
    decreases |es|
  {
    if es != [] {
      NativeStep(n, es[0]);
      StrangerStep(n, es[0]);
      StrangerSettlesIff(NativeNext(n, es[0]), es[1..]);
    }
  }

  /** The client's own connection is the only one, or there is none left. */
  predicate Alone(n: Native) { n.socket.Some? && forall c :: c in n.open ==> n.socket == Some(c) }

  lemma {:induction false} AloneStays(n: Native, es: seq<NativeEvent>)
    requires NativeOk(n) && Alone(n) && NativeLegal(n, es)
    ensures !StrangerCloses(n, es)
    decreases |es|
  {
    if es != [] {
      NativeStep(n, es[0]);
      AloneStays(NativeNext(n, es[0]), es[1..]);
    }
  }

  /** What is settled while no stranger closes is not settled by one. */
  lemma {:induction false} NotByStranger(n: Native, es: seq<NativeEvent>)
    requires NativeOk(n) && n.socket.Some? && NativeLegal(n, es) && !StrangerCloses(n, es)
    ensures var u := NativeRun(n, es);
            forall i :: |n.client.settled| <= i < |u.client.settled| ==> !ByStranger(u.client.settled[i], n.socket)
    decreases |es|
  {
    if es != [] {
      var m, u := NativeNext(n, es[0]), NativeRun(n, es);
      NativeStep(n, es[0]);
      NativeRunOk(m, es[1..]);
      NotByStranger(m, es[1..]);
      forall i | |n.client.settled| <= i < |u.client.settled| ensures !ByStranger(u.client.settled[i], n.socket) {
        if i < |m.client.settled| {
          assert u.client.settled[i] == m.client.settled[i];
          if m.client.settled[i].outcome.Closed? { LastCause(n, es[0], i); }
        }
      }
    }
  }

  /** However the run goes on, this request is not settled by a stranger. */
  ghost predicate Safe(n: Native, id: nat) {
    forall es, i: nat :: NativeLegal(n, es) && SettledAt(NativeRun(n, es), i, id) ==>
      !ByStranger(NativeRun(n, es).client.settled[i], n.socket)
  }

  predicate SettledAt(n: Native, i: nat, id: nat) { i < |n.client.settled| && n.client.settled[i].id == id }

  lemma {:induction false} ListeningKeeps(es: seq<NativeEvent>)
    requires NativeLegal(LISTENING, es)
    ensures NativeOk(NativeRun(LISTENING, es)) && Inv(NativeRun(LISTENING, es).client)
  {
    NativeRunOk(LISTENING, es);
    var fs := NativeRefines(LISTENING, es);
    RunKeeps(START, fs);
  }

  /** Exactly when a request made now is safe from strangers, whatever has happened and
      whatever happens afterwards: when no connection but the client's own is open.
      None can come later. */
  lemma SafeFromStrangersIff(es: seq<NativeEvent>)
    requires NativeLegal(LISTENING, es) && NativeRun(LISTENING, es).socket.Some?
    ensures var n := NativeRun(LISTENING, es);
            var m := NativeNext(n, NativeAsk);
            Safe(m, m.client.lastId) <==> Alone(n)
  {
    var n := NativeRun(LISTENING, es);
    var m := NativeNext(n, NativeAsk);
    ListeningKeeps(es);
    NativeStep(n, NativeAsk);
    if Alone(n) {
      AloneIsSafe(n, m);
    } else {
      var c :| c in n.open && n.socket != Some(c);
      StrangerStrikes(m, c);
    }
  }

  lemma AloneIsSafe(n: Native, m: Native)
    requires NativeOk(n) && Inv(n.client) && Alone(n) && m == NativeNext(n, NativeAsk)
    ensures Safe(m, m.client.lastId)
  {
    NativeStep(n, NativeAsk);
    forall es, i: nat | NativeLegal(m, es) && SettledAt(NativeRun(m, es), i, m.client.lastId)
      ensures !ByStranger(NativeRun(m, es).client.settled[i], m.socket)
    {
      AloneStays(m, es);
      NativeRunOk(m, es);
      NotByStranger(m, es);
      if i < |m.client.settled| { assert SettledId(n.client, n.client.settled[i].id); }
    }
  }

  /** The next thing that happens is that connection `c` closes. */
  lemma StrangerStrikes(m: Native, c: nat)
    requires c in m.open && m.socket != Some(c) && m.client.pending != []
    requires m.client.pending[|m.client.pending| - 1] == m.client.lastId
    ensures !Safe(m, m.client.lastId)
  {
    var es, u := [CloseConnection(c)], NativeNext(m, CloseConnection(c));
    assert es[1..] == [];
    assert NativeLegal(u, []) && NativeRun(u, []) == u;
    assert NativeLegal(m, es) && NativeRun(m, es) == u;
    var i := |m.client.settled| + |m.client.pending| - 1;
    assert u.client.settled[i] == SettleAll(m.client.pending, Closed(c))[|m.client.pending| - 1];
    assert SettledAt(NativeRun(m, es), i, m.client.lastId);
  }

  /** Strangers there are: one that connects before the token is shown, and closes
      while the client's own connection is open, settles its request. */
  lemma StrayCloseSettlesAll(token: nat, stray: nat)
    requires token != stray
    ensures var es := [Connect(token), Connect(stray), FirstLine(token, true), NativeAsk, CloseConnection(stray)];
            NativeLegal(LISTENING, es) && NativeRun(LISTENING, es).client.settled == [Settlement(1, Closed(stray))]
            && token in NativeRun(LISTENING, es).open && NativeRun(LISTENING, es).open[token]
  {
    var n0 := LISTENING;
    var e0, e1, e2, e3, e4 := Connect(token), Connect(stray), FirstLine(token, true), NativeAsk, CloseConnection(stray);
    var n1 := NativeNext(n0, e0);
    var n2 := NativeNext(n1, e1);
    var n3 := NativeNext(n2, e2);
    var n4 := NativeNext(n3, e3);
    var n5 := NativeNext(n4, e4);
    assert n5.client.settled == [Settlement(1, Closed(stray))];
    assert NativeLegal(n5, []) && NativeRun(n5, []) == n5;
    assert [e4][1..] == [] && [e3, e4][1..] == [e4] && [e2, e3, e4][1..] == [e3, e4];
    assert NativeLegal(n4, [e4]) && NativeRun(n4, [e4]) == n5;
    assert NativeLegal(n3, [e3, e4]) && NativeRun(n3, [e3, e4]) == n5;
    assert NativeLegal(n2, [e2, e3, e4]) && NativeRun(n2, [e2, e3, e4]) == n5;
    assert [e1, e2, e3, e4][1..] == [e2, e3, e4];
    assert NativeLegal(n1, [e1, e2, e3, e4]) && NativeRun(n1, [e1, e2, e3, e4]) == n5;
    assert [e0, e1, e2, e3, e4][1..] == [e1, e2, e3, e4];
    assert NativeLegal(n0, [e0, e1, e2, e3, e4]) && NativeRun(n0, [e0, e1, e2, e3, e4]) == n5;
  }

  // -------- the table as an object --------

  class PendingTable {
    var pending: seq<nat>
    var timers: set<nat>
    var lastId: nat
    var written: seq<Message>
    var settled: seq<Settlement>

    constructor ()
      ensures View() == START
    {
      pending, timers, lastId, written, settled := [], {}, 0, [], [];
    }

    ghost function View(): Client
      reads this
    {
      Client(pending, timers, lastId, settled, written)
    }

    method Ask() returns (id: nat)
      modifies this
      ensures View() == Request(old(View())) && id == lastId == old(lastId) + 1
      ensures pending == old(pending) + [id] && timers == old(timers) + {id} && written == old(written) + [RequestMessage(id)]
    {
      lastId := lastId + 1;
      id := lastId;
      timers := timers + {id};
      pending := pending + [id];
      written := written + [RequestMessage(id)];
    }

    method OnLine(id: Option<nat>, error: bool)
      modifies this
      ensures View() == OnLineTurn(old(View()), id, error)
    {
      if id.None? || id.value !in pending { return; }
      pending := Remove(pending, id.value);
      timers := timers - {id.value};
      settled := settled + [Settlement(id.value, if error then Failure else Result)];
    }

    method OnTimeout(id: nat)
      modifies this
      ensures View() == TimeoutTurn(old(View()), id)
    {
      timers := timers - {id};
      pending := Remove(pending, id);
      settled := settled + [Settlement(id, TimedOut)];
    }

    method CancelPending()
      modifies this
      ensures View() == Next(old(View()), Cancel)
    {
      for i := 0 to |pending|
        invariant pending == old(pending) && timers == old(timers) && lastId == old(lastId) && settled == old(settled)
        invariant written == old(written) + Cancellations(pending[..i])
      {
        assert Cancellations(pending[..i + 1]) == Cancellations(pending[..i]) + [CancelledMessage(pending[i])];
        written := written + [CancelledMessage(pending[i])];
      }
      assert pending[..|pending|] == pending;
    }

    /** `fail`: one reject after the other, then the table is cleared. */
    method FailAll(outcome: Outcome)
      modifies this
      ensures View() == FailAllTurn(old(View()), outcome)
    {
      var i := 0;
      while i < |pending|
        invariant i <= |pending| && pending == old(pending) && lastId == old(lastId) && written == old(written)
        invariant settled == old(settled) + SettleAll(pending[..i], outcome)
        invariant timers == old(timers) - (set id | id in pending[..i])
      {
        assert pending[..i + 1] == pending[..i] + [pending[i]];
        assert SettleAll(pending[..i + 1], outcome) == SettleAll(pending[..i], outcome) + [Settlement(pending[i], outcome)];
        timers := timers - {pending[i]};
        settled := settled + [Settlement(pending[i], outcome)];
        i := i + 1;
      }
      assert pending[..i] == pending;
      pending := [];
    }
  }
}
