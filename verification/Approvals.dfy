/**
 The approval service of `apps/server/src/approvals.ts`.  Requests wait in a
 table keyed by id; a reply or the request's own timer settles each of them.
 Requesters are numbered in the order in which they ask.
 */
module Approvals {
  import opened Basics

  datatype Verdict = Verdict(id: string, allowed: bool, reason: Option<string>)

  datatype Entry = Entry(id: string, requester: nat)

  datatype Settlement = Settlement(requester: nat, verdict: Verdict)

  /** `pending` is the table in its own order; `timers` says for which requesters a
      timer is live and for which id; `settled` records every resolved promise. */
  datatype Service = Service(auto: bool, pending: seq<Entry>, timers: map<nat, string>, asked: nat, settled: seq<Settlement>)

  function Fresh(auto: bool): Service { Service(auto, [], map[], 0, []) }

  // -------- the table: an insertion-ordered map --------

  predicate HasId(pending: seq<Entry>, id: string) { exists i :: 0 <= i < |pending| && pending[i].id == id }

  /** `Map.set`: an id that is already there keeps its place and gets a new value. */
  function Put(pending: seq<Entry>, x: Entry): (r: seq<Entry>)
    ensures !HasId(pending, x.id) ==> r == pending + [x]
  {
    if pending == [] then [x]
    else if pending[0].id == x.id then [x] + pending[1..]
    else [pending[0]] + Put(pending[1..], x)
  }

  /** `Map.delete` */
  function Delete(pending: seq<Entry>, id: string): (r: seq<Entry>)
    ensures forall x :: x in r <==> x in pending && x.id != id
  {
    if pending == [] then []
    else (if pending[0].id == id then [] else [pending[0]]) + Delete(pending[1..], id)
  }

  /** `Map.get` */
  function Get(pending: seq<Entry>, id: string): (r: Option<Entry>)
    ensures r.Some? <==> HasId(pending, id)
    ensures r.Some? ==> r.value in pending && r.value.id == id
  {
    if pending == [] then None
    else if pending[0].id == id then Some(pending[0])
    else
      var r := Get(pending[1..], id);
      assert HasId(pending[1..], id) ==> HasId(pending, id) by {
        if HasId(pending[1..], id) {
          var i :| 0 <= i < |pending[1..]| && pending[1..][i].id == id;
          assert pending[i + 1].id == id;
        }
      }
      assert HasId(pending, id) ==> HasId(pending[1..], id) by {
        if HasId(pending, id) {
          var i :| 0 <= i < |pending| && pending[i].id == id;
          assert pending[1..][i - 1].id == id;
        }
      }
      r
  }

  // -------- turns --------

  const AUTO := Verdict("auto", true, None)

  function Denied(id: string, reason: string): Verdict { Verdict(id, false, Some(reason)) }

  function Answer(id: string, allow: bool): Verdict {
    Verdict(id, allow, if allow then None else Some("denied"))
  }

  function AskTurn(s: Service, id: string): Service {
    var r := s.asked;
    if s.auto then s.(asked := r + 1, settled := s.settled + [Settlement(r, AUTO)])
    else s.(asked := r + 1, pending := Put(s.pending, Entry(id, r)), timers := s.timers[r := id])
  }

  /** A requester's timer fires: whatever the table holds under its id goes. */
  function TimeoutTurn(s: Service, r: nat): Service
    requires r in s.timers
  {
    s.(pending := Delete(s.pending, s.timers[r]), timers := s.timers - {r},
       settled := s.settled + [Settlement(r, Denied(s.timers[r], "timeout"))])
  }

  function RespondTurn(s: Service, id: string, allow: bool): (Service, Option<Verdict>) {
    match Get(s.pending, id)
    case None => (s, None)
    case Some(entry) =>
      (s.(pending := Delete(s.pending, id), timers := s.timers - {entry.requester},
          settled := s.settled + [Settlement(entry.requester, Answer(id, allow))]),
       Some(Answer(id, allow)))
  }

  // -------- runs --------

  datatype Event = Ask(id: string) | Reply(to: string, allow: bool) | Timeout(requester: nat)

  predicate Enabled(s: Service, e: Event) { e.Timeout? ==> e.requester in s.timers }

  function Next(s: Service, e: Event): Service
    requires Enabled(s, e)
  {
    match e
    case Ask(id) => AskTurn(s, id)
    case Reply(id, allow) => RespondTurn(s, id, allow).0
    case Timeout(r) => TimeoutTurn(s, r)
  }

  ghost predicate Legal(s: Service, es: seq<Event>)
    decreases |es|
  {
    es == [] || (Enabled(s, es[0]) && Legal(Next(s, es[0]), es[1..]))
  }

  ghost function Run(s: Service, es: seq<Event>): Service
    requires Legal(s, es)
    decreases |es|
  {
    if es == [] then s else Run(Next(s, es[0]), es[1..])
  }

  ghost predicate DistinctIds(pending: seq<Entry>) {
    forall i, j :: 0 <= i < j < |pending| ==> pending[i].id != pending[j].id
  }

  ghost predicate SettledRequester(s: Service, r: nat) { exists i :: 0 <= i < |s.settled| && s.settled[i].requester == r }

  /** Every requester waits with a live timer, or has been settled once.  What the
      table shows are waiting requesters under their own ids. */
  ghost predicate Inv(s: Service) {
    && (forall r: nat :: r in s.timers <==> r < s.asked && !SettledRequester(s, r))
    && (forall r: nat :: SettledRequester(s, r) ==> r < s.asked)
    && (forall i, j :: 0 <= i < j < |s.settled| ==> s.settled[i].requester != s.settled[j].requester)
    && (forall x :: x in s.pending ==> x.requester in s.timers && s.timers[x.requester] == x.id)
    && DistinctIds(s.pending)
    && (s.auto ==> s.pending == [] && s.timers == map[])
  }

  lemma {:induction false} PutMeans(pending: seq<Entry>, x: Entry)
    requires DistinctIds(pending)
    ensures var r := Put(pending, x);
            && DistinctIds(r)
            && (forall y :: y in r <==> y == x || (y in pending && y.id != x.id))
  {
    if pending != [] {
      assert pending == [pending[0]] + pending[1..];
      assert forall y :: y in pending[1..] ==> y.id != pending[0].id;
      if pending[0].id != x.id {
        PutMeans(pending[1..], x);
        StaysDistinct(pending[0], Put(pending[1..], x));
      }
    }
  }

  lemma StaysDistinct(first: Entry, rest: seq<Entry>)
    requires DistinctIds(rest) && forall y :: y in rest ==> y.id != first.id
    ensures DistinctIds([first] + rest)
  {
  }

  lemma {:induction false} PutHas(pending: seq<Entry>, x: Entry)
    ensures x in Put(pending, x)
  {
    if pending != [] && pending[0].id != x.id { PutHas(pending[1..], x); }
  }

  lemma {:induction false} DeleteDistinct(pending: seq<Entry>, id: string)
    requires DistinctIds(pending)
    ensures DistinctIds(Delete(pending, id))
  {
    if pending != [] {
      DeleteDistinct(pending[1..], id);
      var rest := Delete(pending[1..], id);
      assert forall y :: y in pending[1..] ==> y.id != pending[0].id;
      forall i | 0 <= i < |rest| ensures rest[i].id != pending[0].id { assert rest[i] in pending[1..]; }
    }
  }

  /** Only the requester itself waits under an entry of the table: entries with other ids belong to others. */
  lemma SettleKeeps(s: Service, t: Service, r: nat, id: string, verdict: Verdict)
    requires Inv(s) && r in s.timers
    requires t == s.(pending := Delete(s.pending, id), timers := s.timers - {r}, settled := s.settled + [Settlement(r, verdict)])
    requires forall x :: x in s.pending && x.requester == r ==> x.id == id
    ensures Inv(t)
  {
    DeleteDistinct(s.pending, id);
    assert !s.auto by { assert r in s.timers.Keys; }
    assert t.settled[|s.settled|].requester == r;
    assert forall i :: 0 <= i < |s.settled| ==> SettledRequester(s, s.settled[i].requester);
    forall q: nat ensures SettledRequester(t, q) <==> SettledRequester(s, q) || q == r {
      if SettledRequester(s, q) {
        var i :| 0 <= i < |s.settled| && s.settled[i].requester == q;
        assert t.settled[i].requester == q;
      }
    }
  }

  lemma AskKeeps(s: Service, id: string)
    requires Inv(s)
    ensures Inv(AskTurn(s, id))
  {
    var t := AskTurn(s, id);
    PutMeans(s.pending, Entry(id, s.asked));
    assert forall i :: 0 <= i < |s.settled| ==> SettledRequester(s, s.settled[i].requester);
    forall q: nat ensures SettledRequester(t, q) <==> SettledRequester(s, q) || (s.auto && q == s.asked) {
      if SettledRequester(s, q) {
        var i :| 0 <= i < |s.settled| && s.settled[i].requester == q;
        assert t.settled[i].requester == q;
      }
      if s.auto { assert t.settled[|s.settled|].requester == s.asked; }
    }
  }

  lemma StepKeeps(s: Service, e: Event)
    requires Inv(s) && Enabled(s, e)
    ensures Inv(Next(s, e)) && s.settled <= Next(s, e).settled && Next(s, e).auto == s.auto
  {
    match e
    case Ask(id) => AskKeeps(s, id);
    case Reply(id, allow) =>
      var entry := Get(s.pending, id);
      if entry.Some? {
        assert entry.value in s.pending;
        SettleKeeps(s, Next(s, e), entry.value.requester, id, Answer(id, allow));
      }
    case Timeout(r) => SettleKeeps(s, Next(s, e), r, s.timers[r], Denied(s.timers[r], "timeout"));
  }

  lemma {:induction false} RunKeeps(s: Service, es: seq<Event>)
    requires Inv(s) && Legal(s, es)
    ensures Inv(Run(s, es)) && s.settled <= Run(s, es).settled && Run(s, es).auto == s.auto
    decreases |es|
  {
    if es != [] {
      StepKeeps(s, es[0]);
      RunKeeps(Next(s, es[0]), es[1..]);
    }
  }

  /** Over every run, whatever ids are drawn: each requester waits with a live
      timer or has been settled exactly once, and stays settled as it was. */
  lemma EachSettlesOnce(auto: bool, es: seq<Event>, more: seq<Event>)
    requires Legal(Fresh(auto), es) && Legal(Run(Fresh(auto), es), more)
    ensures Inv(Run(Fresh(auto), es))
    ensures Run(Fresh(auto), es).settled <= Run(Run(Fresh(auto), es), more).settled
  {
    RunKeeps(Fresh(auto), es);
    RunKeeps(Run(Fresh(auto), es), more);
  }

  /** Nothing is allowed but by an allowing reply, or because the service is in auto mode. */
  lemma {:induction false} AllowedOnlyIfSaid(auto: bool, s: Service, es: seq<Event>, i: nat)
    requires Inv(s) && s.auto == auto && Legal(s, es)
    requires |s.settled| <= i < |Run(s, es).settled| && Run(s, es).settled[i].verdict.allowed
    ensures auto || Reply(Run(s, es).settled[i].verdict.id, true) in es
    decreases |es|
  {
    if es != [] {
      var t := Next(s, es[0]);
      StepKeeps(s, es[0]);
      RunKeeps(t, es[1..]);
      if i < |t.settled| {
        assert Run(s, es).settled[i] == t.settled[i];
        if !auto { assert es[0] == Reply(t.settled[i].verdict.id, true); }
      } else {
        AllowedOnlyIfSaid(auto, t, es[1..], i);
      }
    }
  }

  /** `respond` says something exactly when the id is pending, and then says what the waiting requester receives. */
  lemma RespondTellsRequester(auto: bool, es: seq<Event>, id: string, allow: bool)
    requires Legal(Fresh(auto), es)
    ensures var s := Run(Fresh(auto), es);
            var (t, said) := RespondTurn(s, id, allow);
            && (said.Some? <==> HasId(s.pending, id))
            && (said.Some? ==> said.value.id == id && said.value.allowed == allow
                               && (said.value.reason.Some? <==> !allow))
            && (said.Some? ==> exists r: nat :: Entry(id, r) in s.pending && r in s.timers && r !in t.timers
                                                && t.settled == s.settled + [Settlement(r, said.value)])
            && (said.None? ==> t == s)
            && !HasId(t.pending, id)
  {
    var s := Run(Fresh(auto), es);
    RunKeeps(Fresh(auto), es);
    var (t, said) := RespondTurn(s, id, allow);
    if said.Some? {
      var x := Get(s.pending, id).value;
      assert Entry(id, x.requester) == x;
      assert forall y :: y in t.pending ==> y.id != id;
    }
  }

  /** In auto mode every request is allowed at once, in the order in which they are
      made, and nothing is ever pending. */
  lemma {:induction false} AutoAllows(s: Service, es: seq<Event>)
    requires s.auto && s.pending == [] && s.timers == map[] && |s.settled| == s.asked && Legal(s, es)
    requires forall i :: 0 <= i < |s.settled| ==> s.settled[i] == Settlement(i, Verdict("auto", true, None))
    ensures var t := Run(s, es);
            && t.pending == [] && t.timers == map[]
            && |t.settled| == t.asked == s.asked + |AskedIds(es)|
            && forall i :: 0 <= i < |t.settled| ==> t.settled[i] == Settlement(i, Verdict("auto", true, None))
    decreases |es|
  {
    if es != [] { AutoAllows(Next(s, es[0]), es[1..]); }
  }

  lemma AutoFromTheStart(es: seq<Event>)
    requires Legal(Fresh(true), es)
    ensures var t := Run(Fresh(true), es);
            && t.pending == [] && t.timers == map[] && |t.settled| == t.asked == |AskedIds(es)|
            && forall i :: 0 <= i < |t.settled| ==> t.settled[i] == Settlement(i, Verdict("auto", true, None))
  {
    AutoAllows(Fresh(true), es);
  }

  // -------- whose answer it is --------

  function AskedNow(e: Event): seq<string> { if e.Ask? then [e.id] else [] }

  /** The ids asked for, one for each requester in turn. */
  function AskedIds(es: seq<Event>): seq<string>
    decreases |es|
  {
    if es == [] then [] else AskedNow(es[0]) + AskedIds(es[1..])
  }

  predicate AnswerFor(v: Verdict, id: string) {
    v == Answer(id, true) || v == Answer(id, false) || v == Denied(id, "timeout")
  }

  ghost predicate OwnIds(s: Service, ids: seq<string>) {
    && |ids| == s.asked
    && (forall r: nat :: r in s.timers ==> r < |ids| && s.timers[r] == ids[r])
    && (forall i :: 0 <= i < |s.settled| ==>
          s.settled[i].requester < |ids| && AnswerFor(s.settled[i].verdict, ids[s.settled[i].requester]))
  }

  lemma StepOwnIds(s: Service, ids: seq<string>, e: Event)
    requires Inv(s) && !s.auto && OwnIds(s, ids) && Enabled(s, e)
    ensures OwnIds(Next(s, e), ids + AskedNow(e))
  {
    if e.Reply? {
      var entry := Get(s.pending, e.to);
      assert entry.Some? ==> entry.value in s.pending;
    }
  }

  /** Whatever ids are drawn, a requester is only ever told about its own id: that it
      was allowed, denied, or timed out. */
  lemma {:induction false} ToldAboutOwnId(s: Service, ids: seq<string>, es: seq<Event>)
    requires Inv(s) && !s.auto && OwnIds(s, ids) && Legal(s, es)
    ensures OwnIds(Run(s, es), ids + AskedIds(es))
    decreases |es|
  {
    if es == [] {
      assert ids + AskedIds(es) == ids;
    } else {
      StepKeeps(s, es[0]);
      StepOwnIds(s, ids, es[0]);
      ToldAboutOwnId(Next(s, es[0]), ids + AskedNow(es[0]), es[1..]);
      Associate(ids, AskedNow(es[0]), AskedIds(es[1..]));
    }
  }

  /** What each step settles: a request asks and settles nobody, a reply settles the
      requester that its id is pending for, and a timer its own requester, who is told
      about the id it asked for and why. */
  lemma StepSettles(es: seq<Event>, e: Event)
    requires Legal(Fresh(false), es) && Enabled(Run(Fresh(false), es), e)
    ensures var s := Run(Fresh(false), es);
            var t := Next(s, e);
            match e
            case Ask(id) => t.settled == s.settled && t.asked == s.asked + 1 && Entry(id, s.asked) in t.pending
            case Reply(id, allow) =>
              if exists r: nat :: Entry(id, r) in s.pending
              then exists r: nat :: Entry(id, r) in s.pending && t.settled
                     == s.settled + [Settlement(r, Verdict(id, allow, if allow then None else Some("denied")))]
              else t == s
            case Timeout(r) =>
              r < |AskedIds(es)| && t.settled == s.settled + [Settlement(r, Verdict(AskedIds(es)[r], false, Some("timeout")))]
  {
    var s := Run(Fresh(false), es);
    RunKeeps(Fresh(false), es);
    ToldAboutOwnId(Fresh(false), [], es);
    assert [] + AskedIds(es) == AskedIds(es);
    match e
    case Ask(id) => PutMeans(s.pending, Entry(id, s.asked));
    case Reply(id, allow) => ReplySettles(s, id, allow);
    case Timeout(r) =>
  }

  lemma ReplySettles(s: Service, id: string, allow: bool)
    ensures var t := RespondTurn(s, id, allow).0;
            if exists r: nat :: Entry(id, r) in s.pending
            then exists r: nat :: Entry(id, r) in s.pending && t.settled
                   == s.settled + [Settlement(r, Verdict(id, allow, if allow then None else Some("denied")))]
            else t == s
  {
    var entry := Get(s.pending, id);
    if r: nat :| Entry(id, r) in s.pending {
      var i :| 0 <= i < |s.pending| && s.pending[i] == Entry(id, r);
      assert HasId(s.pending, id);
    }
    if entry.Some? { assert Entry(id, entry.value.requester) == entry.value; }
  }

  // -------- what `list` shows --------

  ghost predicate InOrder(pending: seq<Entry>) {
    forall i, j :: 0 <= i < j < |pending| ==> pending[i].requester < pending[j].requester
  }

  ghost predicate Shown(pending: seq<Entry>, r: nat) {
    exists x :: x in pending && x.requester == r
  }

  /** The table is the waiting requesters, all of them, in the order in which they asked. */
  ghost predicate Complete(s: Service) {
    InOrder(s.pending) && forall r: nat :: r in s.timers <==> Shown(s.pending, r)
  }

  lemma {:induction false} DeleteOrdered(pending: seq<Entry>, id: string)
    requires InOrder(pending)
    ensures InOrder(Delete(pending, id))
  {
    if pending != [] {
      DeleteOrdered(pending[1..], id);
      var rest := Delete(pending[1..], id);
      assert forall y :: y in pending[1..] ==> pending[0].requester < y.requester;
      forall i | 0 <= i < |rest| ensures pending[0].requester < rest[i].requester { assert rest[i] in pending[1..]; }
    }
  }

  lemma OneEntryEach(pending: seq<Entry>, x: Entry, y: Entry)
    requires InOrder(pending) && x in pending && y in pending && x.requester == y.requester
    ensures x == y
  {
  }

  lemma OneEntryPerId(pending: seq<Entry>, x: Entry, y: Entry)
    requires DistinctIds(pending) && x in pending && y in pending && x.id == y.id
    ensures x == y
  {
  }

  lemma SettleComplete(s: Service, t: Service, r: nat, id: string)
    requires DistinctIds(s.pending) && Complete(s) && Entry(id, r) in s.pending
    requires t.pending == Delete(s.pending, id) && t.timers == s.timers - {r}
    ensures Complete(t)
  {
    DeleteOrdered(s.pending, id);
    forall q: nat ensures q in t.timers <==> Shown(t.pending, q) {
      if q in t.timers {
        var x :| x in s.pending && x.requester == q;
        if x.id == id { OneEntryPerId(s.pending, x, Entry(id, r)); }
        assert x in t.pending;
      }
      if Shown(t.pending, q) {
        var x :| x in t.pending && x.requester == q;
        if q == r { OneEntryEach(s.pending, x, Entry(id, r)); }
      }
    }
  }

  /** A new request keeps the list complete exactly when its id is not pending:
      a repeated id pushes the earlier requester out of the table. */
  lemma AskKeepsCompleteIff(s: Service, id: string)
    requires Inv(s) && Complete(s) && !s.auto
    ensures Complete(AskTurn(s, id)) <==> !HasId(s.pending, id)
  {
    if HasId(s.pending, id) { RepeatedIdHides(s, id); } else { NewIdShown(s, id); }
  }

  lemma RepeatedIdHides(s: Service, id: string)
    requires Inv(s) && !s.auto && HasId(s.pending, id)
    ensures !Complete(AskTurn(s, id))
  {
    var t := AskTurn(s, id);
    PutMeans(s.pending, Entry(id, s.asked));
    var i :| 0 <= i < |s.pending| && s.pending[i].id == id;
    var lost := s.pending[i];
    assert lost in s.pending && lost.requester in t.timers;
    forall y | y in t.pending ensures y.requester != lost.requester {
      assert y.requester != s.asked ==> s.timers[y.requester] == y.id;
    }
  }

  lemma NewIdShown(s: Service, id: string)
    requires Inv(s) && Complete(s) && !s.auto && !HasId(s.pending, id)
    ensures Complete(AskTurn(s, id))
  {
    var t := AskTurn(s, id);
    var added := Entry(id, s.asked);
    assert t.pending == s.pending + [added];
    forall i | 0 <= i < |s.pending| ensures s.pending[i].requester < s.asked { assert s.pending[i] in s.pending; }
    forall q: nat ensures q in t.timers <==> Shown(t.pending, q) { ShownOn(s.pending, added, q); }
  }

  lemma ShownOn(pending: seq<Entry>, added: Entry, q: nat)
    ensures Shown(pending + [added], q) <==> Shown(pending, q) || q == added.requester
  {
    assert added in pending + [added];
    assert forall x :: x in pending + [added] <==> x in pending || x == added;
    if Shown(pending, q) {
      var x :| x in pending && x.requester == q;
      assert x in pending + [added];
    }
  }

  lemma StepComplete(s: Service, e: Event)
    requires Inv(s) && Complete(s) && Enabled(s, e) && (e.Ask? ==> !HasId(s.pending, e.id))
    ensures Complete(Next(s, e))
  {
    match e
    case Ask(id) => if !s.auto { NewIdShown(s, id); }
    case Reply(id, allow) =>
      var entry := Get(s.pending, id);
      if entry.Some? {
        assert entry.value == Entry(id, entry.value.requester);
        SettleComplete(s, Next(s, e), entry.value.requester, id);
      }
    case Timeout(r) =>
      var x :| x in s.pending && x.requester == r;
      assert x == Entry(s.timers[r], r);
      SettleComplete(s, Next(s, e), r, s.timers[r]);
  }

  lemma {:induction false} DeleteOne(pending: seq<Entry>, id: string)
    requires DistinctIds(pending)
    ensures |Delete(pending, id)| == |pending| - if HasId(pending, id) then 1 else 0
  {
    if pending != [] {
      var rest := pending[1..];
      DeleteOne(rest, id);
      assert HasId(pending, id) <==> pending[0].id == id || HasId(rest, id) by {
        assert forall i :: 0 <= i < |rest| ==> rest[i] == pending[i + 1];
        if HasId(pending, id) && pending[0].id != id {
          var i :| 0 <= i < |pending| && pending[i].id == id;
          assert rest[i - 1].id == id;
        }
      }
      assert forall i :: 0 <= i < |rest| ==> rest[i].id != pending[0].id;
    }
  }

  lemma StepConserves(s: Service, e: Event)
    requires Inv(s) && Complete(s) && Enabled(s, e) && (e.Ask? ==> !HasId(s.pending, e.id))
    ensures var t := Next(s, e); t.asked - |t.pending| - |t.settled| == s.asked - |s.pending| - |s.settled|
  {
    match e
    case Ask(id) =>
    case Reply(id, allow) => DeleteOne(s.pending, id);
    case Timeout(r) =>
      var i :| 0 <= i < |s.pending| && s.pending[i].requester == r;
      assert s.pending[i].id == s.timers[r];
      DeleteOne(s.pending, s.timers[r]);
  }

  /** Every id drawn is new among the pending ones. */
  ghost predicate FreshIds(s: Service, es: seq<Event>)
    requires Legal(s, es)
    decreases |es|
  {
    es == [] || ((es[0].Ask? ==> !HasId(s.pending, es[0].id)) && FreshIds(Next(s, es[0]), es[1..]))
  }

  /** With fresh ids, `list` is at any time all unsettled requests in the order of
      their creation, and every request is either listed or settled. */
  lemma {:induction false} ListIsComplete(s: Service, es: seq<Event>)
    requires Inv(s) && Complete(s) && Legal(s, es) && FreshIds(s, es)
    ensures Inv(Run(s, es)) && Complete(Run(s, es))
    ensures var t := Run(s, es); t.asked - |t.pending| - |t.settled| == s.asked - |s.pending| - |s.settled|
    decreases |es|
  {
    if es != [] {
      StepKeeps(s, es[0]);
      StepComplete(s, es[0]);
      StepConserves(s, es[0]);
      ListIsComplete(Next(s, es[0]), es[1..]);
    }
  }

  /** All of it from the start, in the mode that asks: the list is complete and in
      order, requests are listed or settled, and each was told about its own id. */
  lemma FromTheStart(es: seq<Event>)
    requires Legal(Fresh(false), es) && FreshIds(Fresh(false), es)
    ensures var s := Run(Fresh(false), es);
            && Complete(s)
            && s.asked == |s.pending| + |s.settled| == |AskedIds(es)|
            && forall i :: 0 <= i < |s.settled| ==>
                 s.settled[i].requester < s.asked && AnswerFor(s.settled[i].verdict, AskedIds(es)[s.settled[i].requester])
  {
    ListIsComplete(Fresh(false), es);
    ToldAboutOwnId(Fresh(false), [], es);
    assert [] + AskedIds(es) == AskedIds(es);
  }

  // -------- the service as an object --------

  class ApprovalService {
    const auto: bool
    var pending: seq<Entry>
    var timers: map<nat, string>
    var asked: nat
    var settled: seq<Settlement>

    constructor (auto: bool)
      ensures View() == Fresh(auto)
    {
      this.auto := auto;
      pending, timers, asked, settled := [], map[], 0, [];
    }

    ghost function View(): Service
      reads this
    {
      Service(auto, pending, timers, asked, settled)
    }

    method List() returns (ids: seq<string>)
      ensures |ids| == |pending| && forall i :: 0 <= i < |ids| ==> ids[i] == pending[i].id
    {
      ids := seq(|pending|, i requires 0 <= i < |pending| reads this => pending[i].id);
    }

    method RequestApproval(id: string) returns (requester: nat)
      modifies this
      ensures View() == AskTurn(old(View()), id) && requester == old(asked)
      ensures auto ==> pending == old(pending) && timers == old(timers)
                       && settled == old(settled) + [Settlement(requester, Verdict("auto", true, None))]
      ensures !auto ==> settled == old(settled) && timers == old(timers)[requester := id] && Entry(id, requester) in pending
    {
      requester := asked;
      asked := asked + 1;
      if auto {
        settled := settled + [Settlement(requester, AUTO)];
        return;
      }
      timers := timers[requester := id];
      pending := Put(pending, Entry(id, requester));
      PutHas(old(pending), Entry(id, requester));
    }

    method OnTimeout(requester: nat)
      requires requester in timers
      modifies this
      ensures View() == TimeoutTurn(old(View()), requester)
      ensures settled == old(settled) + [Settlement(requester, Verdict(old(timers)[requester], false, Some("timeout")))]
    {
      var id := timers[requester];
      timers := timers - {requester};
      pending := Delete(pending, id);
      settled := settled + [Settlement(requester, Denied(id, "timeout"))];
    }

    method Respond(id: string, allow: bool) returns (said: Option<Verdict>)
      modifies this
      ensures (View(), said) == RespondTurn(old(View()), id, allow)
    {
      var entry := Get(pending, id);
      if entry.None? { return None; }
      timers := timers - {entry.value.requester};
      pending := Delete(pending, id);
      var verdict := Answer(id, allow);
      settled := settled + [Settlement(entry.value.requester, verdict)];
      said := Some(verdict);
    }
  }
}
