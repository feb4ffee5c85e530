/**
 The held-reply provider of `evals/worlds/best-practices.ts`: a loopback model
 provider that records chat requests and replies to each, except that an armed
 hold keeps the next chat that is not a title request open until it is released.
 */
module HeldReply {
  import opened Basics

  datatype Recorded = Recorded(body: string, title: bool, completed: bool)

  /** `armed` are the holds handed out so far, `captured[h]` the request that hold
      `h` caught; `replies` lists the numbers under which replies were sent. */
  datatype Provider = Provider(requests: seq<Recorded>, holdNext: bool, held: seq<nat>,
                               captured: seq<nat>, replies: seq<nat>)

  const START := Provider([], false, [], [], [])

  /** `complete`: reply once, under the request's place in the order of arrival, counted from 1. */
  function Complete(p: Provider, i: nat): Provider
    requires i < |p.requests|
  {
    if p.requests[i].completed then p
    else p.(requests := p.requests[i := p.requests[i].(completed := true)], held := Remove(p.held, i), replies := p.replies + [i + 1])
  }

  function OnChat(p: Provider, body: string, title: bool): Provider {
    var i := |p.requests|;
    var q := p.(requests := p.requests + [Recorded(body, title, false)]);
    if p.holdNext && !title then q.(holdNext := false, held := q.held + [i], captured := q.captured + [i])
    else Complete(q, i)
  }

  predicate InRange(ids: seq<nat>, n: nat) { forall k :: 0 <= k < |ids| ==> ids[k] < n }

  /** The start of `dispose`: release everything that is held, oldest first. */
  function CompleteAll(p: Provider, ids: seq<nat>): (q: Provider)
    requires InRange(ids, |p.requests|)
    ensures |q.requests| == |p.requests|
    decreases |ids|
  {
    if ids == [] then p else CompleteAll(Complete(p, ids[0]), ids[1..])
  }

  // -------- runs --------

  datatype Event = Arm | Chat(body: string, title: bool) | Release(hold: nat) | Dispose

  /** A hold can be armed only while none is waiting; releases name a hold that has
      caught its request.  The provider still answers while a disposal waits for its server. */
  predicate Enabled(p: Provider, e: Event) {
    match e
    case Arm => !p.holdNext
    case Chat(_, _) => true
    case Release(h) => h < |p.captured| && p.captured[h] < |p.requests|
    case Dispose => InRange(p.held, |p.requests|)
  }

  function Next(p: Provider, e: Event): Provider
    requires Enabled(p, e)
  {
    match e
    case Arm => p.(holdNext := true)
    case Chat(body, title) => OnChat(p, body, title)
    case Release(h) => Complete(p, p.captured[h])
    case Dispose => CompleteAll(p, p.held)
  }

  ghost predicate Legal(p: Provider, es: seq<Event>)
    decreases |es|
  {
    es == [] || (Enabled(p, es[0]) && Legal(Next(p, es[0]), es[1..]))
  }

  ghost function Run(p: Provider, es: seq<Event>): Provider
    requires Legal(p, es)
    decreases |es|
  {
    if es == [] then p else Run(Next(p, es[0]), es[1..])
  }

  ghost predicate Increasing(s: seq<nat>) { forall i, j :: 0 <= i < j < |s| ==> s[i] < s[j] }

  lemma {:induction false} RemoveIncreasing(s: seq<nat>, x: nat)
    requires Increasing(s)
    ensures Increasing(Remove(s, x))
  {
    if s != [] {
      var rest := Remove(s[1..], x);
      RemoveIncreasing(s[1..], x);
      forall i | 0 <= i < |rest| ensures s[0] < rest[i] { assert rest[i] in s[1..]; }
    }
  }

  /** A request is held exactly while it is captured and not completed; it is
      completed exactly when the one reply under its number has been sent. */
  ghost predicate Books(p: Provider) {
    && (forall i: nat :: i in p.held <==> i in p.captured && i < |p.requests| && !p.requests[i].completed)
    && (forall i: nat :: i < |p.requests| && i !in p.captured ==> p.requests[i].completed)
    && (forall h, k :: 0 <= h < k < |p.captured| ==> p.captured[h] < p.captured[k])
    && (forall h :: 0 <= h < |p.captured| ==> p.captured[h] < |p.requests| && !p.requests[p.captured[h]].title)
    && Distinct(p.replies)
    && (forall n: nat :: n in p.replies <==> 1 <= n <= |p.requests| && p.requests[n - 1].completed)
  }

  /** What is held is kept in the order of arrival. */
  ghost predicate Inv(p: Provider) { Books(p) && Increasing(p.held) }

  /** What was recorded of a request never changes, apart from its completion, which is final. */
  ghost predicate Onward(p: Provider, q: Provider) {
    && |p.requests| <= |q.requests| && p.replies <= q.replies && p.captured <= q.captured
    && forall i :: 0 <= i < |p.requests| ==>
         q.requests[i].body == p.requests[i].body && q.requests[i].title == p.requests[i].title
         && (p.requests[i].completed ==> q.requests[i].completed)
  }

  lemma CompleteBooks(p: Provider, i: nat)
    requires Books(p) && i < |p.requests|
    ensures Books(Complete(p, i)) && Onward(p, Complete(p, i))
  {
    var q := Complete(p, i);
    if !p.requests[i].completed {
      assert i + 1 !in p.replies;
      assert forall n: nat :: n in q.replies <==> n in p.replies || n == i + 1;
      assert forall n: nat :: n < |p.requests| ==> (q.requests[n].completed <==> n == i || p.requests[n].completed);
    }
  }

  lemma CompleteKeeps(p: Provider, i: nat)
    requires Inv(p) && i < |p.requests|
    ensures Inv(Complete(p, i)) && Onward(p, Complete(p, i))
  {
    CompleteBooks(p, i);
    RemoveIncreasing(p.held, i);
  }

  lemma ChatBooks(p: Provider, body: string, title: bool)
    requires Books(p)
    ensures Books(OnChat(p, body, title)) && Onward(p, OnChat(p, body, title))
  {
    var q := OnChat(p, body, title);
    var n := |p.requests|;
    assert forall i :: 0 <= i < n ==> q.requests[i] == p.requests[i];
    if p.holdNext && !title {
      assert forall i: nat :: i in q.captured <==> i in p.captured || i == n;
    } else {
      assert n !in p.captured && n !in p.held && n + 1 !in p.replies;
      assert forall m: nat :: m in q.replies <==> m in p.replies || m == n + 1;
    }
  }

  /** A chat is held at the end, behind everything that came before it. */
  lemma ChatIncreasing(p: Provider, body: string, title: bool)
    requires Inv(p)
    ensures Increasing(OnChat(p, body, title).held)
  {
    RemoveIncreasing(p.held, |p.requests|);
    assert forall k :: 0 <= k < |p.held| ==> p.held[k] in p.held;
  }

  lemma ChatKeeps(p: Provider, body: string, title: bool)
    requires Inv(p)
    ensures Inv(OnChat(p, body, title)) && Onward(p, OnChat(p, body, title))
  {
    ChatBooks(p, body, title);
    ChatIncreasing(p, body, title);
  }

  lemma {:induction false} CompleteAllKeeps(p: Provider, ids: seq<nat>)
    requires Inv(p) && InRange(ids, |p.requests|)
    ensures Inv(CompleteAll(p, ids)) && Onward(p, CompleteAll(p, ids))
    ensures forall i :: i in CompleteAll(p, ids).held <==> i in p.held && i !in ids
    decreases |ids|
  {
    if ids != [] {
      CompleteKeeps(p, ids[0]);
      assert ids == [ids[0]] + ids[1..];
      CompleteAllKeeps(Complete(p, ids[0]), ids[1..]);
    }
  }

  lemma StepKeeps(p: Provider, e: Event)
    requires Inv(p) && Enabled(p, e)
    ensures Inv(Next(p, e)) && Onward(p, Next(p, e))
  {
    match e
    case Arm =>
    case Chat(body, title) => ChatKeeps(p, body, title);
    case Release(h) => CompleteKeeps(p, p.captured[h]);
    case Dispose => CompleteAllKeeps(p, p.held);
  }

  lemma {:induction false} RunKeeps(p: Provider, es: seq<Event>)
    requires Inv(p) && Legal(p, es)
    ensures Inv(Run(p, es)) && Onward(p, Run(p, es))
    decreases |es|
  {
    if es != [] {
      StepKeeps(p, es[0]);
      RunKeeps(Next(p, es[0]), es[1..]);
    }
  }

  /** Over every run, as long as it goes on: each request is replied to at most once,
      under its own number; the held ones are the captured ones without a reply; and
      what has been sent or captured stays. */
  lemma RepliedOnce(es: seq<Event>, more: seq<Event>)
    requires Legal(START, es) && Legal(Run(START, es), more)
    ensures Inv(Run(START, es)) && Onward(Run(START, es), Run(Run(START, es), more))
  {
    RunKeeps(START, es);
    RunKeeps(Run(START, es), more);
  }

  function Arms(es: seq<Event>): nat
    decreases |es|
  {
    if es == [] then 0 else (if es[0].Arm? then 1 else 0) + Arms(es[1..])
  }

  /** Captures, and the hold that is still waiting, add up to the holds armed. */
  lemma {:induction false} OneCaptureEach(p: Provider, es: seq<Event>)
    requires Inv(p) && Legal(p, es)
    ensures |Run(p, es).captured| + (if Run(p, es).holdNext then 1 else 0)
            == |p.captured| + (if p.holdNext then 1 else 0) + Arms(es)
    decreases |es|
  {
    if es != [] {
      StepKeeps(p, es[0]);
      if es[0] == Dispose { DisposeFrame(p, p.held); }
      OneCaptureEach(Next(p, es[0]), es[1..]);
    }
  }

  function Chats(es: seq<Event>): nat
    decreases |es|
  {
    if es == [] then 0 else (if es[0].Chat? then 1 else 0) + Chats(es[1..])
  }

  predicate NonTitle(e: Event) { e.Chat? && !e.title }

  /** Event `i` is the first chat that is not a title request. */
  ghost predicate FirstNonTitle(es: seq<Event>, i: nat) {
    i < |es| && NonTitle(es[i]) && forall k :: 0 <= k < i ==> !NonTitle(es[k])
  }

  lemma StepFrame(p: Provider, e: Event)
    requires Inv(p) && Enabled(p, e)
    ensures var q := Next(p, e);
            && |q.requests| == |p.requests| + (if e.Chat? then 1 else 0)
            && q.holdNext == (e.Arm? || (p.holdNext && !NonTitle(e)))
            && q.captured == p.captured + (if p.holdNext && NonTitle(e) then [|p.requests|] else [])
  {
    if e == Dispose { DisposeFrame(p, p.held); }
  }

  /** While a hold is armed: the next chat that is no title request is what it catches. */
  lemma {:induction false} ArmedCatches(p: Provider, es: seq<Event>, i: nat)
    requires Inv(p) && p.holdNext && Legal(p, es) && FirstNonTitle(es, i)
    ensures |p.captured| < |Run(p, es).captured|
    ensures Run(p, es).captured[|p.captured|] == |p.requests| + Chats(es[..i])
    decreases |es|
  {
    var q := Next(p, es[0]);
    StepKeeps(p, es[0]);
    StepFrame(p, es[0]);
    RunKeeps(q, es[1..]);
    if i == 0 {
      assert q.captured <= Run(p, es).captured;
      assert q.captured[|p.captured|] == |p.requests|;
    } else {
      assert !NonTitle(es[0]);
      ArmedCatches(q, es[1..], i - 1);
      assert es[..i][1..] == es[1..][..i - 1];
    }
  }

  lemma {:induction false} ArmedWaits(p: Provider, es: seq<Event>)
    requires Inv(p) && p.holdNext && Legal(p, es) && forall k :: 0 <= k < |es| ==> !NonTitle(es[k])
    ensures Run(p, es).holdNext && Run(p, es).captured == p.captured
    decreases |es|
  {
    if es != [] {
      StepKeeps(p, es[0]);
      StepFrame(p, es[0]);
      ArmedWaits(Next(p, es[0]), es[1..]);
    }
  }

  lemma {:induction false} RunSplit(p: Provider, es: seq<Event>, a: nat)
    requires Inv(p) && Legal(p, es) && a <= |es|
    ensures Legal(p, es[..a]) && Inv(Run(p, es[..a])) && Legal(Run(p, es[..a]), es[a..])
    ensures Run(p, es) == Run(Run(p, es[..a]), es[a..])
    ensures |Run(p, es[..a]).requests| == |p.requests| + Chats(es[..a])
    decreases a
  {
    if a == 0 {
      assert es[0..] == es;
    } else {
      StepKeeps(p, es[0]);
      StepFrame(p, es[0]);
      RunSplit(Next(p, es[0]), es[1..], a - 1);
      assert es[..a][1..] == es[1..][..a - 1] && es[1..][a - 1..] == es[a..];
    }
  }

  /** Over every run: the `h`-th arm catches the first chat after it that is not a title
      request, whatever else happens; and while there is none, nothing. */
  lemma CapturesFirst(es: seq<Event>, a: nat, i: nat)
    requires Legal(START, es) && a < |es| && es[a].Arm?
    ensures var u := Run(START, es);
            var h := Arms(es[..a]);
            && (FirstNonTitle(es[a + 1..], i) ==> h < |u.captured| && u.captured[h] == Chats(es[..a + 1 + i]))
            && ((forall k :: a < k < |es| ==> !NonTitle(es[k])) ==> |u.captured| == h && u.holdNext)
  {
    var later := es[a + 1..];
    var q := ArmedAt(es, a);
    if FirstNonTitle(later, i) {
      ArmedCatches(q, later, i);
      assert es[a + 1..a + 1 + i] == later[..i];
      ChatsSplit(es, a + 1, a + 1 + i);
    }
    if forall k :: a < k < |es| ==> !NonTitle(es[k]) { ArmedWaits(q, later); }
  }

  /** The state right after an arm, and what comes of it. */
  lemma ArmedAt(es: seq<Event>, a: nat) returns (q: Provider)
    requires Legal(START, es) && a < |es| && es[a].Arm?
    ensures Inv(q) && q.holdNext && |q.captured| == Arms(es[..a]) && |q.requests| == Chats(es[..a + 1])
    ensures Legal(q, es[a + 1..]) && Run(START, es) == Run(q, es[a + 1..])
  {
    RunSplit(START, es, a);
    OneCaptureEach(START, es[..a]);
    q := ArmStep(Run(START, es[..a]), es[a..]);
    ArmIsNoChat(es, a);
    assert es[a..][1..] == es[a + 1..];
  }

  lemma ArmStep(p: Provider, es: seq<Event>) returns (q: Provider)
    requires Inv(p) && es != [] && es[0].Arm? && Legal(p, es)
    ensures Inv(q) && q.holdNext && q.captured == p.captured && !p.holdNext && q.requests == p.requests
    ensures Legal(q, es[1..]) && Run(p, es) == Run(q, es[1..])
  {
    q := Next(p, es[0]);
    StepKeeps(p, es[0]);
  }

  lemma ArmIsNoChat(es: seq<Event>, a: nat)
    requires a < |es| && es[a].Arm?
    ensures Chats(es[..a + 1]) == Chats(es[..a])
  {
    ChatsSplit(es, a, a + 1);
    assert es[a..a + 1] == [es[a]];
  }

  lemma {:induction false} ChatsSplit(es: seq<Event>, a: nat, b: nat)
    requires a <= b <= |es|
    ensures Chats(es[..b]) == Chats(es[..a]) + Chats(es[a..b])
    decreases a
  {
    if a == 0 {
      assert es[0..b] == es[..b];
    } else {
      ChatsSplit(es[1..], a - 1, b - 1);
      assert es[..b][1..] == es[1..][..b - 1] && es[..a][1..] == es[1..][..a - 1] && es[1..][a - 1..b - 1] == es[a..b];
    }
  }

  lemma {:induction false} DisposeFrame(p: Provider, ids: seq<nat>)
    requires InRange(ids, |p.requests|)
    ensures CompleteAll(p, ids).captured == p.captured && CompleteAll(p, ids).holdNext == p.holdNext
    decreases |ids|
  {
    if ids != [] { DisposeFrame(Complete(p, ids[0]), ids[1..]); }
  }

  /** The chats of a run, in order. */
  ghost function ChatsOf(es: seq<Event>): seq<Event>
    ensures forall c :: c in ChatsOf(es) ==> c.Chat?
    decreases |es|
  {
    if es == [] then [] else (if es[0].Chat? then [es[0]] else []) + ChatsOf(es[1..])
  }

  ghost predicate Records(requests: seq<Recorded>, chats: seq<Event>)
    requires forall c :: c in chats ==> c.Chat?
  {
    |requests| == |chats|
    && forall i :: 0 <= i < |chats| ==> requests[i].body == chats[i].body && requests[i].title == chats[i].title
  }

  lemma {:induction false} RunRecords(p: Provider, chats: seq<Event>, es: seq<Event>)
    requires Inv(p) && Legal(p, es) && (forall c :: c in chats ==> c.Chat?) && Records(p.requests, chats)
    ensures Records(Run(p, es).requests, chats + ChatsOf(es))
    decreases |es|
  {
    if es == [] {
      assert chats + ChatsOf(es) == chats;
    } else {
      var now := if es[0].Chat? then [es[0]] else [];
      StepKeeps(p, es[0]);
      StepFrame(p, es[0]);
      RecordsStep(p, chats, es[0]);
      RunRecords(Next(p, es[0]), chats + now, es[1..]);
      Associate(chats, now, ChatsOf(es[1..]));
    }
  }

  lemma RecordsStep(p: Provider, chats: seq<Event>, e: Event)
    requires Inv(p) && Enabled(p, e) && (forall c :: c in chats ==> c.Chat?) && Records(p.requests, chats)
    ensures Records(Next(p, e).requests, chats + if e.Chat? then [e] else [])
  {
    StepKeeps(p, e);
    StepFrame(p, e);
  }

  /** Over every run: the requests recorded are the chats, in order, each with its body and kind. */
  lemma RecordedInOrder(es: seq<Event>)
    requires Legal(START, es)
    ensures Records(Run(START, es).requests, ChatsOf(es))
  {
    RunRecords(START, [], es);
    assert [] + ChatsOf(es) == ChatsOf(es);
  }

  /** While a hold is armed, title requests pass and the next other chat is caught; otherwise every chat is answered. */
  lemma CaughtIff(es: seq<Event>, body: string, title: bool)
    requires Legal(START, es)
    ensures var p := Run(START, es);
            var q := Next(p, Chat(body, title));
            && (|p.requests| in q.captured <==> p.holdNext && !title)
            && (|p.requests| in q.held <==> p.holdNext && !title)
            && (|p.requests| + 1 in q.replies <==> !(p.holdNext && !title))
            && (q.holdNext <==> p.holdNext && title)
  {
    RunKeeps(START, es);
    ChatKeeps(Run(START, es), body, title);
  }

  /** Disposal completes everything: nothing stays held, and every recorded request has had its reply. */
  lemma DisposeCompletesAll(es: seq<Event>)
    requires Legal(START, es) && Enabled(Run(START, es), Dispose)
    ensures var q := Next(Run(START, es), Dispose);
            (forall i: nat :: i !in q.held) && forall i: nat :: i < |q.requests| ==> q.requests[i].completed && i + 1 in q.replies
  {
    var p := Run(START, es);
    RunKeeps(START, es);
    CompleteAllKeeps(p, p.held);
  }

  ghost predicate NoArm(es: seq<Event>) { forall i :: 0 <= i < |es| ==> !es[i].Arm? }

  lemma {:induction false} StaysFree(p: Provider, es: seq<Event>)
    requires Inv(p) && p.held == [] && !p.holdNext && Legal(p, es) && NoArm(es)
    ensures Run(p, es).held == []
    decreases |es|
  {
    if es != [] {
      assert es[0] in es;
      StaysFree(Next(p, es[0]), es[1..]) by { StepKeeps(p, es[0]); }
    }
  }

  lemma EmptyOrNot(s: seq<nat>)
    ensures s == [] || exists x :: x in s
  {
    if s != [] { assert s[0] in s; }
  }

  /** That stays so, with no new hold armed, exactly if none was armed at the disposal:
      a hold still waiting then catches a request that comes in while the server stops. */
  lemma NothingHeldAfterIff(p: Provider)
    requires Inv(p) && Enabled(p, Dispose)
    ensures (forall es :: Legal(Next(p, Dispose), es) && NoArm(es) ==> Run(Next(p, Dispose), es).held == []) <==> !p.holdNext
  {
    var q := Next(p, Dispose);
    CompleteAllKeeps(p, p.held);
    DisposeFrame(p, p.held);
    EmptyOrNot(q.held);
    if p.holdNext {
      var e := Chat("", false);
      assert [e][1..] == [];
      assert Legal(Next(q, e), []);
      assert Legal(q, [e]) && NoArm([e]) && Run(q, [e]) == Next(q, e);
      assert Next(q, e).held == [|q.requests|];
    } else {
      forall es | Legal(q, es) && NoArm(es) ensures Run(q, es).held == [] { StaysFree(q, es); }
    }
  }

  // -------- the provider as an object --------

  class Witness {
    var requests: seq<Recorded>
    var holdNext: bool
    var held: seq<nat>
    var captured: seq<nat>
    var replies: seq<nat>

    constructor ()
      ensures View() == START
    {
      requests, holdNext, held, captured, replies := [], false, [], [], [];
    }

    ghost function View(): Provider
      reads this
    {
      Provider(requests, holdNext, held, captured, replies)
    }

    method Reply(i: nat)
      requires i < |requests|
      modifies this
      ensures View() == Complete(old(View()), i)
    {
      if requests[i].completed { return; }
      requests := requests[i := requests[i].(completed := true)];
      held := Remove(held, i);
      replies := replies + [i + 1];
    }

    method Receive(body: string, title: bool)
      modifies this
      ensures View() == OnChat(old(View()), body, title)
    {
      var i := |requests|;
      requests := requests + [Recorded(body, title, false)];
      if holdNext && !title {
        holdNext := false;
        held := held + [i];
        captured := captured + [i];
      } else {
        Reply(i);
      }
    }

    /** `thrown` when a hold is already armed, which stays armed. */
    method HoldNextReply() returns (thrown: bool)
      modifies this
      ensures thrown == old(holdNext) && View() == old(View()).(holdNext := true)
    {
      thrown := holdNext;
      holdNext := true;
    }

    method Dispose()
      requires InRange(held, |requests|)
      modifies this
      ensures View() == CompleteAll(old(View()), old(held))
    {
      var ids := held;
      var n := 0;
      while n < |ids|
        invariant n <= |ids| && InRange(ids, |requests|)
        invariant CompleteAll(old(View()), ids) == CompleteAll(View(), ids[n..])
      {
        Reply(ids[n]);
        n := n + 1;
      }
    }
  }
}
