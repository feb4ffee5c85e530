/**
 What the gate controller reports and what the page gets, over every run: the
 counters, the number of held requests, and who is refused.
 */
module GateLedger {
  import opened Basics
  import opened GateProtocol
  import opened GateSystem
  import opened GateSteps
  import opened GateRuns

  // -------- who is refused --------

  ghost predicate RefusalsOk(gates: seq<Gate>, reqs: Requests) {
    && (forall id :: id in reqs && (reqs[id].rejected || Refusing(reqs[id])) ==> exists j: nat :: FailedWith(gates, j, id))
    && (forall j: nat, id :: FailedWith(gates, j, id) ==> id in reqs && TurnedAway(reqs[id]))
  }

  /** Both sides go together at every step: a refusal is new only under a failed gate,
      a verdict only with the refusals it sends, and neither is taken back. */
  lemma FollowsRefusals(s: System, t: System)
    requires Follows(s, t) && RefusalsOk(s.ctl.gates, s.reqs)
    ensures RefusalsOk(t.ctl.gates, t.reqs)
  {
    forall id | id in t.reqs && (t.reqs[id].rejected || Refusing(t.reqs[id])) ensures exists j: nat :: FailedWith(t.ctl.gates, j, id) {
      if id in s.reqs && (s.reqs[id].rejected || Refusing(s.reqs[id])) {
        var j: nat :| FailedWith(s.ctl.gates, j, id);
        assert FailedWith(t.ctl.gates, j, id);
      }
    }
  }

  // -------- what the counters count --------

  /** The requests of a kind of which the controller has heard. */
  ghost function Heard(reqs: Requests, kind: Kind): set<RequestId> {
    set id | id in reqs && reqs[id].kind == Some(kind) && reqs[id].seen > 0
  }

  ghost predicate CountsTrue(c: Controller, reqs: Requests) {
    c.creation == |Heard(reqs, Creation)| && c.prompt == |Heard(reqs, Prompt)|
  }

  lemma SameHeard(reqs: Requests, after: Requests, kind: Kind)
    requires forall id :: id in reqs ==> id in after && after[id].kind == reqs[id].kind && (after[id].seen > 0 <==> reqs[id].seen > 0)
    requires forall id :: id in after && after[id].seen > 0 ==> id in reqs
    ensures Heard(after, kind) == Heard(reqs, kind)
  {
  }

  lemma FirstHeard(reqs: Requests, id: RequestId, q: Req, kind: Kind)
    requires id in reqs && reqs[id].seen == 0 && q.seen > 0 && q.kind == reqs[id].kind
    ensures |Heard(reqs[id := q], kind)| == |Heard(reqs, kind)| + if q.kind == Some(kind) then 1 else 0
  {
    var was, now := Heard(reqs, kind), Heard(reqs[id := q], kind);
    if q.kind == Some(kind) {
      assert now == was + {id} && id !in was;
    } else {
      assert now == was;
    }
  }

  /** The controller hears of a pause: for the first time exactly at the request stage. */
  lemma HeardPause(reqs: Requests, id: RequestId, q: Req, c: Controller, after: Controller)
    requires CountsTrue(c, reqs) && id in reqs && q.seen == reqs[id].seen + 1 && q.kind == reqs[id].kind
    requires reqs[id].stage == Request <==> reqs[id].seen == 0
    requires after.creation == c.creation + (if reqs[id].stage == Request && q.kind == Some(Creation) then 1 else 0)
    requires after.prompt == c.prompt + (if reqs[id].stage == Request && q.kind == Some(Prompt) then 1 else 0)
    ensures CountsTrue(after, reqs[id := q])
  {
    if reqs[id].seen == 0 {
      FirstHeard(reqs, id, q, Creation);
      FirstHeard(reqs, id, q, Prompt);
    } else {
      SameHeard(reqs, reqs[id := q], Creation);
      SameHeard(reqs, reqs[id := q], Prompt);
    }
  }

  lemma CountedTurn(c: Controller, id: RequestId, kind: Option<Kind>, stage: Stage, now: int)
    ensures var after := OnPaused(c, id, kind, stage, now).0;
            && after.creation == c.creation + (if stage == Request && kind == Some(Creation) then 1 else 0)
            && after.prompt == c.prompt + (if stage == Request && kind == Some(Prompt) then 1 else 0)
  {
  }

  lemma PauseCounts(s: System, id: RequestId, stage: Stage, now: int)
    requires CountsTrue(s.ctl, s.reqs) && Handling(s, id, stage) && ReqOk(s.reqs[id], s.disables, s.fetchOn, s.forgets)
    ensures CountsTrue(Next(s, Deliver(now)).ctl, Next(s, Deliver(now)).reqs)
  {
    CountedTurn(s.ctl, id, s.reqs[id].kind, stage, now);
    if Wanted(s.ctl.gates, s.reqs[id].kind, stage) { HoldCounts(s, id, stage, now); } else { PassCounts(s, id, stage, now); }
  }

  lemma HoldCounts(s: System, id: RequestId, stage: Stage, now: int)
    requires CountsTrue(s.ctl, s.reqs) && Handling(s, id, stage) && Wanted(s.ctl.gates, s.reqs[id].kind, stage)
    requires s.reqs[id].stage == Request <==> s.reqs[id].seen == 0
    ensures CountsTrue(Next(s, Deliver(now)).ctl, Next(s, Deliver(now)).reqs)
  {
    var t := Next(s, Deliver(now));
    CountedTurn(s.ctl, id, s.reqs[id].kind, stage, now);
    HoldEffect(s, id, stage, now);
    assert t.ctl == OnPaused(s.ctl, id, s.reqs[id].kind, stage, now).0;
    HeardPause(s.reqs, id, t.reqs[id], s.ctl, t.ctl);
  }

  lemma PassCounts(s: System, id: RequestId, stage: Stage, now: int)
    requires CountsTrue(s.ctl, s.reqs) && Handling(s, id, stage) && !Wanted(s.ctl.gates, s.reqs[id].kind, stage)
    requires s.reqs[id].stage == Request <==> s.reqs[id].seen == 0
    ensures CountsTrue(Next(s, Deliver(now)).ctl, Next(s, Deliver(now)).reqs)
  {
    var t := Next(s, Deliver(now));
    CountedTurn(s.ctl, id, s.reqs[id].kind, stage, now);
    PassEffect(s, id, stage, now);
    assert t.ctl == OnPaused(s.ctl, id, s.reqs[id].kind, stage, now).0;
    HeardPause(s.reqs, id, t.reqs[id], s.ctl, t.ctl);
  }

  /** Nobody is heard of, and nothing counted. */
  lemma CountsFrame(c: Controller, d: Controller, reqs: Requests, after: Requests)
    requires CountsTrue(c, reqs) && d.creation == c.creation && d.prompt == c.prompt
    requires forall id :: id in reqs ==> id in after && after[id].kind == reqs[id].kind && after[id].seen == reqs[id].seen
    requires forall id :: id in after && after[id].seen > 0 ==> id in reqs
    ensures CountsTrue(d, after)
  {
    SameHeard(reqs, after, Creation);
    SameHeard(reqs, after, Prompt);
  }

  lemma EnableFrame(s: System)
    requires s.toBrowser != [] && s.toBrowser[0].command == FetchEnable
    ensures Next(s, BrowserTurn).ctl == s.ctl && Next(s, BrowserTurn).reqs == s.reqs
  {
    SwitchEffect(s);
  }

  lemma AnswerFrame(s: System, cmd: Command)
    requires s.toBrowser != [] && s.toBrowser[0].command == cmd && IsAnswer(cmd)
    ensures var t := Next(s, BrowserTurn);
            && t.ctl == s.ctl
            && t.reqs == if cmd.id in s.reqs then s.reqs[cmd.id := Answered(s.reqs[cmd.id], cmd)] else s.reqs
  {
  }

  lemma TurnCounts(s: System)
    requires CountsTrue(s.ctl, s.reqs) && s.toBrowser != []
    ensures CountsTrue(Next(s, BrowserTurn).ctl, Next(s, BrowserTurn).reqs)
  {
    match s.toBrowser[0].command
    case FetchEnable => EnableFrame(s);
    case FetchDisable => DisableCounts(s);
    case _ => AnswerCounts(s);
  }

  lemma LetGoSeen(reqs: Requests, forgets: bool)
    ensures var after := AllLetGo(reqs, forgets);
            forall id :: id in reqs ==> after[id].kind == reqs[id].kind && after[id].seen == reqs[id].seen
  {
    forall id | id in reqs ensures AllLetGo(reqs, forgets)[id] == LetGo(reqs[id], forgets) {}
  }

  lemma DisableCounts(s: System)
    requires CountsTrue(s.ctl, s.reqs) && s.toBrowser != [] && s.toBrowser[0].command == FetchDisable
    ensures CountsTrue(Next(s, BrowserTurn).ctl, Next(s, BrowserTurn).reqs)
  {
    SwitchEffect(s);
    LetGoSeen(s.reqs, s.forgets);
    CountsFrame(s.ctl, s.ctl, s.reqs, AllLetGo(s.reqs, s.forgets));
  }

  lemma AnswerCounts(s: System)
    requires CountsTrue(s.ctl, s.reqs) && s.toBrowser != [] && IsAnswer(s.toBrowser[0].command)
    ensures CountsTrue(Next(s, BrowserTurn).ctl, Next(s, BrowserTurn).reqs)
  {
    AnswerFrame(s, s.toBrowser[0].command);
    CountsFrame(s.ctl, Next(s, BrowserTurn).ctl, s.reqs, Next(s, BrowserTurn).reqs);
  }

  lemma FinishCounts(s: System, j: nat, fail: bool, late: bool, origin: Origin)
    requires CountsTrue(s.ctl, s.reqs) && j < |s.ctl.gates| && (late ==> !fail && !s.ctl.gates[j].released)
    ensures var t := Perform(s, FinishOrExpire(s.ctl, j, fail, late), origin); CountsTrue(t.ctl, t.reqs)
  {
    if s.ctl.gates[j].released {
      FinishAgain(s, j, fail, origin);
    } else {
      FinishEffect(s, j, fail, late, origin);
      var t := Perform(s, FinishOrExpire(s.ctl, j, fail, late), origin);
      CountsFrame(s.ctl, t.ctl, s.reqs, t.reqs);
    }
  }

  lemma StepCounts(s: System, e: Event)
    requires Inv(s) && CountsTrue(s.ctl, s.reqs) && Enabled(s, e)
    ensures CountsTrue(Next(s, e).ctl, Next(s, e).reqs)
  {
    match e
    case Begin(id, kind) => BeginCounts(s, id, kind);
    case Arrive(id) => ArriveCounts(s, id);
    case BrowserTurn => TurnCounts(s);
    case Deliver(now) => DeliverCounts(s, now);
    case FinishGate(j, fail) => FinishCounts(s, j, fail, false, Caller);
    case ExpireGate(j) =>
      assert GateOk(s.ctl.gates[j]);
      FinishCounts(s, j, false, true, Timer);
    case DisposeNext => DisposeCounts(s);
    case _ => ControlCounts(s, e);
  }

  lemma BeginCounts(s: System, id: RequestId, kind: Option<Kind>)
    requires CountsTrue(s.ctl, s.reqs) && Enabled(s, Begin(id, kind))
    ensures CountsTrue(s.ctl, Next(s, Begin(id, kind)).reqs)
    ensures Next(s, Begin(id, kind)).ctl == s.ctl
  {
    CountsFrame(s.ctl, Next(s, Begin(id, kind)).ctl, s.reqs, Next(s, Begin(id, kind)).reqs);
  }

  lemma ArriveCounts(s: System, id: RequestId)
    requires CountsTrue(s.ctl, s.reqs) && Enabled(s, Arrive(id))
    ensures CountsTrue(s.ctl, Next(s, Arrive(id)).reqs)
    ensures Next(s, Arrive(id)).ctl == s.ctl
  {
    CountsFrame(s.ctl, Next(s, Arrive(id)).ctl, s.reqs, Next(s, Arrive(id)).reqs);
  }

  lemma DeliverCounts(s: System, now: int)
    requires Inv(s) && CountsTrue(s.ctl, s.reqs) && s.toController != []
    ensures CountsTrue(Next(s, Deliver(now)).ctl, Next(s, Deliver(now)).reqs)
  {
    if s.toController[0].Pausing? {
      HandlingFirst(s);
      assert ReqOk(s.reqs[s.toController[0].id], s.disables, s.fetchOn, s.forgets);
      PauseCounts(s, s.toController[0].id, s.toController[0].stage, now);
    } else {
      ReplyCounts(s, now);
    }
  }

  lemma ReplyCounts(s: System, now: int)
    requires CountsTrue(s.ctl, s.reqs) && s.toController != [] && s.toController[0].Reply?
    ensures CountsTrue(Next(s, Deliver(now)).ctl, Next(s, Deliver(now)).reqs)
  {
    ReplyFrame(s.(toController := s.toController[1..]), s.toController[0].origin, s.toController[0].ok);
  }

  lemma DisposeCounts(s: System)
    requires CountsTrue(s.ctl, s.reqs) && Enabled(s, DisposeNext)
    ensures CountsTrue(Next(s, DisposeNext).ctl, Next(s, DisposeNext).reqs)
  {
    if s.disposal.next < |s.ctl.gates| { FinishCounts(s, s.disposal.next, false, false, Teardown); }
  }

  lemma ControlCounts(s: System, e: Event)
    requires CountsTrue(s.ctl, s.reqs) && Control(e)
    ensures CountsTrue(Next(s, e).ctl, Next(s, e).reqs)
  {
    ControlFrame(s, e);
  }

  // -------- over every run --------

  lemma {:induction false} RunLedger(s: System, es: seq<Event>)
    requires Inv(s) && RefusalsOk(s.ctl.gates, s.reqs) && CountsTrue(s.ctl, s.reqs) && Legal(s, es)
    ensures Inv(Run(s, es)) && RefusalsOk(Run(s, es).ctl.gates, Run(s, es).reqs) && CountsTrue(Run(s, es).ctl, Run(s, es).reqs)
    decreases |es|
  {
    if es != [] {
      StepKeeps(s, es[0]);
      StepFollows(s, es[0]);
      FollowsRefusals(s, Next(s, es[0]));
      StepCounts(s, es[0]);
      RunLedger(Next(s, es[0]), es[1..]);
    }
  }

  lemma ReachableLedger(s: System)
    requires Reachable(s)
    ensures Inv(s) && RefusalsOk(s.ctl.gates, s.reqs) && CountsTrue(s.ctl, s.reqs)
  {
    var forgets, es :| Legal(Start(forgets), es) && Run(Start(forgets), es) == s;
    StartInv(forgets);
    assert Heard(map[], Creation) == {} && Heard(map[], Prompt) == {};
    RunLedger(Start(forgets), es);
  }

  /** The page is refused exactly those requests that a failed gate was holding and
      whose answers have all reached them. */
  lemma RefusedIff(s: System, id: RequestId)
    requires Reachable(s) && id in s.reqs
    ensures s.reqs[id].rejected <==> (exists j: nat :: FailedWith(s.ctl.gates, j, id)) && s.reqs[id].told == s.reqs[id].hits
  {
    ReachableLedger(s);
    assert ReqOk(s.reqs[id], s.disables, s.fetchOn, s.forgets);
  }

  // -------- the numbers `read` reports --------

  ghost function IdSet(ids: seq<RequestId>): set<RequestId> { set id | id in ids }

  /** Requests one of whose pauses the controller has handled but not answered. */
  ghost function Unanswered(reqs: Requests): set<RequestId> {
    set id | id in reqs && reqs[id].seen == reqs[id].told + 1
  }

  ghost function HeldIds(gates: seq<Gate>): set<RequestId> {
    if gates == [] then {}
    else
      var g := gates[|gates| - 1];
      HeldIds(gates[..|gates| - 1]) + if Active(g) then IdSet(g.ids) else {}
  }

  lemma {:induction false} HeldIdsMean(gates: seq<Gate>, id: RequestId)
    ensures id in HeldIds(gates) <==> exists j :: 0 <= j < |gates| && Active(gates[j]) && id in gates[j].ids
  {
    if gates != [] {
      var n := |gates| - 1;
      HeldIdsMean(gates[..n], id);
      assert (exists j :: 0 <= j < n && Active(gates[..n][j]) && id in gates[..n][j].ids)
             <==> exists j :: 0 <= j < n && Active(gates[j]) && id in gates[j].ids;
    }
  }

  lemma {:induction false} SetOfDistinct(ids: seq<RequestId>)
    requires Distinct(ids)
    ensures |IdSet(ids)| == |ids|
  {
    if ids != [] {
      var t, last := ids[..|ids| - 1], ids[|ids| - 1];
      SetOfDistinct(t);
      assert ids == t + [last];
      assert last !in t;
      assert IdSet(ids) == IdSet(t) + {last};
    }
  }

  lemma HeldOnlyHere(s: System, n: nat)
    requires HeldOk(s.ctl.gates, s.reqs) && n < |s.ctl.gates| && Active(s.ctl.gates[n])
    ensures HeldIds(s.ctl.gates[..n]) !! IdSet(s.ctl.gates[n].ids)
  {
    var gates := s.ctl.gates[..n];
    forall id | id in s.ctl.gates[n].ids ensures id !in HeldIds(gates) {
      HeldIdsMean(gates, id);
      assert HeldBy(s, n, id);
      forall j: nat | j < n && Active(gates[j]) ensures id !in gates[j].ids {
        assert id in gates[j].ids ==> HeldBy(s, j, id);
      }
    }
  }

  lemma OneMoreGate(gates: seq<Gate>, g: Gate)
    ensures HeldIds(gates + [g]) == HeldIds(gates) + if Active(g) then IdSet(g.ids) else {}
    ensures HeldCount(gates + [g]) == HeldCount(gates) + if Active(g) then |g.ids| else 0
  {
    assert (gates + [g])[..|gates + [g]| - 1] == gates;
  }

  /** No request is held twice, so adding up per gate counts requests. */
  lemma {:induction false} HeldCountIsSize(s: System, n: nat)
    requires GatesOk(s.ctl.gates) && HeldOk(s.ctl.gates, s.reqs) && n <= |s.ctl.gates|
    ensures |HeldIds(s.ctl.gates[..n])| == HeldCount(s.ctl.gates[..n])
  {
    if n > 0 {
      var g := s.ctl.gates[n - 1];
      HeldCountIsSize(s, n - 1);
      assert s.ctl.gates[..n] == s.ctl.gates[..n - 1] + [g];
      OneMoreGate(s.ctl.gates[..n - 1], g);
      if Active(g) {
        assert GateOk(g);
        SetOfDistinct(g.ids);
        HeldOnlyHere(s, n - 1);
      }
    }
  }

  lemma HeldAreUnanswered(s: System)
    requires HeldOk(s.ctl.gates, s.reqs) && ReqsOk(s.reqs, s.disables, s.fetchOn, s.forgets)
    ensures HeldIds(s.ctl.gates) == Unanswered(s.reqs)
  {
    forall id ensures id in HeldIds(s.ctl.gates) <==> id in Unanswered(s.reqs) {
      HeldIdsMean(s.ctl.gates, id);
      if id in s.reqs {
        assert ReqOk(s.reqs[id], s.disables, s.fetchOn, s.forgets);
        if s.reqs[id].place.InGate? {
          assert Holds(s.ctl.gates, s.reqs[id].place.gate, id) && Active(s.ctl.gates[s.reqs[id].place.gate]);
        }
      }
      if id in HeldIds(s.ctl.gates) {
        var j: nat :| j < |s.ctl.gates| && Active(s.ctl.gates[j]) && id in s.ctl.gates[j].ids;
        assert Holds(s.ctl.gates, j, id);
      }
    }
  }

  /** At any time `read` tells the truth: of how many creations and prompts the
      controller has heard, and how many requests it has handled without an answer. */
  lemma ReadIsTrue(s: System)
    requires Reachable(s)
    ensures s.ctl.creation == |Heard(s.reqs, Creation)| && s.ctl.prompt == |Heard(s.reqs, Prompt)|
    ensures HeldCount(s.ctl.gates) == |Unanswered(s.reqs)|
  {
    ReachableLedger(s);
    HeldNumber(s);
  }

  lemma HeldNumber(s: System)
    requires GatesOk(s.ctl.gates) && HeldOk(s.ctl.gates, s.reqs) && ReqsOk(s.reqs, s.disables, s.fetchOn, s.forgets)
    ensures HeldCount(s.ctl.gates) == |Unanswered(s.reqs)|
  {
    HeldCountIsSize(s, |s.ctl.gates|);
    assert s.ctl.gates[..|s.ctl.gates|] == s.ctl.gates;
    HeldAreUnanswered(s);
  }
}
