/**
 Runs of the gate system, how they are put together, and what no step of them takes
 back.  `Follows` relates the state before a step to the state after it: gates stay
 what they are, and once released or failed remain so; requests keep what was decided
 about them; a refusal is new only under a failed gate, a verdict only with the refusals
 it sends.  `StepFollows` proves it of every step, and `RunOnward` draws from it what
 holds between any two states of a run.
 */
module GateRuns {
  import opened Basics
  import opened GateProtocol
  import opened GateSystem
  import opened GateSteps

  ghost predicate Reachable(s: System) {
    exists forgets, es :: Legal(Start(forgets), es) && Run(Start(forgets), es) == s
  }

  lemma ReachableInv(s: System)
    requires Reachable(s)
    ensures Inv(s)
  {
    var forgets, es :| Legal(Start(forgets), es) && Run(Start(forgets), es) == s;
    StartInv(forgets);
    RunKeeps(Start(forgets), es);
  }

  // -------- putting runs together --------

  lemma {:induction false} RunAppend(s: System, es: seq<Event>, fs: seq<Event>)
    requires Legal(s, es) && Legal(Run(s, es), fs)
    ensures Legal(s, es + fs) && Run(s, es + fs) == Run(Run(s, es), fs)
    decreases |es|
  {
    if es == [] {
      assert es + fs == fs;
    } else {
      RunAppend(Next(s, es[0]), es[1..], fs);
      assert (es + fs)[1..] == es[1..] + fs;
    }
  }

  lemma RunOne(s: System, e: Event)
    requires Enabled(s, e)
    ensures Legal(s, [e]) && Run(s, [e]) == Next(s, e)
  {
    assert [e][1..] == [];
    assert Legal(Next(s, e), []) && Run(Next(s, e), []) == Next(s, e);
  }

  /** One step before. */
  lemma RunCons(s: System, e: Event, rest: seq<Event>)
    requires Enabled(s, e) && Legal(Next(s, e), rest)
    ensures Legal(s, [e] + rest) && Run(s, [e] + rest) == Run(Next(s, e), rest)
  {
    assert ([e] + rest)[1..] == rest;
  }

  /** One more step. */
  lemma RunThen(s: System, es: seq<Event>, e: Event)
    requires Legal(s, es) && Enabled(Run(s, es), e)
    ensures Legal(s, es + [e]) && Run(s, es + [e]) == Next(Run(s, es), e)
  {
    RunOne(Run(s, es), e);
    RunAppend(s, es, [e]);
  }

  // -------- what one step does to gates and requests --------

  predicate Later(r: Req, q: Req) {
    && q.kind == r.kind
    && r.epoch <= q.epoch
    && (r.armed > 0 ==> q.armed == r.armed && q.asked == r.asked)
    && (r.armed > 0 && q.stage == Request ==> r.stage == Request && q.epoch == r.epoch)
  }

  predicate LetOn(q: Req) { q.place.Outbox? && q.place.command.ContinueRequest? }

  predicate Refusing(r: Req) { r.place.Outbox? && r.place.command.FulfillRequest? }

  /** A refusal is on its way, has arrived, or has missed. */
  predicate TurnedAway(r: Req) { Refusing(r) || (r.place == Done && (r.rejected || r.misses == 1)) }

  ghost predicate FailedWith(gates: seq<Gate>, j: nat, id: RequestId) {
    j < |gates| && gates[j].failed && id in gates[j].ids
  }

  /** A request comes to the inbox only by pausing anew, with interception on, and to a gate only from the inbox. */
  predicate Moves(r: Req, q: Req, fetchOn: bool, disables: nat) {
    && (q.epoch == r.epoch || (r.place == Done && q.place == Inbox && fetchOn && q.epoch == disables))
    && (q.place == Inbox ==> r.place == Inbox || (r.place == Done && fetchOn && q.epoch == disables))
    && (q.place.InGate? ==> q.place == r.place || (r.place == Inbox && r.kind.Some?))
  }

  /** What was decided stays decided; a refusal is not taken back; and who is let go on
      is asked for exactly if a response gate is open. */
  ghost predicate ReqFollows(gates: seq<Gate>, id: RequestId, r: Req, q: Req, fetchOn: bool, disables: nat) {
    && Later(r, q) && Moves(r, q, fetchOn, disables)
    && (TurnedAway(r) ==> TurnedAway(q))
    && (q.rejected || Refusing(q) ==> r.rejected || Refusing(r) || exists j: nat :: FailedWith(gates, j, id))
    && (LetOn(q) && q.place != r.place ==>
          q.armed == |gates| && (q.asked <==> q.kind.Some? && HasOpen(gates, q.kind.value, Response)))
  }

  /** A gate stays what it is; once failed it stays as it is. */
  predicate GateFollows(g: Gate, h: Gate) {
    && SameSort(g, h) && (g.released ==> h.released)
    && (g.failed ==> h.failed && h.ids == g.ids)
  }

  ghost predicate GatesFollow(before: seq<Gate>, after: seq<Gate>) {
    && |before| <= |after|
    && forall j :: 0 <= j < |before| ==> GateFollows(before[j], after[j])
  }

  /** A verdict is new only together with the refusal it sends. */
  ghost predicate VerdictsFollow(before: seq<Gate>, after: seq<Gate>, reqs: Requests) {
    forall j: nat, id :: FailedWith(after, j, id) ==> FailedWith(before, j, id) || (id in reqs && Refusing(reqs[id]))
  }

  predicate NewHere(q: Req) { q.place == Inbox && !q.rejected }

  ghost predicate Follows(s: System, t: System) {
    && t.forgets == s.forgets && s.disables <= t.disables && (s.ctl.failure ==> t.ctl.failure)
    && GatesFollow(s.ctl.gates, t.ctl.gates)
    && VerdictsFollow(s.ctl.gates, t.ctl.gates, t.reqs)
    && (forall id :: id in s.reqs ==> id in t.reqs && ReqFollows(t.ctl.gates, id, s.reqs[id], t.reqs[id], s.fetchOn, s.disables))
    && (forall id :: id in t.reqs && id !in s.reqs ==> NewHere(t.reqs[id]) && s.fetchOn && t.reqs[id].epoch == s.disables)
  }

  /** Nothing is done to any request. */
  lemma SameFollows(s: System, t: System)
    requires t.reqs == s.reqs && t.forgets == s.forgets && s.disables <= t.disables && (s.ctl.failure ==> t.ctl.failure)
    requires s.ctl.gates <= t.ctl.gates
    requires forall j :: |s.ctl.gates| <= j < |t.ctl.gates| ==> t.ctl.gates[j].ids == []
    ensures Follows(s, t)
  {
    assert forall j :: 0 <= j < |s.ctl.gates| ==> t.ctl.gates[j] == s.ctl.gates[j];
  }

  /** Something is done to one request, while no verdict changes. */
  lemma OneFollows(s: System, t: System, id: RequestId, q: Req)
    requires id in s.reqs && t.reqs == s.reqs[id := q] && t.forgets == s.forgets && s.disables <= t.disables
    requires s.ctl.failure ==> t.ctl.failure
    requires GatesFollow(s.ctl.gates, t.ctl.gates)
    requires forall j: nat, x :: FailedWith(t.ctl.gates, j, x) ==> FailedWith(s.ctl.gates, j, x)
    requires ReqFollows(t.ctl.gates, id, s.reqs[id], q, s.fetchOn, s.disables)
    ensures Follows(s, t)
  {
  }

  lemma BeginFollows(s: System, id: RequestId, kind: Option<Kind>)
    requires Enabled(s, Begin(id, kind))
    ensures Follows(s, Next(s, Begin(id, kind))) && Next(s, Begin(id, kind)).ctl == s.ctl
  {
  }

  lemma ArriveFollows(s: System, id: RequestId)
    requires ReqsOk(s.reqs, s.disables, s.fetchOn, s.forgets) && Enabled(s, Arrive(id))
    ensures Follows(s, Next(s, Arrive(id))) && Next(s, Arrive(id)).ctl == s.ctl
  {
    assert ReqOk(s.reqs[id], s.disables, s.fetchOn, s.forgets);
    OneFollows(s, Next(s, Arrive(id)), id, Next(s, Arrive(id)).reqs[id]);
  }

  lemma AnsweredFollows(gates: seq<Gate>, id: RequestId, r: Req, cmd: Command, fetchOn: bool, disables: nat)
    requires IsAnswer(cmd) && r.place == Outbox(cmd) && !r.rejected && r.misses == 0
    ensures ReqFollows(gates, id, r, Answered(r, cmd), fetchOn, disables)
  {
  }

  lemma AnswerFollows(s: System)
    requires OutboxOk(s.toBrowser, s.reqs) && ReqsOk(s.reqs, s.disables, s.fetchOn, s.forgets)
    requires s.toBrowser != [] && IsAnswer(s.toBrowser[0].command)
    ensures Follows(s, Next(s, BrowserTurn)) && Next(s, BrowserTurn).ctl == s.ctl
  {
    var cmd := s.toBrowser[0].command;
    AnswerEffect(s);
    assert ReqOk(s.reqs[cmd.id], s.disables, s.fetchOn, s.forgets);
    AnsweredFollows(s.ctl.gates, cmd.id, s.reqs[cmd.id], cmd, s.fetchOn, s.disables);
    OneFollows(s, Next(s, BrowserTurn), cmd.id, Answered(s.reqs[cmd.id], cmd));
  }

  lemma LetGoFollows(gates: seq<Gate>, id: RequestId, r: Req, forgets: bool, fetchOn: bool, disables: nat)
    ensures ReqFollows(gates, id, r, LetGo(r, forgets), fetchOn, disables)
  {
  }

  lemma DisableFollows(s: System)
    requires s.toBrowser != [] && s.toBrowser[0].command == FetchDisable
    ensures Follows(s, Switched(s, s.toBrowser[0]))
  {
    forall id | id in s.reqs
      ensures ReqFollows(s.ctl.gates, id, s.reqs[id], AllLetGo(s.reqs, s.forgets)[id], s.fetchOn, s.disables)
    {
      assert AllLetGo(s.reqs, s.forgets)[id] == LetGo(s.reqs[id], s.forgets);
      LetGoFollows(s.ctl.gates, id, s.reqs[id], s.forgets, s.fetchOn, s.disables);
    }
  }

  lemma TurnFollows(s: System)
    requires OutboxOk(s.toBrowser, s.reqs) && ReqsOk(s.reqs, s.disables, s.fetchOn, s.forgets) && s.toBrowser != []
    ensures Follows(s, Next(s, BrowserTurn)) && Next(s, BrowserTurn).ctl == s.ctl
  {
    match s.toBrowser[0].command
    case FetchEnable =>
      SwitchEffect(s);
      SameFollows(s, Switched(s, s.toBrowser[0]));
    case FetchDisable =>
      SwitchEffect(s);
      DisableFollows(s);
    case _ => AnswerFollows(s);
  }

  lemma HoldFollows(s: System, id: RequestId, stage: Stage, now: int)
    requires Handling(s, id, stage) && Wanted(s.ctl.gates, s.reqs[id].kind, stage)
    requires GatesOk(s.ctl.gates) && ReqOk(s.reqs[id], s.disables, s.fetchOn, s.forgets)
    ensures Follows(s, Next(s, Deliver(now))) && |Next(s, Deliver(now)).ctl.gates| == |s.ctl.gates|
  {
    var j := FirstOpen(s.ctl.gates, s.reqs[id].kind.value, stage);
    HoldEffect(s, id, stage, now);
    assert GateOk(s.ctl.gates[j]);
    OneFollows(s, Next(s, Deliver(now)), id, Taken(s.reqs[id], j));
  }

  lemma PassFollows(s: System, id: RequestId, stage: Stage, now: int)
    requires Handling(s, id, stage) && !Wanted(s.ctl.gates, s.reqs[id].kind, stage)
    requires ReqOk(s.reqs[id], s.disables, s.fetchOn, s.forgets)
    ensures Follows(s, Next(s, Deliver(now))) && |Next(s, Deliver(now)).ctl.gates| == |s.ctl.gates|
  {
    PassEffect(s, id, stage, now);
    OneFollows(s, Next(s, Deliver(now)), id, PassedOn(s.ctl.gates, id, s.reqs[id]));
  }

  /** An outcome concerns the controller's flags alone. */
  lemma ReplyFrame(s: System, origin: Origin, ok: bool)
    ensures var t := HandleReply(s, origin, ok);
            && t.reqs == s.reqs && t.forgets == s.forgets && t.disables == s.disables && s.toBrowser <= t.toBrowser
            && t.ctl == s.ctl.(fetchEnabled := t.ctl.fetchEnabled, disposed := t.ctl.disposed, failure := t.ctl.failure)
            && (s.ctl.failure ==> t.ctl.failure)
  {
  }

  lemma DeliverFollows(s: System, now: int)
    requires Inv(s) && s.toController != []
    ensures Follows(s, Next(s, Deliver(now))) && |Next(s, Deliver(now)).ctl.gates| == |s.ctl.gates|
  {
    match s.toController[0]
    case Pausing(id, kind, stage) =>
      HandlingFirst(s);
      assert ReqOk(s.reqs[id], s.disables, s.fetchOn, s.forgets);
      if Wanted(s.ctl.gates, kind, stage) { HoldFollows(s, id, stage, now); } else { PassFollows(s, id, stage, now); }
    case Reply(origin, ok) =>
      ReplyFrame(s.(toController := s.toController[1..]), origin, ok);
      SameFollows(s, Next(s, Deliver(now)));
  }

  lemma LeavingFollows(gates: seq<Gate>, g: Gate, j: nat, fail: bool, id: RequestId, r: Req, fetchOn: bool, disables: nat)
    requires r.place == InGate(j) && r.kind == Some(g.kind) && r.stage == g.stage && !r.rejected
    requires g.stage == Request ==> r.armed == 0
    requires id in g.ids && j < |gates| && gates[j].failed == fail && gates[j].ids == g.ids
    ensures ReqFollows(gates, id, r, Leaving(gates, g, fail, id, r), fetchOn, disables)
    ensures fail ==> Refusing(Leaving(gates, g, fail, id, r))
  {
    assert fail ==> FailedWith(gates, j, id);
  }

  lemma FinishFollows(s: System, j: nat, fail: bool, late: bool, origin: Origin)
    requires HeldOk(s.ctl.gates, s.reqs) && ReqsOk(s.reqs, s.disables, s.fetchOn, s.forgets) && GatesOk(s.ctl.gates)
    requires j < |s.ctl.gates| && (late ==> !fail && s.ctl.gates[j].timer)
    ensures var t := Perform(s, FinishOrExpire(s.ctl, j, fail, late), origin);
            Follows(s, t) && |t.ctl.gates| == |s.ctl.gates|
  {
    assert GateOk(s.ctl.gates[j]);
    if s.ctl.gates[j].released {
      FinishAgain(s, j, fail, origin);
      SameFollows(s, s);
    } else {
      FinishEffect(s, j, fail, late, origin);
      WereHeld(s.ctl.gates, s.reqs, j);
      var g := s.ctl.gates[j];
      LeftFollows(s.ctl.gates, s.ctl.gates[j := Finished(g, fail, late)], s.reqs,
                  Perform(s, FinishOrExpire(s.ctl, j, fail, late), origin).reqs, j, fail, s.disables, s.fetchOn, s.forgets);
    }
  }

  lemma LeftFollows(before: seq<Gate>, gates: seq<Gate>, reqs: Requests, after: Requests, j: nat, fail: bool,
                    disables: nat, fetchOn: bool, forgets: bool)
    requires ReqsOk(reqs, disables, fetchOn, forgets) && j < |before| && AllIn(before[j], reqs, j)
    requires |gates| == |before| && gates == before[j := gates[j]] && !before[j].failed
    requires SameSort(gates[j], before[j]) && gates[j].released && gates[j].failed == fail && gates[j].ids == before[j].ids
    requires Left(gates, before[j], fail, reqs, after)
    ensures GatesFollow(before, gates) && VerdictsFollow(before, gates, after)
    ensures forall id :: id in reqs ==> id in after && ReqFollows(gates, id, reqs[id], after[id], fetchOn, disables)
  {
    forall id | id in reqs && id in before[j].ids
      ensures ReqFollows(gates, id, reqs[id], after[id], fetchOn, disables) && (fail ==> Refusing(after[id]))
    {
      assert ReqOk(reqs[id], disables, fetchOn, forgets);
      LeavingFollows(gates, before[j], j, fail, id, reqs[id], fetchOn, disables);
    }
    forall i: nat, id | FailedWith(gates, i, id) ensures FailedWith(before, i, id) || (id in after && Refusing(after[id])) {
      assert i != j ==> gates[i] == before[i];
    }
  }

  lemma DisposeFollows(s: System)
    requires HeldOk(s.ctl.gates, s.reqs) && ReqsOk(s.reqs, s.disables, s.fetchOn, s.forgets) && GatesOk(s.ctl.gates)
    requires Enabled(s, DisposeNext)
    ensures Follows(s, Next(s, DisposeNext)) && |Next(s, DisposeNext).ctl.gates| == |s.ctl.gates|
  {
    if s.disposal.next < |s.ctl.gates| {
      FinishFollows(s, s.disposal.next, false, false, Teardown);
    } else {
      SameFollows(s, Next(s, DisposeNext));
    }
  }

  /** Arming, switching and the call of `dispose` are the controller's own affair. */
  predicate Control(e: Event) { e.ArmGate? || e == Suspend || e == Resume || e == Dispose }

  lemma ControlFrame(s: System, e: Event)
    requires Control(e)
    ensures var t := Next(s, e);
            && t.reqs == s.reqs && t.disables == s.disables && t.forgets == s.forgets
            && t.ctl.creation == s.ctl.creation && t.ctl.prompt == s.ctl.prompt
            && s.toBrowser <= t.toBrowser && s.ctl.gates <= t.ctl.gates
            && (!e.ArmGate? ==> t.ctl == s.ctl)
            && forall j :: |s.ctl.gates| <= j < |t.ctl.gates| ==> t.ctl.gates[j].ids == []
  {
  }

  lemma ControlFollows(s: System, e: Event)
    requires Control(e)
    ensures Follows(s, Next(s, e)) && (!e.ArmGate? ==> |Next(s, e).ctl.gates| == |s.ctl.gates|)
  {
    ControlFrame(s, e);
    SameFollows(s, Next(s, e));
  }

  lemma GateStepFollows(s: System, e: Event)
    requires HeldOk(s.ctl.gates, s.reqs) && ReqsOk(s.reqs, s.disables, s.fetchOn, s.forgets) && GatesOk(s.ctl.gates)
    requires Enabled(s, e) && (e.FinishGate? || e.ExpireGate?)
    ensures Follows(s, Next(s, e)) && |Next(s, e).ctl.gates| == |s.ctl.gates|
  {
    match e
    case FinishGate(j, fail) => FinishFollows(s, j, fail, false, Caller);
    case ExpireGate(j) => FinishFollows(s, j, false, true, Timer);
  }

  lemma BrowserFollows(s: System, e: Event)
    requires OutboxOk(s.toBrowser, s.reqs) && ReqsOk(s.reqs, s.disables, s.fetchOn, s.forgets)
    requires Enabled(s, e) && (e.Begin? || e.Arrive? || e == BrowserTurn)
    ensures Follows(s, Next(s, e)) && |Next(s, e).ctl.gates| == |s.ctl.gates|
  {
    match e
    case Begin(id, kind) => BeginFollows(s, id, kind);
    case Arrive(id) => ArriveFollows(s, id);
    case BrowserTurn => TurnFollows(s);
  }

  lemma StepFollows(s: System, e: Event)
    requires Inv(s) && Enabled(s, e)
    ensures Follows(s, Next(s, e))
    ensures !e.ArmGate? ==> |Next(s, e).ctl.gates| == |s.ctl.gates|
  {
    if Control(e) {
      ControlFollows(s, e);
    } else if e.Deliver? {
      DeliverFollows(s, e.now);
    } else if e.FinishGate? || e.ExpireGate? {
      GateStepFollows(s, e);
    } else if e == DisposeNext {
      DisposeFollows(s);
    } else {
      BrowserFollows(s, e);
    }
  }

  // -------- what no later step undoes --------

  ghost predicate Onward(s: System, t: System) {
    && t.forgets == s.forgets
    && s.disables <= t.disables
    && (s.ctl.failure ==> t.ctl.failure)
    && |s.ctl.gates| <= |t.ctl.gates|
    && (forall j :: 0 <= j < |s.ctl.gates| ==>
          SameSort(s.ctl.gates[j], t.ctl.gates[j]) && (s.ctl.gates[j].released ==> t.ctl.gates[j].released))
    && (forall id :: id in s.reqs ==> id in t.reqs && Later(s.reqs[id], t.reqs[id]))
  }

  lemma OnwardTransitive(s: System, t: System, u: System)
    requires Onward(s, t) && Onward(t, u)
    ensures Onward(s, u)
  {
    forall j | 0 <= j < |s.ctl.gates|
      ensures SameSort(s.ctl.gates[j], u.ctl.gates[j]) && (s.ctl.gates[j].released ==> u.ctl.gates[j].released)
    {
      assert SameSort(s.ctl.gates[j], t.ctl.gates[j]);
    }
  }

  lemma FollowsOnward(s: System, t: System)
    requires Follows(s, t)
    ensures Onward(s, t)
  {
  }

  lemma StepOnward(s: System, e: Event)
    requires Inv(s) && Enabled(s, e)
    ensures Onward(s, Next(s, e))
  {
    StepFollows(s, e);
    FollowsOnward(s, Next(s, e));
  }

  lemma {:induction false} RunOnward(s: System, es: seq<Event>)
    requires Inv(s) && Legal(s, es)
    ensures Inv(Run(s, es)) && Onward(s, Run(s, es))
    decreases |es|
  {
    if es != [] {
      StepKeeps(s, es[0]);
      StepOnward(s, es[0]);
      RunOnward(Next(s, es[0]), es[1..]);
      OnwardTransitive(s, Next(s, es[0]), Run(s, es));
    }
  }
}
