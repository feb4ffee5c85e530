/**
 Every step keeps the invariant of the gate system.  For each kind of step there is
 first a lemma with its whole effect (`HoldEffect`, `PassEffect`, `AnswerEffect`,
 `FinishEffect`), and then the parts of the invariant are followed separately: the
 queues with the disposal and its failures (names in `Flow`), who is where (`Places`),
 each request by itself (`Reqs`) and the responses that must not escape (`Escape`).
 `StepKeeps` puts them together, and `RunKeeps` goes on to whole runs.
 */
module GateSteps {
  import opened Basics
  import opened GateProtocol
  import opened GateSystem
  import opened GateFrames

  // -------- frames of the parts that concern the whole system --------

  /** No error comes or goes. */
  lemma ErrorsFrame(failure: bool, msgs: seq<Message>, after: seq<Message>, missed: set<Origin>, p: Progress, q: Progress)
    requires ErrorsOk(failure, msgs, missed, p) && p.Closed? == q.Closed? && (p == Closed(true) <==> q == Closed(true))
    requires forall o :: HasError(after, o) <==> HasError(msgs, o)
    ensures ErrorsOk(failure, after, missed, q)
  {
  }

  /** Queues and flags move on together, and no part of a disposal begins or ends. */
  lemma DisposalFrame(s: System, t: System)
    requires DisposalOk(s) && !s.disposal.Closed? && t.disposal == s.disposal
    requires t.ctl.disposed == s.ctl.disposed
    requires |s.ctl.gates| <= |t.ctl.gates|
    requires forall j :: 0 <= j < |s.ctl.gates| && s.ctl.gates[j].released ==> t.ctl.gates[j].released
    requires t.fetchOn == FetchAfter(t.ctl.fetchEnabled, t.toController)
    requires forall o | o == Detaching || o == Disposing || o == Teardown ::
               Pending(t.toBrowser, t.toController, o) ==>
                 Pending(s.toBrowser, s.toController, o) || (o == Teardown && t.disposal.Draining?)
    requires Pending(s.toBrowser, s.toController, Disposing) ==> Pending(t.toBrowser, t.toController, Disposing)
    ensures DisposalOk(t)
  {
  }

  // -------- the browser's steps --------

  /** A message the browser emits that is no outcome. */
  lemma PausingFlow(s: System, t: System, m: Message)
    requires Flow(s) && m.Pausing? && t == Emit(s.(reqs := t.reqs), m) && MissedOk(t.missed, t.reqs)
    ensures Flow(t)
  {
    if !s.disposal.Closed? {
      FetchAppend(s.ctl.fetchEnabled, s.toController, m);
      FetchOne(s.fetchOn, m);
      forall o ensures Pending(t.toBrowser, t.toController, o) <==> Pending(s.toBrowser, s.toController, o)
               ensures HasError(t.toController, o) <==> HasError(s.toController, o) {
        PendingEmitted(s.toBrowser, s.toController, m, o);
        ErrorEmitted(s.toController, m, o);
      }
      DisposalFrame(s, t);
      ErrorsFrame(s.ctl.failure, s.toController, t.toController, s.missed, s.disposal, t.disposal);
    }
  }

  lemma BeginKeeps(s: System, id: RequestId, kind: Option<Kind>)
    requires Inv(s) && Enabled(s, Begin(id, kind))
    ensures Inv(Next(s, Begin(id, kind)))
  {
    BeginFlow(s, id, kind);
    NewRequest(s.ctl.gates, s.toBrowser, s.reqs, id, Starting(kind, s.disables), s.disables);
    OneReq(s.reqs, id, Starting(kind, s.disables), s.disables, s.fetchOn, s.forgets);
  }

  lemma BeginFlow(s: System, id: RequestId, kind: Option<Kind>)
    requires Flow(s) && InboxOk(s.toController, s.reqs, s.disposal.Closed?) && Enabled(s, Begin(id, kind))
    ensures var t := Next(s, Begin(id, kind));
            Flow(t) && InboxOk(t.toController, t.reqs, t.disposal.Closed?)
  {
    var t := Next(s, Begin(id, kind));
    MissedFrame(s.missed, s.reqs, t.reqs);
    PausingFlow(s, t, Pausing(id, kind, Request));
    if !s.disposal.Closed? { InboxPause(s.toController, s.reqs, t.reqs, id); }
  }

  /** A request joins that no gate holds and nobody has answered. */
  lemma NewRequest(gates: seq<Gate>, cmds: seq<Sent>, reqs: Requests, id: RequestId, r: Req, disables: nat)
    requires HeldOk(gates, reqs) && ListsOk(gates, reqs) && OutboxOk(cmds, reqs)
    requires NoEscape(gates, reqs, disables) && ArmedBound(gates, reqs)
    requires id !in reqs && r.place == Inbox && r.armed == 0
    ensures var after := reqs[id := r];
            && HeldOk(gates, after) && ListsOk(gates, after) && OutboxOk(cmds, after)
            && NoEscape(gates, after, disables) && ArmedBound(gates, after)
  {
    var after := reqs[id := r];
    HeldFrame(gates, reqs, after);
    ListsFrame(gates, reqs, after);
    OutboxFrame(cmds, reqs, after);
    EscapeFrame(gates, reqs, after, disables);
  }

  lemma OneReq(reqs: Requests, id: RequestId, r: Req, disables: nat, fetchOn: bool, forgets: bool)
    requires ReqsOk(reqs, disables, fetchOn, forgets) && ReqOk(r, disables, fetchOn, forgets)
    ensures ReqsOk(reqs[id := r], disables, fetchOn, forgets)
  {
  }

  lemma ArriveKeeps(s: System, id: RequestId)
    requires Inv(s) && Enabled(s, Arrive(id))
    ensures Inv(Next(s, Arrive(id)))
  {
    if s.reqs[id].phase.intercept && s.fetchOn { StopKeeps(s, id); } else { DeliveredKeeps(s, id); }
  }

  function Stopped(r: Req, disables: nat): Req {
    r.(phase := AtResponse, stage := Response, place := Inbox, epoch := disables, pauses := r.pauses + 1)
  }

  /** A response pauses. */
  lemma StopKeeps(s: System, id: RequestId)
    requires Inv(s) && Enabled(s, Arrive(id)) && s.reqs[id].phase.intercept && s.fetchOn
    ensures Inv(Next(s, Arrive(id)))
  {
    assert ReqOk(s.reqs[id], s.disables, s.fetchOn, s.forgets);
    StoppedFlow(s, Next(s, Arrive(id)), id);
    StoppedReqs(s.ctl.gates, s.reqs, id, s.disables, s.fetchOn, s.forgets);
    Moved(s.ctl.gates, s.toBrowser, s.reqs, id, Stopped(s.reqs[id], s.disables));
  }

  lemma StoppedFlow(s: System, t: System, id: RequestId)
    requires Flow(s) && InboxOk(s.toController, s.reqs, s.disposal.Closed?) && id in s.reqs && s.reqs[id].place == Done
    requires t == Emit(s.(reqs := s.reqs[id := Stopped(s.reqs[id], s.disables)]), Pausing(id, s.reqs[id].kind, Response))
    ensures Flow(t) && InboxOk(t.toController, t.reqs, t.disposal.Closed?)
  {
    MissedFrame(s.missed, s.reqs, t.reqs);
    PausingFlow(s, t, Pausing(id, s.reqs[id].kind, Response));
    if !s.disposal.Closed? { InboxPause(s.toController, s.reqs, t.reqs, id); }
  }

  lemma StoppedReqs(gates: seq<Gate>, reqs: Requests, id: RequestId, disables: nat, fetchOn: bool, forgets: bool)
    requires ReqsOk(reqs, disables, fetchOn, forgets) && NoEscape(gates, reqs, disables)
    requires id in reqs && reqs[id].phase == Flying(true) && fetchOn
    ensures reqs[id].place == Done
    ensures ReqsOk(reqs[id := Stopped(reqs[id], disables)], disables, fetchOn, forgets)
    ensures NoEscape(gates, reqs[id := Stopped(reqs[id], disables)], disables)
  {
    var q := Stopped(reqs[id], disables);
    assert ReqOk(reqs[id], disables, fetchOn, forgets);
    assert ReqOk(q, disables, fetchOn, forgets);
    OneReq(reqs, id, q, disables, fetchOn, forgets);
    EscapeOne(gates, reqs, id, q, disables);
  }

  /** A response is delivered to the page. */
  lemma DeliveredKeeps(s: System, id: RequestId)
    requires Inv(s) && Enabled(s, Arrive(id)) && !(s.reqs[id].phase.intercept && s.fetchOn)
    ensures Inv(Next(s, Arrive(id)))
  {
    DeliveredFlow(s, id);
    DeliveredPlaces(s, id);
    DeliveredReqs(s.ctl.gates, s.reqs, id, s.disables, s.fetchOn, s.forgets);
  }

  lemma DeliveredFlow(s: System, id: RequestId)
    requires Flow(s) && id in s.reqs
    ensures Flow(s.(reqs := s.reqs[id := s.reqs[id].(phase := Settled)]))
  {
    MissedFrame(s.missed, s.reqs, s.reqs[id := s.reqs[id].(phase := Settled)]);
  }

  lemma DeliveredPlaces(s: System, id: RequestId)
    requires HeldOk(s.ctl.gates, s.reqs) && ListsOk(s.ctl.gates, s.reqs) && ArmedBound(s.ctl.gates, s.reqs)
    requires InboxOk(s.toController, s.reqs, s.disposal.Closed?) && OutboxOk(s.toBrowser, s.reqs) && id in s.reqs
    ensures var after := s.reqs[id := s.reqs[id].(phase := Settled)];
            && HeldOk(s.ctl.gates, after) && ListsOk(s.ctl.gates, after) && ArmedBound(s.ctl.gates, after)
            && InboxOk(s.toController, after, s.disposal.Closed?) && OutboxOk(s.toBrowser, after)
  {
    var after := s.reqs[id := s.reqs[id].(phase := Settled)];
    PhaseOnly(s.ctl.gates, s.toController, s.toBrowser, s.reqs, after, s.disposal.Closed?);
  }

  lemma DeliveredReqs(gates: seq<Gate>, reqs: Requests, id: RequestId, disables: nat, fetchOn: bool, forgets: bool)
    requires ReqsOk(reqs, disables, fetchOn, forgets) && NoEscape(gates, reqs, disables)
    requires id in reqs && reqs[id].phase.Flying? && !(reqs[id].phase.intercept && fetchOn)
    ensures ReqsOk(reqs[id := reqs[id].(phase := Settled)], disables, fetchOn, forgets)
    ensures NoEscape(gates, reqs[id := reqs[id].(phase := Settled)], disables)
  {
    var q := reqs[id].(phase := Settled);
    assert ReqOk(reqs[id], disables, fetchOn, forgets);
    assert ReqOk(q, disables, fetchOn, forgets);
    OneReq(reqs, id, q, disables, fetchOn, forgets);
    EscapeOne(gates, reqs, id, q, disables);
  }

  predicate Elsewhere(r: Req, q: Req) {
    && q.kind == r.kind && q.stage == r.stage && q.place == r.place && q.asked == r.asked && q.armed == r.armed
  }

  /** Things happen to requests only in the browser. */
  lemma PhaseOnly(gates: seq<Gate>, msgs: seq<Message>, cmds: seq<Sent>, before: Requests, after: Requests, closed: bool)
    requires HeldOk(gates, before) && ListsOk(gates, before) && ArmedBound(gates, before)
    requires InboxOk(msgs, before, closed) && OutboxOk(cmds, before)
    requires after.Keys == before.Keys && forall id :: id in before ==> Elsewhere(before[id], after[id])
    ensures HeldOk(gates, after) && ListsOk(gates, after) && ArmedBound(gates, after)
    ensures InboxOk(msgs, after, closed) && OutboxOk(cmds, after)
  {
    assert forall id :: id in after ==> id in before.Keys;
    HeldFrame(gates, before, after);
    ListsFrame(gates, before, after);
    InboxFrame(msgs, before, after, closed);
    OutboxFrame(cmds, before, after);
  }

  /** A request goes from nowhere in particular to nowhere in particular: not in a gate, not in the outbox. */
  lemma Moved(gates: seq<Gate>, cmds: seq<Sent>, reqs: Requests, id: RequestId, q: Req)
    requires HeldOk(gates, reqs) && ListsOk(gates, reqs) && OutboxOk(cmds, reqs) && ArmedBound(gates, reqs)
    requires id in reqs && !reqs[id].place.Outbox? && !reqs[id].place.InGate? && !q.place.Outbox? && !q.place.InGate?
    requires q.kind == reqs[id].kind && (reqs[id].stage == Response ==> q.stage == Response) && q.armed == reqs[id].armed
    ensures var after := reqs[id := q];
            HeldOk(gates, after) && ListsOk(gates, after) && OutboxOk(cmds, after) && ArmedBound(gates, after)
  {
    var after := reqs[id := q];
    HeldFrame(gates, reqs, after);
    ListsFrame(gates, reqs, after);
    OutboxFrame(cmds, reqs, after);
  }

  /** Where the request stands as to its response is no better and no worse. */
  predicate SameEscape(r: Req, q: Req) {
    && q.kind == r.kind && q.armed == r.armed && q.epoch == r.epoch && q.asked == r.asked
    && (q.stage == Response && (q.place.Outbox? || q.place == Done) ==>
          r.stage == Response && (r.place.Outbox? || r.place == Done))
  }

  /** One request changes, and its own response does not escape: it was let go on by
      nobody, or its response has just been stopped, or nothing has changed. */
  lemma EscapeOne(gates: seq<Gate>, reqs: Requests, id: RequestId, q: Req, disables: nat)
    requires NoEscape(gates, reqs, disables) && id in reqs
    requires q.armed == 0 || (q.asked && q.stage == Response && q.place == Inbox) || SameEscape(reqs[id], q)
    ensures NoEscape(gates, reqs[id := q], disables)
  {
    EscapeFrameOne(gates, reqs, reqs[id := q], id, disables);
  }

  lemma EscapeFrameOne(gates: seq<Gate>, before: Requests, after: Requests, id: RequestId, disables: nat)
    requires NoEscape(gates, before, disables) && id in before && id in after && after == before[id := after[id]]
    requires after[id].armed == 0 || (after[id].asked && after[id].stage == Response && after[id].place == Inbox)
             || SameEscape(before[id], after[id])
    ensures NoEscape(gates, after, disables)
  {
    forall other, j: nat | other in after && Waiting(gates, after[other], disables, j)
      ensures after[other].asked
      ensures after[other].stage == Response && (after[other].place.Outbox? || after[other].place == Done) ==>
                exists h: nat :: CaughtBefore(gates, other, j, h)
    {
      if other != id || SameEscape(before[id], after[id]) { assert Waiting(gates, before[other], disables, j); }
    }
  }

  /** Nobody is let go on, and what was answered stays answered. */
  lemma EscapeFrame(gates: seq<Gate>, before: Requests, after: Requests, disables: nat)
    requires NoEscape(gates, before, disables)
    requires forall id :: id in after && after[id].armed > 0 ==>
               && id in before
               && after[id].armed == before[id].armed && after[id].asked == before[id].asked
               && after[id].kind == before[id].kind && after[id].epoch == before[id].epoch
               && (after[id].stage == Response && (after[id].place.Outbox? || after[id].place == Done) ==>
                     before[id].stage == Response && (before[id].place.Outbox? || before[id].place == Done))
    ensures NoEscape(gates, after, disables)
  {
    forall id, j: nat | id in after && Waiting(gates, after[id], disables, j)
      ensures after[id].asked
      ensures after[id].stage == Response && (after[id].place.Outbox? || after[id].place == Done) ==>
                exists h: nat :: CaughtBefore(gates, id, j, h)
    {
      assert Waiting(gates, before[id], disables, j);
    }
  }

  /** The browser processes a command: its outcome goes back in its place. */
  lemma ProcessFlow(s: System, t: System, fetchOn: bool, ok: bool)
    requires Flow(s) && s.toBrowser != []
    requires t == Outcome(s.(toBrowser := s.toBrowser[1..], reqs := t.reqs, fetchOn := fetchOn, disables := t.disables),
                          s.toBrowser[0].origin, ok)
    requires fetchOn == match s.toBrowser[0].command case FetchEnable => true case FetchDisable => false case _ => s.fetchOn
    requires MissedOk(t.missed, t.reqs)
    ensures Flow(t)
  {
    ProcessErrors(s, t, ok);
    ProcessDisposal(s, t, fetchOn, ok);
  }

  lemma ProcessErrors(s: System, t: System, ok: bool)
    requires ErrorsOk(s.ctl.failure, s.toController, s.missed, s.disposal) && s.toBrowser != []
    requires t.ctl == s.ctl && t.disposal == s.disposal
    requires t.missed == s.missed + (if ok then {} else {s.toBrowser[0].origin})
    requires t.toController == if s.disposal.Closed? then s.toController else s.toController + [Reply(s.toBrowser[0].origin, ok)]
    ensures ErrorsOk(t.ctl.failure, t.toController, t.missed, t.disposal)
  {
    if !s.disposal.Closed? {
      forall o ensures HasError(t.toController, o) <==> HasError(s.toController, o) || (o == s.toBrowser[0].origin && !ok) {
        ErrorEmitted(s.toController, Reply(s.toBrowser[0].origin, ok), o);
      }
    }
  }

  lemma ProcessDisposal(s: System, t: System, fetchOn: bool, ok: bool)
    requires DisposalOk(s) && OriginsOk(s.toBrowser, s.toController) && s.toBrowser != []
    requires t == Outcome(s.(toBrowser := s.toBrowser[1..], reqs := t.reqs, fetchOn := fetchOn, disables := t.disables),
                          s.toBrowser[0].origin, ok)
    requires fetchOn == match s.toBrowser[0].command case FetchEnable => true case FetchDisable => false case _ => s.fetchOn
    ensures DisposalOk(t) && OriginsOk(t.toBrowser, t.toController)
  {
    var x := s.toBrowser[0];
    var m := Reply(x.origin, ok);
    assert OriginFits(x);
    if s.disposal.Closed? {
      assert t.toBrowser != [] ==> t.toBrowser[|t.toBrowser| - 1] == s.toBrowser[|s.toBrowser| - 1];
    } else {
      assert x.origin != Detaching by { PendingProcessed(s.toBrowser, s.toController, Detaching); }
      FetchAppend(s.ctl.fetchEnabled, s.toController, m);
      FetchOne(s.fetchOn, m);
      forall o ensures Pending(t.toBrowser, t.toController, o) <==> Pending(s.toBrowser, s.toController, o) {
        PendingEmitted(t.toBrowser, s.toController, m, o);
        PendingProcessed(s.toBrowser, s.toController, o);
      }
      DisposalFrame(s, t);
    }
  }

  /** What an answer does when the browser comes to it. */
  lemma AnswerEffect(s: System)
    requires OutboxOk(s.toBrowser, s.reqs) && ReqsOk(s.reqs, s.disables, s.fetchOn, s.forgets)
    requires s.toBrowser != [] && IsAnswer(s.toBrowser[0].command)
    ensures var x := s.toBrowser[0];
            var id := x.command.id;
            && id in s.reqs && s.reqs[id].place == Outbox(x.command)
            && Fits(x.command, id, s.reqs[id])
            && (Hits(s.reqs[id], x.command) <==> s.reqs[id].epoch == s.disables)
            && Next(s, BrowserTurn) == Outcome(s.(toBrowser := s.toBrowser[1..], reqs := s.reqs[id := Answered(s.reqs[id], x.command)]),
                                               x.origin, Hits(s.reqs[id], x.command))
            && ReqOk(Answered(s.reqs[id], x.command), s.disables, s.fetchOn, s.forgets)
  {
    var cmd := s.toBrowser[0].command;
    var id := cmd.id;
    assert id in s.reqs;
    AnsweredOk(s.reqs[id], cmd, s.disables, s.fetchOn, s.forgets);
  }

  lemma AnsweredOk(r: Req, cmd: Command, disables: nat, fetchOn: bool, forgets: bool)
    requires ReqOk(r, disables, fetchOn, forgets) && IsAnswer(cmd) && r.place == Outbox(cmd) && Fits(cmd, cmd.id, r)
    ensures Hits(r, cmd) <==> r.epoch == disables
    ensures ReqOk(Answered(r, cmd), disables, fetchOn, forgets)
  {
  }

  lemma AnswerKeeps(s: System)
    requires Inv(s) && s.toBrowser != [] && IsAnswer(s.toBrowser[0].command)
    ensures Inv(Next(s, BrowserTurn))
  {
    var q := Answered(s.reqs[s.toBrowser[0].command.id], s.toBrowser[0].command);
    AnswerEffect(s);
    AnswerFlow(s, Next(s, BrowserTurn), s.toBrowser[0].command);
    AnswerInbox(s, Next(s, BrowserTurn), s.toBrowser[0].command);
    AnswerReqs(s, q);
    LeavesOutbox(s.ctl.gates, s.toBrowser, s.reqs, q);
  }

  lemma AnswerFlow(s: System, t: System, cmd: Command)
    requires Flow(s) && s.toBrowser != [] && s.toBrowser[0].command == cmd && IsAnswer(cmd) && cmd.id in s.reqs
    requires t == Outcome(s.(toBrowser := s.toBrowser[1..], reqs := s.reqs[cmd.id := Answered(s.reqs[cmd.id], cmd)]),
                          s.toBrowser[0].origin, Hits(s.reqs[cmd.id], cmd))
    ensures Flow(t)
  {
    AnswerMissed(s.missed, s.reqs, cmd, s.toBrowser[0].origin);
    ProcessFlow(s, t, s.fetchOn, Hits(s.reqs[cmd.id], cmd));
  }

  lemma AnswerInbox(s: System, t: System, cmd: Command)
    requires InboxOk(s.toController, s.reqs, s.disposal.Closed?)
    requires s.toBrowser != [] && s.toBrowser[0].command == cmd && IsAnswer(cmd) && cmd.id in s.reqs && s.reqs[cmd.id].place.Outbox?
    requires t == Outcome(s.(toBrowser := s.toBrowser[1..], reqs := s.reqs[cmd.id := Answered(s.reqs[cmd.id], cmd)]),
                          s.toBrowser[0].origin, Hits(s.reqs[cmd.id], cmd))
    ensures InboxOk(t.toController, t.reqs, t.disposal.Closed?)
  {
    InboxFrame(s.toController, s.reqs, t.reqs, s.disposal.Closed?);
    if !s.disposal.Closed? { InboxReply(s.toController, t.reqs, false, s.toBrowser[0].origin, Hits(s.reqs[cmd.id], cmd)); }
  }

  lemma AnswerMissed(missed: set<Origin>, reqs: Requests, cmd: Command, origin: Origin)
    requires MissedOk(missed, reqs) && IsAnswer(cmd) && cmd.id in reqs
    ensures MissedOk(missed + (if Hits(reqs[cmd.id], cmd) then {} else {origin}), reqs[cmd.id := Answered(reqs[cmd.id], cmd)])
  {
    var after := reqs[cmd.id := Answered(reqs[cmd.id], cmd)];
    if Hits(reqs[cmd.id], cmd) {
      MissedFrame(missed, reqs, after);
    } else {
      assert after[cmd.id].misses > 0 && origin in missed + {origin};
    }
  }

  lemma AnswerReqs(s: System, q: Req)
    requires s.toBrowser != [] && IsAnswer(s.toBrowser[0].command) && s.toBrowser[0].command.id in s.reqs
    requires s.reqs[s.toBrowser[0].command.id].place == Outbox(s.toBrowser[0].command)
    requires q == Answered(s.reqs[s.toBrowser[0].command.id], s.toBrowser[0].command)
    requires ReqsOk(s.reqs, s.disables, s.fetchOn, s.forgets) && NoEscape(s.ctl.gates, s.reqs, s.disables)
    requires ReqOk(q, s.disables, s.fetchOn, s.forgets)
    ensures var after := s.reqs[s.toBrowser[0].command.id := q];
            ReqsOk(after, s.disables, s.fetchOn, s.forgets) && NoEscape(s.ctl.gates, after, s.disables)
  {
    var cmd := s.toBrowser[0].command;
    OneReq(s.reqs, cmd.id, q, s.disables, s.fetchOn, s.forgets);
    EscapeOne(s.ctl.gates, s.reqs, cmd.id, q, s.disables);
  }

  /** The answer at the head of the queue is done with. */
  lemma LeavesOutbox(gates: seq<Gate>, cmds: seq<Sent>, reqs: Requests, q: Req)
    requires HeldOk(gates, reqs) && ListsOk(gates, reqs) && ArmedBound(gates, reqs) && OutboxOk(cmds, reqs)
    requires cmds != [] && IsAnswer(cmds[0].command) && cmds[0].command.id in reqs
    requires var r := reqs[cmds[0].command.id];
             && r.place == Outbox(cmds[0].command) && q.place == Done
             && q.kind == r.kind && q.stage == r.stage && q.armed == r.armed
    ensures var after := reqs[cmds[0].command.id := q];
            HeldOk(gates, after) && ListsOk(gates, after) && ArmedBound(gates, after) && OutboxOk(cmds[1..], after)
  {
    var after := reqs[cmds[0].command.id := q];
    HeldFrame(gates, reqs, after);
    ListsFrame(gates, reqs, after);
    OutboxPop(cmds, reqs, after);
  }

  /** What a switch does when the browser comes to it. */
  lemma SwitchEffect(s: System)
    requires s.toBrowser != [] && !IsAnswer(s.toBrowser[0].command)
    ensures Next(s, BrowserTurn) == Switched(s, s.toBrowser[0])
  {
  }

  function Switched(s: System, x: Sent): System
    requires s.toBrowser != []
  {
    var u := s.(toBrowser := s.toBrowser[1..]);
    Outcome(if x.command == FetchEnable then u.(fetchOn := true)
            else u.(fetchOn := false, disables := s.disables + 1, reqs := AllLetGo(s.reqs, s.forgets)), x.origin, true)
  }

  lemma EnableKeeps(s: System)
    requires Inv(s) && s.toBrowser != [] && s.toBrowser[0].command == FetchEnable
    ensures Inv(Next(s, BrowserTurn))
  {
    SwitchEffect(s);
    EnableFlow(s);
    EnableReqs(s.toBrowser, s.reqs, s.disables, s.fetchOn, s.forgets);
  }

  lemma EnableFlow(s: System)
    requires Flow(s) && InboxOk(s.toController, s.reqs, s.disposal.Closed?)
    requires s.toBrowser != [] && s.toBrowser[0].command == FetchEnable
    ensures var t := Switched(s, s.toBrowser[0]);
            Flow(t) && InboxOk(t.toController, t.reqs, t.disposal.Closed?)
  {
    ProcessFlow(s, Switched(s, s.toBrowser[0]), true, true);
    if !s.disposal.Closed? { InboxReply(s.toController, s.reqs, false, s.toBrowser[0].origin, true); }
  }

  lemma EnableReqs(cmds: seq<Sent>, reqs: Requests, disables: nat, fetchOn: bool, forgets: bool)
    requires OutboxOk(cmds, reqs) && ReqsOk(reqs, disables, fetchOn, forgets) && cmds != [] && !IsAnswer(cmds[0].command)
    ensures OutboxOk(cmds[1..], reqs) && ReqsOk(reqs, disables, true, forgets)
  {
    OutboxPop(cmds, reqs, reqs);
    forall id | id in reqs ensures ReqOk(reqs[id], disables, true, forgets) { assert ReqOk(reqs[id], disables, fetchOn, forgets); }
  }

  lemma DisableKeeps(s: System)
    requires Inv(s) && s.toBrowser != [] && s.toBrowser[0].command == FetchDisable
    ensures Inv(Next(s, BrowserTurn))
  {
    SwitchEffect(s);
    DisableFlow(s);
    DisablePlaces(s);
    DisableReqs(s);
  }

  lemma DisableReqs(s: System)
    requires ReqsOk(s.reqs, s.disables, s.fetchOn, s.forgets)
    requires s.toBrowser != [] && s.toBrowser[0].command == FetchDisable
    ensures var t := Switched(s, s.toBrowser[0]);
            ReqsOk(t.reqs, t.disables, t.fetchOn, t.forgets) && NoEscape(t.ctl.gates, t.reqs, t.disables)
  {
    AllLetGoOk(s.ctl.gates, s.reqs, s.disables, s.fetchOn, s.forgets);
  }

  lemma DisableFlow(s: System)
    requires Flow(s) && s.toBrowser != [] && s.toBrowser[0].command == FetchDisable
    ensures Flow(Switched(s, s.toBrowser[0]))
  {
    AllLetGoPlaces(s.reqs, s.forgets);
    MissedFrame(s.missed, s.reqs, AllLetGo(s.reqs, s.forgets));
    ProcessFlow(s, Switched(s, s.toBrowser[0]), false, true);
  }

  lemma DisablePlaces(s: System)
    requires HeldOk(s.ctl.gates, s.reqs) && ListsOk(s.ctl.gates, s.reqs) && ArmedBound(s.ctl.gates, s.reqs)
    requires InboxOk(s.toController, s.reqs, s.disposal.Closed?) && OutboxOk(s.toBrowser, s.reqs)
    requires s.toBrowser != [] && s.toBrowser[0].command == FetchDisable
    ensures var t := Switched(s, s.toBrowser[0]);
            && HeldOk(t.ctl.gates, t.reqs) && ListsOk(t.ctl.gates, t.reqs) && ArmedBound(t.ctl.gates, t.reqs)
            && InboxOk(t.toController, t.reqs, t.disposal.Closed?) && OutboxOk(t.toBrowser, t.reqs)
  {
    var after := AllLetGo(s.reqs, s.forgets);
    AllLetGoPlaces(s.reqs, s.forgets);
    PhaseOnly(s.ctl.gates, s.toController, s.toBrowser, s.reqs, after, s.disposal.Closed?);
    if !s.disposal.Closed? { InboxReply(s.toController, after, false, s.toBrowser[0].origin, true); }
    OutboxPop(s.toBrowser, after, after);
  }

  /** What was asked for before interception is switched off is past its epoch for good. */
  lemma AllLetGoOk(gates: seq<Gate>, reqs: Requests, disables: nat, fetchOn: bool, forgets: bool)
    requires ReqsOk(reqs, disables, fetchOn, forgets)
    ensures ReqsOk(AllLetGo(reqs, forgets), disables + 1, false, forgets)
    ensures NoEscape(gates, AllLetGo(reqs, forgets), disables + 1)
  {
    var after := AllLetGo(reqs, forgets);
    forall id | id in after ensures ReqOk(after[id], disables + 1, false, forgets) && after[id].epoch < disables + 1 {
      LetGoOk(reqs[id], disables, fetchOn, forgets);
    }
    NoneWaiting(gates, after, disables + 1);
  }

  lemma AllLetGoPlaces(reqs: Requests, forgets: bool)
    ensures forall id :: id in reqs ==> Elsewhere(reqs[id], AllLetGo(reqs, forgets)[id])
                                        && AllLetGo(reqs, forgets)[id].misses == reqs[id].misses
  {
    var after := AllLetGo(reqs, forgets);
    forall id | id in reqs ensures Elsewhere(reqs[id], after[id]) && after[id].misses == reqs[id].misses {
      assert after[id] == LetGo(reqs[id], forgets);
      LetGoElsewhere(reqs[id], forgets);
    }
  }

  lemma LetGoElsewhere(r: Req, forgets: bool)
    ensures Elsewhere(r, LetGo(r, forgets)) && LetGo(r, forgets).misses == r.misses
  {
  }

  lemma NoneWaiting(gates: seq<Gate>, reqs: Requests, disables: nat)
    requires forall id :: id in reqs ==> reqs[id].epoch < disables
    ensures NoEscape(gates, reqs, disables)
  {
  }

  lemma LetGoOk(r: Req, disables: nat, fetchOn: bool, forgets: bool)
    requires ReqOk(r, disables, fetchOn, forgets)
    ensures ReqOk(LetGo(r, forgets), disables + 1, false, forgets) && LetGo(r, forgets).epoch < disables + 1
  {
  }

  // -------- the controller handles a message --------

  lemma HandledFlow(s: System, t: System, more: seq<Sent>)
    requires Flow(s) && s.toController != [] && s.toController[0].Pausing? && !s.disposal.Closed?
    requires t == s.(toController := s.toController[1..], ctl := t.ctl, reqs := t.reqs, toBrowser := s.toBrowser + more)
    requires t.ctl == s.ctl.(gates := t.ctl.gates, creation := t.ctl.creation, prompt := t.ctl.prompt)
    requires |t.ctl.gates| == |s.ctl.gates| && forall j :: 0 <= j < |s.ctl.gates| ==> t.ctl.gates[j].released == s.ctl.gates[j].released
    requires forall i :: 0 <= i < |more| ==> OriginFits(more[i]) && more[i].origin == Arrival
    requires MissedOk(t.missed, t.reqs)
    ensures Flow(t)
  {
    var m := s.toController[0];
    assert s.toController == [m] + t.toController;
    forall o ensures HasError(t.toController, o) <==> HasError(s.toController, o) { ErrorHandled(s.toController, o); }
    ErrorsFrame(s.ctl.failure, s.toController, t.toController, s.missed, s.disposal, t.disposal);
    FetchPop(s.ctl.fetchEnabled, s.toController);
    FetchOne(s.ctl.fetchEnabled, m);
    forall o | o != Arrival ensures Pending(t.toBrowser, t.toController, o) <==> Pending(s.toBrowser, s.toController, o) {
      PendingSent(s.toBrowser, more, t.toController, o);
      PendingHandled(s.toBrowser, s.toController, o);
    }
    DisposalFrame(s, t);
  }

  /** Which pause is being handled. */
  ghost predicate Handling(s: System, id: RequestId, stage: Stage) {
    && s.toController != [] && id in s.reqs
    && s.toController[0] == Pausing(id, s.reqs[id].kind, stage)
    && s.reqs[id].place == Inbox && s.reqs[id].stage == stage
  }

  lemma HandlingFirst(s: System)
    requires Inv(s) && s.toController != [] && s.toController[0].Pausing?
    ensures Handling(s, s.toController[0].id, s.toController[0].stage)
  {
  }

  function Taken(r: Req, j: nat): Req { r.(seen := r.seen + 1, place := InGate(j)) }

  /** What handling a wanted pause does. */
  lemma HoldEffect(s: System, id: RequestId, stage: Stage, now: int)
    requires Handling(s, id, stage) && Wanted(s.ctl.gates, s.reqs[id].kind, stage)
    ensures var t := Next(s, Deliver(now));
            var j := FirstOpen(s.ctl.gates, s.reqs[id].kind.value, stage);
            && t == s.(toController := s.toController[1..], ctl := t.ctl, reqs := s.reqs[id := Taken(s.reqs[id], j)])
            && t.ctl == s.ctl.(gates := s.ctl.gates[j := Hold(s.ctl.gates[j], id, now)],
                               creation := t.ctl.creation, prompt := t.ctl.prompt)
  {
  }

  lemma HoldKeeps(s: System, id: RequestId, stage: Stage, now: int)
    requires Inv(s) && Handling(s, id, stage) && Wanted(s.ctl.gates, s.reqs[id].kind, stage)
    ensures Inv(Next(s, Deliver(now)))
  {
    var j := FirstOpen(s.ctl.gates, s.reqs[id].kind.value, stage);
    HoldEffect(s, id, stage, now);
    HoldFlow(s, id, stage, now);
    HoldQueues(s, id, j);
    NotInGate(s, id, j);
    HoldGates(s.ctl.gates, j, id, now);
    HoldLists(s.ctl.gates, s.reqs, j, id, now);
    HoldReqs(s, id, j);
    HoldEscape(s.ctl.gates, s.reqs, s.disables, j, id, now);
  }

  lemma HoldFlow(s: System, id: RequestId, stage: Stage, now: int)
    requires Flow(s) && Handling(s, id, stage) && Wanted(s.ctl.gates, s.reqs[id].kind, stage)
    ensures Flow(Next(s, Deliver(now)))
  {
    HoldEffect(s, id, stage, now);
    MissedFrame(s.missed, s.reqs, Next(s, Deliver(now)).reqs);
    HandledFlow(s, Next(s, Deliver(now)), []) by { assert s.toBrowser + [] == s.toBrowser; }
  }

  lemma HoldQueues(s: System, id: RequestId, j: nat)
    requires InboxOk(s.toController, s.reqs, false) && OutboxOk(s.toBrowser, s.reqs) && id in s.reqs && s.reqs[id].place == Inbox
    requires s.toController != [] && s.toController[0].Pausing? && s.toController[0].id == id
    ensures InboxOk(s.toController[1..], s.reqs[id := Taken(s.reqs[id], j)], false)
    ensures OutboxOk(s.toBrowser, s.reqs[id := Taken(s.reqs[id], j)])
  {
    var after := s.reqs[id := Taken(s.reqs[id], j)];
    InboxPop(s.toController, s.reqs, after);
    OutboxFrame(s.toBrowser, s.reqs, after);
  }

  lemma NotInGate(s: System, id: RequestId, j: nat)
    requires HeldOk(s.ctl.gates, s.reqs) && id in s.reqs && !s.reqs[id].place.InGate? && j < |s.ctl.gates| && !s.ctl.gates[j].released
    ensures id !in s.ctl.gates[j].ids
  {
    assert id in s.ctl.gates[j].ids ==> Holds(s.ctl.gates, j, id);
  }

  lemma HoldReqs(s: System, id: RequestId, j: nat)
    requires ReqsOk(s.reqs, s.disables, s.fetchOn, s.forgets) && id in s.reqs && s.reqs[id].place == Inbox
    ensures ReqsOk(s.reqs[id := Taken(s.reqs[id], j)], s.disables, s.fetchOn, s.forgets)
  {
    assert ReqOk(s.reqs[id], s.disables, s.fetchOn, s.forgets);
    OneReq(s.reqs, id, Taken(s.reqs[id], j), s.disables, s.fetchOn, s.forgets);
  }

  lemma HoldGates(gates: seq<Gate>, j: nat, id: RequestId, now: int)
    requires GatesOk(gates) && InOrder(gates) && j < |gates| && id !in gates[j].ids
    requires !gates[j].released && FirstOpen(gates, gates[j].kind, gates[j].stage) == j
    ensures GatesOk(gates[j := Hold(gates[j], id, now)]) && InOrder(gates[j := Hold(gates[j], id, now)])
  {
    var after := gates[j := Hold(gates[j], id, now)];
    assert GateOk(gates[j]);
    assert GateOk(after[j]);
    forall i, l | 0 <= i < l < |after| && SameSort(after[i], after[l]) && after[l].ids != [] ensures after[i].released {
      if l == j { assert !Open(gates[i], gates[j].kind, gates[j].stage); }
    }
  }

  lemma HoldLists(gates: seq<Gate>, reqs: Requests, j: nat, id: RequestId, now: int)
    requires HeldOk(gates, reqs) && ListsOk(gates, reqs) && ArmedBound(gates, reqs) && id in reqs && !reqs[id].place.InGate?
    requires j < |gates| && reqs[id].kind == Some(gates[j].kind) && reqs[id].stage == gates[j].stage
    requires !gates[j].released && id !in gates[j].ids
    ensures var gates' := gates[j := Hold(gates[j], id, now)];
            var reqs' := reqs[id := Taken(reqs[id], j)];
            HeldOk(gates', reqs') && ListsOk(gates', reqs') && ArmedBound(gates', reqs')
  {
    var gates' := gates[j := Hold(gates[j], id, now)];
    var reqs' := reqs[id := Taken(reqs[id], j)];
    assert gates'[j].ids == gates[j].ids + [id];
    assert Holds(gates', j, id);
    forall i: nat, x | Holds(gates', i, x) ensures x in reqs' && reqs'[x].place == InGate(i) {
      assert (x == id && i == j) || Holds(gates, i, x);
    }
    forall x | x in reqs' && reqs'[x].place.InGate? && x != id ensures Holds(gates', reqs'[x].place.gate, x) {
      assert Holds(gates, reqs[x].place.gate, x);
    }
  }

  lemma HoldEscape(gates: seq<Gate>, reqs: Requests, disables: nat, j: nat, id: RequestId, now: int)
    requires NoEscape(gates, reqs, disables) && id in reqs && j < |gates|
    ensures NoEscape(gates[j := Hold(gates[j], id, now)], reqs[id := Taken(reqs[id], j)], disables)
  {
    var gates' := gates[j := Hold(gates[j], id, now)];
    var reqs' := reqs[id := Taken(reqs[id], j)];
    forall other, i: nat | other in reqs' && Waiting(gates', reqs'[other], disables, i)
      ensures reqs'[other].asked
      ensures reqs'[other].stage == Response && (reqs'[other].place.Outbox? || reqs'[other].place == Done) ==>
                exists h: nat :: CaughtBefore(gates', other, i, h)
    {
      assert Waiting(gates, reqs[other], disables, i);
      if other != id && reqs[other].stage == Response && (reqs[other].place.Outbox? || reqs[other].place == Done) {
        var h: nat :| CaughtBefore(gates, other, i, h);
        assert CaughtBefore(gates', other, i, h);
      }
    }
  }

  function PassCommand(gates: seq<Gate>, id: RequestId, kind: Option<Kind>, stage: Stage): Command {
    ContinueCommand(stage, id, stage == Request && kind.Some? && HasOpen(gates, kind.value, Response))
  }

  function PassedOn(gates: seq<Gate>, id: RequestId, r: Req): Req {
    Told(r.(seen := r.seen + 1), PassCommand(gates, id, r.kind, r.stage), |gates|)
  }

  /** What handling a pause does that no gate wants: it is answered at once. */
  lemma PassEffect(s: System, id: RequestId, stage: Stage, now: int)
    requires Handling(s, id, stage) && !Wanted(s.ctl.gates, s.reqs[id].kind, stage)
    ensures var t := Next(s, Deliver(now));
            && t == s.(toController := s.toController[1..], ctl := t.ctl,
                       toBrowser := s.toBrowser + [Sent(PassCommand(s.ctl.gates, id, s.reqs[id].kind, stage), Arrival)],
                       reqs := s.reqs[id := PassedOn(s.ctl.gates, id, s.reqs[id])])
            && t.ctl == s.ctl.(creation := t.ctl.creation, prompt := t.ctl.prompt)
  {
    var turn := OnPaused(s.ctl, id, s.reqs[id].kind, stage, now);
    var cmd := PassCommand(s.ctl.gates, id, s.reqs[id].kind, stage);
    PassTurn(s.ctl, id, s.reqs[id].kind, stage, now);
    assert Marked([cmd], Arrival) == [Sent(cmd, Arrival)];
    OneTold(Seen(s.reqs, id), cmd, |s.ctl.gates|);
  }

  lemma PassTurn(c: Controller, id: RequestId, kind: Option<Kind>, stage: Stage, now: int)
    requires !Wanted(c.gates, kind, stage)
    ensures var turn := OnPaused(c, id, kind, stage, now);
            && turn.1 == [PassCommand(c.gates, id, kind, stage)]
            && turn.0 == c.(creation := turn.0.creation, prompt := turn.0.prompt)
  {
  }

  lemma OneTold(reqs: Requests, cmd: Command, armed: nat)
    requires IsAnswer(cmd) && cmd.id in reqs
    ensures AllTold(reqs, [cmd], armed) == reqs[cmd.id := Told(reqs[cmd.id], cmd, armed)]
  {
    forall id ensures AnswerFor([cmd], id) == if id == cmd.id then Some(cmd) else None {
      assert [cmd][1..] == [];
    }
  }

  lemma PassKeeps(s: System, id: RequestId, stage: Stage, now: int)
    requires Inv(s) && Handling(s, id, stage) && !Wanted(s.ctl.gates, s.reqs[id].kind, stage)
    ensures Inv(Next(s, Deliver(now)))
  {
    PassEffect(s, id, stage, now);
    PassFlow(s, id, stage, now);
    PassQueues(s, id, stage);
    PassHeld(s, id);
    PassReqs(s, id);
    PassEscape(s, id);
  }

  lemma PassFlow(s: System, id: RequestId, stage: Stage, now: int)
    requires Flow(s) && Handling(s, id, stage) && !Wanted(s.ctl.gates, s.reqs[id].kind, stage)
    ensures Flow(Next(s, Deliver(now)))
  {
    PassEffect(s, id, stage, now);
    MissedFrame(s.missed, s.reqs, Next(s, Deliver(now)).reqs);
    HandledFlow(s, Next(s, Deliver(now)), [Sent(PassCommand(s.ctl.gates, id, s.reqs[id].kind, stage), Arrival)]);
  }

  lemma PassQueues(s: System, id: RequestId, stage: Stage)
    requires InboxOk(s.toController, s.reqs, false) && OutboxOk(s.toBrowser, s.reqs) && Handling(s, id, stage)
    ensures var after := s.reqs[id := PassedOn(s.ctl.gates, id, s.reqs[id])];
            && InboxOk(s.toController[1..], after, false)
            && OutboxOk(s.toBrowser + [Sent(PassCommand(s.ctl.gates, id, s.reqs[id].kind, stage), Arrival)], after)
  {
    var after := s.reqs[id := PassedOn(s.ctl.gates, id, s.reqs[id])];
    InboxPop(s.toController, s.reqs, after);
    OutboxAnswers(s.toBrowser, [Sent(PassCommand(s.ctl.gates, id, s.reqs[id].kind, stage), Arrival)], [id], s.reqs, after);
  }

  lemma PassHeld(s: System, id: RequestId)
    requires HeldOk(s.ctl.gates, s.reqs) && ListsOk(s.ctl.gates, s.reqs) && ArmedBound(s.ctl.gates, s.reqs)
    requires id in s.reqs && s.reqs[id].place == Inbox
    ensures var after := s.reqs[id := PassedOn(s.ctl.gates, id, s.reqs[id])];
            HeldOk(s.ctl.gates, after) && ListsOk(s.ctl.gates, after) && ArmedBound(s.ctl.gates, after)
  {
    var after := s.reqs[id := PassedOn(s.ctl.gates, id, s.reqs[id])];
    HeldFrame(s.ctl.gates, s.reqs, after);
    ListsFrame(s.ctl.gates, s.reqs, after);
  }

  lemma PassReqs(s: System, id: RequestId)
    requires ReqsOk(s.reqs, s.disables, s.fetchOn, s.forgets) && id in s.reqs && s.reqs[id].place == Inbox
    ensures ReqsOk(s.reqs[id := PassedOn(s.ctl.gates, id, s.reqs[id])], s.disables, s.fetchOn, s.forgets)
  {
    var q := PassedOn(s.ctl.gates, id, s.reqs[id]);
    assert ReqOk(s.reqs[id], s.disables, s.fetchOn, s.forgets);
    assert ReqOk(q, s.disables, s.fetchOn, s.forgets);
    OneReq(s.reqs, id, q, s.disables, s.fetchOn, s.forgets);
  }

  lemma OpenIsWanted(gates: seq<Gate>, kind: Kind, stage: Stage, j: nat)
    requires j < |gates| && Open(gates[j], kind, stage)
    ensures FirstOpen(gates, kind, stage) <= j && Wanted(gates, Some(kind), stage)
  {
  }

  lemma PassEscape(s: System, id: RequestId)
    requires NoEscape(s.ctl.gates, s.reqs, s.disables) && id in s.reqs
    requires !Wanted(s.ctl.gates, s.reqs[id].kind, s.reqs[id].stage)
    ensures NoEscape(s.ctl.gates, s.reqs[id := PassedOn(s.ctl.gates, id, s.reqs[id])], s.disables)
  {
    var gates, q := s.ctl.gates, PassedOn(s.ctl.gates, id, s.reqs[id]);
    var after := s.reqs[id := q];
    forall other, j: nat | other in after && Waiting(gates, after[other], s.disables, j)
      ensures after[other].asked
      ensures after[other].stage == Response && (after[other].place.Outbox? || after[other].place == Done) ==>
                exists h: nat :: CaughtBefore(gates, other, j, h)
    {
      if other != id {
        assert Waiting(gates, s.reqs[other], s.disables, j);
      } else if q.stage == Response {
        OpenIsWanted(gates, q.kind.value, Response, j);
        assert false;
      } else {
        assert HasOpen(gates, q.kind.value, Response);
      }
    }
  }

  lemma ReplyKeeps(s: System, now: int)
    requires Inv(s) && s.toController != [] && s.toController[0].Reply?
    ensures Inv(Next(s, Deliver(now)))
  {
    var m := s.toController[0];
    ReplyInbox(s.toController, s.reqs);
    if EndsIt(m) {
      ReplyEnds(s, Next(s, Deliver(now)), m.origin == Teardown);
    } else {
      ReplyGoesOn(s, Next(s, Deliver(now)), m);
    }
  }

  lemma ReplyInbox(msgs: seq<Message>, reqs: Requests)
    requires InboxOk(msgs, reqs, false) && msgs != [] && msgs[0].Reply?
    ensures InboxOk(msgs[1..], reqs, false) && InboxOk([], reqs, true)
  {
    InboxPop(msgs, reqs, reqs);
  }

  lemma ReplyGoesOn(s: System, t: System, m: Message)
    requires Inv(s) && s.toController != [] && s.toController[0] == m && m.Reply? && !EndsIt(m)
    requires t == s.(toController := s.toController[1..], ctl := OnReply(s.ctl, m.origin, m.ok))
    requires InboxOk(t.toController, t.reqs, false)
    ensures Inv(t)
  {
    HandledDisposal(s, t, m);
    HandledErrors(s, t, m);
  }

  lemma HandledErrors(s: System, t: System, m: Message)
    requires ErrorsOk(s.ctl.failure, s.toController, s.missed, s.disposal) && !s.disposal.Closed?
    requires s.toController != [] && s.toController[0] == m && m.Reply? && !EndsIt(m)
    requires t.toController == s.toController[1..] && t.ctl == OnReply(s.ctl, m.origin, m.ok)
    ensures ErrorsOk(t.ctl.failure, t.toController, s.missed, s.disposal)
  {
    forall o ensures HasError(s.toController, o) <==> HasError(t.toController, o) || m == Reply(o, false) {
      ErrorHandled(s.toController, o);
    }
  }

  lemma ReplyEnds(s: System, t: System, aborted: bool)
    requires Inv(s) && s.toController != [] && (aborted ==> s.toController[0] == Reply(Teardown, false))
    requires t == Close(s.(toController := s.toController[1..]), aborted) && InboxOk([], s.reqs, true)
    ensures Inv(t)
  {
    OutboxSwitch(s.toBrowser, s.reqs, DETACH);
    CloseFlow(s, s.(toController := s.toController[1..]), aborted);
  }

  lemma HandledDisposal(s: System, t: System, m: Message)
    requires DisposalOk(s) && OriginsOk(s.toBrowser, s.toController)
    requires s.toController != [] && s.toController[0] == m && m.Reply? && !EndsIt(m)
    requires t == s.(toController := s.toController[1..], ctl := OnReply(s.ctl, m.origin, m.ok))
    ensures DisposalOk(t) && OriginsOk(t.toBrowser, t.toController)
  {
    assert s.toController == [m] + t.toController;
    FetchPop(s.ctl.fetchEnabled, s.toController);
    FetchOne(s.ctl.fetchEnabled, m);
    forall o | o == Detaching || o == Disposing || o == Teardown
      ensures Pending(t.toBrowser, t.toController, o) ==> Pending(s.toBrowser, s.toController, o)
      ensures o == Disposing && Pending(s.toBrowser, s.toController, o) ==> Pending(t.toBrowser, t.toController, o)
    {
      PendingHandled(s.toBrowser, s.toController, o);
    }
    assert m.origin != Detaching;
    DisposalFrame(s, t);
  }

  /** The connection is closed, from a state that differs from a good one at most in
      the inbox, and aborted only because of an error. */
  lemma CloseFlow(s: System, u: System, aborted: bool)
    requires Flow(s) && u == s.(toController := u.toController)
    requires aborted ==> HasError(s.toController, Teardown)
    ensures Flow(Close(u, aborted))
  {
    var t := Close(u, aborted);
    assert t.toBrowser == s.toBrowser + [DETACH];
  }

  lemma CloseKeeps(s: System, aborted: bool)
    requires Inv(s) && (aborted ==> HasError(s.toController, Teardown))
    ensures Inv(Close(s, aborted))
  {
    OutboxSwitch(s.toBrowser, s.reqs, DETACH);
    CloseFlow(s, s, aborted);
  }

  // -------- the remaining steps of the controller --------

  /** Nothing but answers of `origin` goes out. */
  lemma SentFlow(s: System, t: System, more: seq<Sent>, origin: Origin)
    requires Flow(s) && !s.disposal.Closed?
    requires t == s.(ctl := t.ctl, reqs := t.reqs, toBrowser := s.toBrowser + more)
    requires t.ctl == s.ctl.(gates := t.ctl.gates)
    requires |t.ctl.gates| == |s.ctl.gates|
    requires forall j :: 0 <= j < |s.ctl.gates| && s.ctl.gates[j].released ==> t.ctl.gates[j].released
    requires forall i :: 0 <= i < |more| ==> OriginFits(more[i]) && more[i].origin == origin
    requires origin != Disposing && origin != Detaching && (origin == Teardown ==> s.disposal.Draining?)
    requires MissedOk(t.missed, t.reqs)
    ensures Flow(t)
  {
    forall o ensures Pending(s.toBrowser, s.toController, o) ==> Pending(t.toBrowser, t.toController, o)
             ensures Pending(t.toBrowser, t.toController, o) ==> Pending(s.toBrowser, s.toController, o) || o == origin
    {
      PendingSent(s.toBrowser, more, s.toController, o);
    }
    DisposalFrame(s, t);
  }

  /** Finishing gate `j`, possibly because its timer ran out. */
  function FinishOrExpire(c: Controller, j: nat, fail: bool, late: bool): (Controller, seq<Command>)
    requires j < |c.gates|
  {
    if late then Expire(c, j) else Finish(c, j, fail)
  }

  function Finished(g: Gate, fail: bool, late: bool): Gate {
    g.(released := true, failed := fail, timer := false, expired := g.expired || late)
  }

  /** Whether the requests this gate lets go on are continued with `interceptResponse`. */
  predicate Intercepts(gates: seq<Gate>, g: Gate, fail: bool) {
    !fail && g.stage == Request && HasOpen(gates, g.kind, Response)
  }

  /** The answers of a gate that has just been finished, and the requests as they then stand. */
  function Farewell(gates: seq<Gate>, g: Gate, fail: bool, origin: Origin): seq<Sent> {
    Marked(Answers(g.ids, g.stage, fail, Intercepts(gates, g, fail)), origin)
  }

  function Leaving(gates: seq<Gate>, g: Gate, fail: bool, id: RequestId, r: Req): Req {
    Told(r, AnswerCommand(g.stage, fail, Intercepts(gates, g, fail), id), |gates|)
  }

  /** `after` are the requests once gate `g` has sent its answers. */
  ghost predicate Left(gates: seq<Gate>, g: Gate, fail: bool, before: Requests, after: Requests) {
    && after.Keys == before.Keys
    && forall id :: id in before ==> after[id] == if id in g.ids then Leaving(gates, g, fail, id, before[id]) else before[id]
  }

  /** The state `t` in which gate `j` has just been finished, as `FinishEffect` describes it. */
  ghost predicate After(s: System, t: System, j: nat, fail: bool, late: bool, origin: Origin)
    requires j < |s.ctl.gates|
  {
    var g := s.ctl.gates[j];
    var gates := s.ctl.gates[j := Finished(g, fail, late)];
    && t == s.(ctl := s.ctl.(gates := gates), reqs := t.reqs, toBrowser := s.toBrowser + Farewell(gates, g, fail, origin))
    && Left(gates, g, fail, s.reqs, t.reqs)
  }

  /** What finishing an unreleased gate does: its flags, and an answer on its way to every request it held. */
  lemma FinishEffect(s: System, j: nat, fail: bool, late: bool, origin: Origin)
    requires j < |s.ctl.gates| && !s.ctl.gates[j].released && (late ==> !fail)
    ensures After(s, Perform(s, FinishOrExpire(s.ctl, j, fail, late), origin), j, fail, late, origin)
  {
    var g := s.ctl.gates[j];
    var gates := s.ctl.gates[j := Finished(g, fail, late)];
    FinishTurn(s.ctl, j, fail, late);
    LeftMeans(gates, g, fail, s.reqs);
  }

  lemma FinishTurn(c: Controller, j: nat, fail: bool, late: bool)
    requires j < |c.gates| && !c.gates[j].released && (late ==> !fail)
    ensures var g := c.gates[j];
            var gates := c.gates[j := Finished(g, fail, late)];
            FinishOrExpire(c, j, fail, late) ==
            (c.(gates := gates), Answers(g.ids, g.stage, fail, Intercepts(gates, g, fail)))
  {
    assert FinishOrExpire(c, j, fail, late).0.gates == c.gates[j := Finished(c.gates[j], fail, late)];
  }

  lemma LeftMeans(gates: seq<Gate>, g: Gate, fail: bool, reqs: Requests)
    ensures Left(gates, g, fail, reqs, AllTold(reqs, Answers(g.ids, g.stage, fail, Intercepts(gates, g, fail)), |gates|))
  {
    forall id { AnswersFor(g.ids, g.stage, fail, Intercepts(gates, g, fail), id); }
  }

  lemma FinishKeeps(s: System, j: nat, fail: bool, late: bool, origin: Origin)
    requires Inv(s) && j < |s.ctl.gates| && !s.disposal.Closed? && (late ==> !fail && s.ctl.gates[j].timer)
    requires origin == Caller || origin == Timer || (origin == Teardown && s.disposal.Draining?)
    ensures Inv(Perform(s, FinishOrExpire(s.ctl, j, fail, late), origin))
  {
    assert GateOk(s.ctl.gates[j]);
    if s.ctl.gates[j].released {
      FinishAgain(s, j, fail, origin);
    } else {
      FinishEffect(s, j, fail, late, origin);
      var t := Perform(s, FinishOrExpire(s.ctl, j, fail, late), origin);
      FinishFlow(s, t, j, fail, late, origin);
      FinishGates(s.ctl.gates, j, fail, late);
      FinishKept(s, t, j, fail, late, origin);
    }
  }

  lemma FinishAgain(s: System, j: nat, fail: bool, origin: Origin)
    requires j < |s.ctl.gates| && s.ctl.gates[j].released
    ensures Perform(s, Finish(s.ctl, j, fail), origin) == s
  {
    assert AllTold(s.reqs, [], |s.ctl.gates|) == s.reqs;
    assert s.toBrowser + Marked([], origin) == s.toBrowser;
  }

  lemma FinishFlow(s: System, t: System, j: nat, fail: bool, late: bool, origin: Origin)
    requires Flow(s) && !s.disposal.Closed? && j < |s.ctl.gates| && After(s, t, j, fail, late, origin)
    requires origin == Caller || origin == Timer || (origin == Teardown && s.disposal.Draining?)
    ensures Flow(t)
  {
    var g := s.ctl.gates[j];
    var gates := s.ctl.gates[j := Finished(g, fail, late)];
    MissedFrame(s.missed, s.reqs, t.reqs);
    SentFlow(s, t, Farewell(gates, g, fail, origin), origin);
  }

  lemma FinishGates(gates: seq<Gate>, j: nat, fail: bool, late: bool)
    requires GatesOk(gates) && InOrder(gates) && j < |gates| && !gates[j].released && (late ==> !fail)
    ensures GatesOk(gates[j := Finished(gates[j], fail, late)]) && InOrder(gates[j := Finished(gates[j], fail, late)])
  {
    assert GateOk(gates[j]);
  }

  /** The parts that speak of the requests. */
  lemma FinishKept(s: System, t: System, j: nat, fail: bool, late: bool, origin: Origin)
    requires Inv(s) && j < |s.ctl.gates| && !s.ctl.gates[j].released && (late ==> !fail) && !s.disposal.Closed?
    requires After(s, t, j, fail, late, origin)
    ensures HeldOk(t.ctl.gates, t.reqs) && ListsOk(t.ctl.gates, t.reqs) && ArmedBound(t.ctl.gates, t.reqs)
    ensures InboxOk(t.toController, t.reqs, t.disposal.Closed?) && OutboxOk(t.toBrowser, t.reqs)
    ensures ReqsOk(t.reqs, t.disables, t.fetchOn, t.forgets) && NoEscape(t.ctl.gates, t.reqs, t.disables)
  {
    var g := s.ctl.gates[j];
    var gates := s.ctl.gates[j := Finished(g, fail, late)];
    WereHeld(s.ctl.gates, s.reqs, j);
    FinishHeld(s.ctl.gates, gates, s.reqs, t.reqs, j, fail);
    FinishQueues(s.toController, s.toBrowser, gates, g, s.reqs, t.reqs, j, fail, origin) by { assert GateOk(g); }
    FinishReqs(gates, g, s.reqs, t.reqs, j, fail, s.disables, s.fetchOn, s.forgets);
    FinishEscape(s.ctl.gates, gates, s.reqs, t.reqs, j, fail, s.disables) by {
      NotYetArmed(s.ctl.gates, s.reqs, j, s.disables, s.fetchOn, s.forgets);
    }
  }

  /** Everything an unreleased gate lists is in it. */
  ghost predicate AllIn(g: Gate, reqs: Requests, j: nat) {
    forall id :: id in g.ids ==> id in reqs && reqs[id].place == InGate(j) && reqs[id].kind == Some(g.kind) && reqs[id].stage == g.stage
  }

  lemma WereHeld(gates: seq<Gate>, reqs: Requests, j: nat)
    requires HeldOk(gates, reqs) && j < |gates| && !gates[j].released
    ensures AllIn(gates[j], reqs, j)
  {
    forall id | id in gates[j].ids ensures Holds(gates, j, id) {}
  }

  lemma FinishHeld(before: seq<Gate>, gates: seq<Gate>, reqs: Requests, after: Requests, j: nat, fail: bool)
    requires HeldOk(before, reqs) && ListsOk(before, reqs) && ArmedBound(before, reqs)
    requires j < |before| && AllIn(before[j], reqs, j) && |gates| == |before| && gates == before[j := gates[j]]
    requires SameSort(gates[j], before[j]) && gates[j].released && gates[j].ids == before[j].ids
    requires Left(gates, before[j], fail, reqs, after)
    ensures HeldOk(gates, after) && ListsOk(gates, after) && ArmedBound(gates, after)
  {
    forall i: nat, id | Holds(gates, i, id) ensures id in after && after[id].place == InGate(i) {
      assert i != j && Holds(before, i, id);
    }
    forall id | id in after && after[id].place.InGate? ensures Holds(gates, after[id].place.gate, id) {
      assert id !in before[j].ids && Holds(before, after[id].place.gate, id);
    }
  }

  lemma FinishQueues(msgs: seq<Message>, cmds: seq<Sent>, gates: seq<Gate>, g: Gate, reqs: Requests, after: Requests,
                     j: nat, fail: bool, origin: Origin)
    requires InboxOk(msgs, reqs, false) && OutboxOk(cmds, reqs) && AllIn(g, reqs, j) && Distinct(g.ids)
    requires Left(gates, g, fail, reqs, after)
    ensures InboxOk(msgs, after, false) && OutboxOk(cmds + Farewell(gates, g, fail, origin), after)
  {
    InboxFrame(msgs, reqs, after, false);
    FarewellFits(gates, g, reqs, after, j, fail, origin);
    OutboxAnswers(cmds, Farewell(gates, g, fail, origin), g.ids, reqs, after);
  }

  lemma FarewellFits(gates: seq<Gate>, g: Gate, reqs: Requests, after: Requests, j: nat, fail: bool, origin: Origin)
    requires AllIn(g, reqs, j) && Left(gates, g, fail, reqs, after)
    ensures var more := Farewell(gates, g, fail, origin);
            forall i :: 0 <= i < |g.ids| ==>
              && IsAnswer(more[i].command) && more[i].command.id == g.ids[i] && g.ids[i] in after
              && after[g.ids[i]].place == Outbox(more[i].command) && Fits(more[i].command, g.ids[i], after[g.ids[i]])
  {
    var more := Farewell(gates, g, fail, origin);
    forall i | 0 <= i < |g.ids|
      ensures IsAnswer(more[i].command) && more[i].command.id == g.ids[i] && g.ids[i] in after
      ensures after[g.ids[i]].place == Outbox(more[i].command) && Fits(more[i].command, g.ids[i], after[g.ids[i]])
    {
      var id := g.ids[i];
      assert id in g.ids && after[id] == Leaving(gates, g, fail, id, reqs[id]);
      assert more[i].command == AnswerCommand(g.stage, fail, Intercepts(gates, g, fail), id);
    }
  }

  lemma FinishReqs(gates: seq<Gate>, g: Gate, reqs: Requests, after: Requests, j: nat, fail: bool,
                   disables: nat, fetchOn: bool, forgets: bool)
    requires ReqsOk(reqs, disables, fetchOn, forgets) && AllIn(g, reqs, j) && Left(gates, g, fail, reqs, after)
    ensures ReqsOk(after, disables, fetchOn, forgets)
  {
    forall id | id in after ensures ReqOk(after[id], disables, fetchOn, forgets) {
      assert ReqOk(reqs[id], disables, fetchOn, forgets);
      if id in g.ids { LeavingOk(gates, g, fail, id, reqs[id], disables, fetchOn, forgets); }
    }
  }

  lemma LeavingOk(gates: seq<Gate>, g: Gate, fail: bool, id: RequestId, r: Req, disables: nat, fetchOn: bool, forgets: bool)
    requires ReqOk(r, disables, fetchOn, forgets) && r.place.InGate? && r.stage == g.stage
    ensures ReqOk(Leaving(gates, g, fail, id, r), disables, fetchOn, forgets)
  {
  }

  lemma NotYetArmed(gates: seq<Gate>, reqs: Requests, j: nat, disables: nat, fetchOn: bool, forgets: bool)
    requires ReqsOk(reqs, disables, fetchOn, forgets) && j < |gates| && AllIn(gates[j], reqs, j)
    ensures forall id :: id in gates[j].ids && gates[j].stage == Request ==> reqs[id].armed == 0
  {
    forall id | id in gates[j].ids && gates[j].stage == Request ensures reqs[id].armed == 0 {
      assert ReqOk(reqs[id], disables, fetchOn, forgets);
    }
  }

  lemma FinishEscape(before: seq<Gate>, gates: seq<Gate>, reqs: Requests, after: Requests, j: nat, fail: bool, disables: nat)
    requires InOrder(before) && NoEscape(before, reqs, disables) && j < |before| && !before[j].released
    requires |gates| == |before| && gates == before[j := gates[j]]
    requires SameSort(gates[j], before[j]) && gates[j].released && gates[j].ids == before[j].ids
    requires AllIn(before[j], reqs, j) && Left(gates, before[j], fail, reqs, after)
    requires forall id :: id in before[j].ids && before[j].stage == Request ==> reqs[id].armed == 0
    ensures NoEscape(gates, after, disables)
  {
    var g := before[j];
    forall id, i: nat | id in after && Waiting(gates, after[id], disables, i)
      ensures after[id].asked
      ensures after[id].stage == Response && (after[id].place.Outbox? || after[id].place == Done) ==>
                exists h: nat :: CaughtBefore(gates, id, i, h)
    {
      assert i != j && gates[i] == before[i];
      if id in g.ids && g.stage == Request {
        assert HasOpen(gates, g.kind, Response);
      } else if id in g.ids {
        // the holding gate is the earlier one, since the waiting gate is not released
        assert Waiting(before, reqs[id], disables, i);
        assert SameSort(before[i], g);
        assert j < i;
        assert CaughtBefore(gates, id, i, j);
      } else {
        assert Waiting(before, reqs[id], disables, i);
        if after[id].stage == Response && (after[id].place.Outbox? || after[id].place == Done) {
          var h: nat :| CaughtBefore(before, id, i, h);
          assert CaughtBefore(gates, id, i, h);
        }
      }
    }
  }

  lemma ArmKeeps(s: System, kind: Kind, stage: Stage)
    requires Inv(s)
    ensures Inv(Next(s, ArmGate(kind, stage)))
  {
    if !s.ctl.disposed {
      var g := NewGate(kind, stage);
      ArmFlow(s, g);
      ArmGates(s.ctl.gates, g);
      ArmHeld(s.ctl.gates, g, s.reqs);
      ArmEscape(s.ctl.gates, g, s.reqs, s.disables);
    }
  }

  lemma ArmFlow(s: System, g: Gate)
    requires Flow(s) && !s.ctl.disposed
    ensures Flow(s.(ctl := s.ctl.(gates := s.ctl.gates + [g])))
  {
    DisposalFrame(s, s.(ctl := s.ctl.(gates := s.ctl.gates + [g])));
  }

  lemma ArmGates(gates: seq<Gate>, g: Gate)
    requires GatesOk(gates) && InOrder(gates) && GateOk(g) && g.ids == []
    ensures GatesOk(gates + [g]) && InOrder(gates + [g])
  {
  }

  lemma ArmHeld(gates: seq<Gate>, g: Gate, reqs: Requests)
    requires HeldOk(gates, reqs) && ListsOk(gates, reqs) && ArmedBound(gates, reqs) && g.ids == []
    ensures HeldOk(gates + [g], reqs) && ListsOk(gates + [g], reqs) && ArmedBound(gates + [g], reqs)
  {
    forall j: nat, id | Holds(gates + [g], j, id) ensures Holds(gates, j, id) {}
    forall id | id in reqs && reqs[id].place.InGate? ensures Holds(gates + [g], reqs[id].place.gate, id) {
      assert Holds(gates, reqs[id].place.gate, id);
    }
  }

  /** A gate armed later never counts for a request that had already been let go on. */
  lemma ArmEscape(gates: seq<Gate>, g: Gate, reqs: Requests, disables: nat)
    requires NoEscape(gates, reqs, disables) && ArmedBound(gates, reqs)
    ensures NoEscape(gates + [g], reqs, disables)
  {
    forall id, j: nat | id in reqs && Waiting(gates + [g], reqs[id], disables, j)
      ensures reqs[id].asked
      ensures reqs[id].stage == Response && (reqs[id].place.Outbox? || reqs[id].place == Done) ==>
                exists h: nat :: CaughtBefore(gates + [g], id, j, h)
    {
      assert Waiting(gates, reqs[id], disables, j);
      if reqs[id].stage == Response && (reqs[id].place.Outbox? || reqs[id].place == Done) {
        var h: nat :| CaughtBefore(gates, id, j, h);
        assert CaughtBefore(gates + [g], id, j, h);
      }
    }
  }

  /** A switch is sent. */
  lemma SwitchKeeps(s: System, cmd: Command, origin: Origin)
    requires Inv(s) && !s.disposal.Closed?
    requires (cmd == FetchDisable && origin == Suspending) || (cmd == FetchEnable && origin == Resuming)
    ensures Inv(Switch(s, cmd, origin))
  {
    OutboxSwitch(s.toBrowser, s.reqs, Sent(cmd, origin));
    SentFlow(s, Switch(s, cmd, origin), [Sent(cmd, origin)], origin);
  }

  lemma SuspendKeeps(s: System)
    requires Inv(s)
    ensures Inv(Next(s, Suspend))
  {
    if Next(s, Suspend) != s { SwitchKeeps(s, FetchDisable, Suspending); }
  }

  lemma ResumeKeeps(s: System)
    requires Inv(s)
    ensures Inv(Next(s, Resume))
  {
    if Next(s, Resume) != s { SwitchKeeps(s, FetchEnable, Resuming); }
  }

  lemma DisposeKeeps(s: System)
    requires Inv(s)
    ensures Inv(Next(s, Dispose))
  {
    DisposeFlow(s, Next(s, Dispose));
  }

  lemma DisposeFlow(s: System, t: System)
    requires Flow(s) && (t == s || (s.disposal == Live && t == s.(disposal := Draining(0))))
    ensures Flow(t)
  {
  }

  lemma DisposeNextKeeps(s: System)
    requires Inv(s) && Enabled(s, DisposeNext)
    ensures Inv(Next(s, DisposeNext))
  {
    if s.disposal.next < |s.ctl.gates| { DrainKeeps(s); } else { EndKeeps(s); }
  }

  lemma DrainKeeps(s: System)
    requires Inv(s) && s.disposal.Draining? && s.disposal.next < |s.ctl.gates|
    ensures Inv(DisposeRound(s))
  {
    FinishKeeps(s, s.disposal.next, false, false, Teardown);
    NextGate(s, Perform(s, Finish(s.ctl, s.disposal.next, false), Teardown));
  }

  lemma EndKeeps(s: System)
    requires Inv(s) && Enabled(s, DisposeNext) && s.disposal.next >= |s.ctl.gates|
    ensures Inv(DisposeRound(s))
  {
    if s.ctl.fetchEnabled { FinalDisable(s); } else { CloseKeeps(s, false); }
  }

  lemma NextGate(s: System, u: System)
    requires Inv(u) && u.disposal == s.disposal && s.disposal.Draining? && s.disposal.next < |s.ctl.gates|
    requires u == Perform(s, Finish(s.ctl, s.disposal.next, false), Teardown)
    ensures Inv(u.(disposal := Draining(s.disposal.next + 1)))
  {
    assert s.disposal.next < |u.ctl.gates| && u.ctl.gates[s.disposal.next].released;
    NextGateFlow(u, s.disposal.next);
  }

  lemma NextGateFlow(u: System, next: nat)
    requires Flow(u) && u.disposal == Draining(next) && next < |u.ctl.gates| && u.ctl.gates[next].released
    ensures Flow(u.(disposal := Draining(next + 1)))
  {
  }

  lemma FinalDisable(s: System)
    requires Inv(s) && Enabled(s, DisposeNext)
    ensures Inv(Switch(s, FetchDisable, Disposing).(disposal := Disabling))
  {
    OutboxSwitch(s.toBrowser, s.reqs, Sent(FetchDisable, Disposing));
    FinalFlow(s);
  }

  lemma FinalFlow(s: System)
    requires Flow(s) && Enabled(s, DisposeNext)
    ensures Flow(Switch(s, FetchDisable, Disposing).(disposal := Disabling))
  {
    var t := Switch(s, FetchDisable, Disposing).(disposal := Disabling);
    var x := Sent(FetchDisable, Disposing);
    forall o ensures Pending(t.toBrowser, t.toController, o) <==> Pending(s.toBrowser, s.toController, o) || o == Disposing {
      PendingSent(s.toBrowser, [x], s.toController, o);
      assert [x][0].origin == Disposing;
    }
  }

  // -------- every step --------

  lemma DeliverKeeps(s: System, now: int)
    requires Inv(s) && s.toController != []
    ensures Inv(Next(s, Deliver(now)))
  {
    match s.toController[0]
    case Pausing(id, kind, stage) =>
      HandlingFirst(s);
      if Wanted(s.ctl.gates, kind, stage) { HoldKeeps(s, id, stage, now); } else { PassKeeps(s, id, stage, now); }
    case Reply(origin, ok) => ReplyKeeps(s, now);
  }

  lemma BrowserTurnKeeps(s: System)
    requires Inv(s) && s.toBrowser != []
    ensures Inv(Next(s, BrowserTurn))
  {
    match s.toBrowser[0].command
    case FetchEnable => EnableKeeps(s);
    case FetchDisable => DisableKeeps(s);
    case _ => AnswerKeeps(s);
  }

  lemma StepKeeps(s: System, e: Event)
    requires Inv(s) && Enabled(s, e)
    ensures Inv(Next(s, e))
  {
    match e
    case Begin(id, kind) => BeginKeeps(s, id, kind);
    case Arrive(id) => ArriveKeeps(s, id);
    case BrowserTurn => BrowserTurnKeeps(s);
    case Deliver(now) => DeliverKeeps(s, now);
    case ArmGate(k, stage) => ArmKeeps(s, k, stage);
    case FinishGate(j, fail) => FinishKeeps(s, j, fail, false, Caller);
    case ExpireGate(j) => FinishKeeps(s, j, false, true, Timer);
    case Suspend => SuspendKeeps(s);
    case Resume => ResumeKeeps(s);
    case Dispose => DisposeKeeps(s);
    case DisposeNext => DisposeNextKeeps(s);
  }

  lemma {:induction false} RunKeeps(s: System, es: seq<Event>)
    requires Inv(s) && Legal(s, es)
    ensures Inv(Run(s, es))
    decreases |es|
  {
    if es != [] {
      StepKeeps(s, es[0]);
      RunKeeps(Next(s, es[0]), es[1..]);
    }
  }

  lemma StartInv(forgets: bool)
    ensures Inv(Start(forgets))
  {
    assert FetchAfter(true, []);
  }
}
