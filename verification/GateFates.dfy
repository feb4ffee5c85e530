/** Which answers of the gate controller miss their requests, and what comes of it. */
module GateFates {
  import opened GateProtocol
  import opened GateSystem
  import opened GateSteps
  import opened GateRuns

  /** An answer misses exactly if the browser has switched interception off since the
      pause it is for; then, and only then, an error is recorded and comes back. */
  lemma AnswerMissesIff(s: System)
    requires Reachable(s) && s.toBrowser != [] && IsAnswer(s.toBrowser[0].command)
    ensures var id := s.toBrowser[0].command.id;
            var t := Next(s, BrowserTurn);
            && id in s.reqs && id in t.reqs
            && t.reqs[id].misses == s.reqs[id].misses + One(s.reqs[id].epoch < s.disables)
            && t.reqs[id].hits == s.reqs[id].hits + One(s.reqs[id].epoch == s.disables)
            && t.missed == s.missed + (if s.reqs[id].epoch < s.disables then {s.toBrowser[0].origin} else {})
            && (!s.disposal.Closed? ==>
                  t.toController == s.toController + [Reply(s.toBrowser[0].origin, s.reqs[id].epoch == s.disables)])
  {
    ReachableInv(s);
    AnswerEffect(s);
    assert ReqOk(s.reqs[s.toBrowser[0].command.id], s.disables, s.fetchOn, s.forgets);
  }

  // -------- the fate of a queued answer --------

  ghost predicate DisableBefore(cmds: seq<Sent>, i: nat)
    requires i <= |cmds|
  {
    exists k :: 0 <= k < i && cmds[k].command == FetchDisable
  }

  /** A disable has been processed since the pause, or will be before place `i` of the queue. */
  ghost predicate Doomed(s: System, id: RequestId, i: nat)
    requires id in s.reqs && i <= |s.toBrowser|
  {
    s.reqs[id].epoch < s.disables || DisableBefore(s.toBrowser, i)
  }

  predicate AnswersTo(x: Sent, id: RequestId) { IsAnswer(x.command) && x.command.id == id }

  /** All along this run the request's answer is waiting to be processed. */
  ghost predicate StillQueued(s: System, es: seq<Event>, id: RequestId)
    requires Legal(s, es)
    decreases |es|
  {
    id in s.reqs && s.reqs[id].place.Outbox? && (es != [] ==> StillQueued(Next(s, es[0]), es[1..], id))
  }

  /** The fate of an answer is sealed when it is sent: whatever happens until the
      browser comes to it, it misses exactly if a disable lies between its pause and it. */
  lemma {:induction false} FateSealed(s: System, i: nat, es: seq<Event>, id: RequestId)
    requires Inv(s) && i < |s.toBrowser| && AnswersTo(s.toBrowser[i], id)
    requires Legal(s, es) && StillQueued(s, es, id)
    requires Run(s, es).toBrowser != [] && AnswersTo(Run(s, es).toBrowser[0], id)
    ensures id in s.reqs && id in Run(s, es).reqs
    ensures Hits(Run(s, es).reqs[id], Run(s, es).toBrowser[0].command) <==> !Doomed(s, id, i)
    decreases |es|
  {
    if es == [] {
      FateNow(s, i, id);
    } else {
      StepKeeps(s, es[0]);
      var k := if es[0] == BrowserTurn then i - 1 else i;
      if es[0] == BrowserTurn { TurnKeepsFate(s, i, id); } else { OthersKeepFate(s, es[0], i, id); }
      FateSealed(Next(s, es[0]), k, es[1..], id);
    }
  }

  lemma FateNow(s: System, i: nat, id: RequestId)
    requires OutboxOk(s.toBrowser, s.reqs) && ReqsOk(s.reqs, s.disables, s.fetchOn, s.forgets)
    requires i < |s.toBrowser| && AnswersTo(s.toBrowser[i], id) && AnswersTo(s.toBrowser[0], id)
    ensures id in s.reqs && (Hits(s.reqs[id], s.toBrowser[0].command) <==> !Doomed(s, id, i))
  {
    AnswerEffect(s);
    assert i == 0;
    assert ReqOk(s.reqs[id], s.disables, s.fetchOn, s.forgets);
  }

  // -------- how the queue moves on --------

  /** Only the browser takes anything from its queue, and only it counts disables. */
  lemma OthersAppend(s: System, e: Event)
    requires Enabled(s, e) && e != BrowserTurn
    ensures s.toBrowser <= Next(s, e).toBrowser && Next(s, e).disables == s.disables
  {
  }

  lemma AppendKeepsFate(s: System, t: System, i: nat, id: RequestId)
    requires id in s.reqs && id in t.reqs && i <= |s.toBrowser| && s.toBrowser <= t.toBrowser
    requires t.disables == s.disables && t.reqs[id].epoch == s.reqs[id].epoch
    ensures Doomed(t, id, i) <==> Doomed(s, id, i)
  {
    assert forall k :: 0 <= k < i ==> t.toBrowser[k] == s.toBrowser[k];
  }

  lemma OthersKeepFate(s: System, e: Event, i: nat, id: RequestId)
    requires Inv(s) && Enabled(s, e) && e != BrowserTurn
    requires i < |s.toBrowser| && id in s.reqs && id in Next(s, e).reqs && Next(s, e).reqs[id].place.Outbox?
    ensures var t := Next(s, e);
            i < |t.toBrowser| && t.toBrowser[i] == s.toBrowser[i] && (Doomed(t, id, i) <==> Doomed(s, id, i))
  {
    EpochKept(s, e, id);
    OthersAppend(s, e);
    AppendKeepsFate(s, Next(s, e), i, id);
  }

  lemma EpochStays(s: System, t: System, id: RequestId)
    requires Follows(s, t) && id in s.reqs && id in t.reqs && t.reqs[id].place != Inbox
    ensures t.reqs[id].epoch == s.reqs[id].epoch
  {
  }

  lemma EpochKept(s: System, e: Event, id: RequestId)
    requires Inv(s) && Enabled(s, e) && id in s.reqs && id in Next(s, e).reqs && Next(s, e).reqs[id].place != Inbox
    ensures Next(s, e).reqs[id].epoch == s.reqs[id].epoch
  {
    StepFollows(s, e);
    EpochStays(s, Next(s, e), id);
  }

  /** The browser takes the oldest command; only a disable ends an epoch, and the
      request of an answer is done with. */
  lemma TurnEpoch(s: System, id: RequestId)
    requires OutboxOk(s.toBrowser, s.reqs) && ReqsOk(s.reqs, s.disables, s.fetchOn, s.forgets)
    requires s.toBrowser != [] && id in s.reqs
    ensures var t := Next(s, BrowserTurn);
            && id in t.reqs && t.reqs[id].epoch == s.reqs[id].epoch
            && t.toBrowser == s.toBrowser[1..]
            && t.disables == s.disables + One(s.toBrowser[0].command == FetchDisable)
            && t.reqs[id].place == (if AnswersTo(s.toBrowser[0], id) then Done else s.reqs[id].place)
  {
    if IsAnswer(s.toBrowser[0].command) {
      AnswerEpoch(s, id);
    } else {
      SwitchEffect(s);
      SwitchEpoch(s, id);
    }
  }

  lemma AnswerEpoch(s: System, id: RequestId)
    requires OutboxOk(s.toBrowser, s.reqs) && ReqsOk(s.reqs, s.disables, s.fetchOn, s.forgets)
    requires s.toBrowser != [] && IsAnswer(s.toBrowser[0].command) && id in s.reqs
    ensures var t := Next(s, BrowserTurn);
            && id in t.reqs && t.reqs[id].epoch == s.reqs[id].epoch && t.toBrowser == s.toBrowser[1..] && t.disables == s.disables
            && t.reqs[id].place == (if AnswersTo(s.toBrowser[0], id) then Done else s.reqs[id].place)
  {
    AnswerEffect(s);
  }

  lemma SwitchEpoch(s: System, id: RequestId)
    requires s.toBrowser != [] && !IsAnswer(s.toBrowser[0].command) && id in s.reqs
    ensures var t := Switched(s, s.toBrowser[0]);
            && id in t.reqs && t.reqs[id].epoch == s.reqs[id].epoch && t.reqs[id].place == s.reqs[id].place
            && t.toBrowser == s.toBrowser[1..] && t.disables == s.disables + One(s.toBrowser[0].command == FetchDisable)
  {
    if s.toBrowser[0].command == FetchDisable {
      assert AllLetGo(s.reqs, s.forgets)[id] == LetGo(s.reqs[id], s.forgets);
    }
  }

  lemma TurnKeepsFate(s: System, i: nat, id: RequestId)
    requires OutboxOk(s.toBrowser, s.reqs) && ReqsOk(s.reqs, s.disables, s.fetchOn, s.forgets)
    requires i < |s.toBrowser| && AnswersTo(s.toBrowser[i], id) && id in s.reqs
    requires id in Next(s, BrowserTurn).reqs && Next(s, BrowserTurn).reqs[id].place.Outbox?
    ensures var t := Next(s, BrowserTurn);
            && i > 0 && |t.toBrowser| == |s.toBrowser| - 1 && t.toBrowser[i - 1] == s.toBrowser[i]
            && (Doomed(t, id, i - 1) <==> Doomed(s, id, i))
  {
    TurnEpoch(s, id);
    assert ReqOk(s.reqs[id], s.disables, s.fetchOn, s.forgets);
    PopKeepsFate(s, Next(s, BrowserTurn), i, id);
  }

  lemma PopKeepsFate(s: System, t: System, i: nat, id: RequestId)
    requires 0 < i <= |s.toBrowser| && t.toBrowser == s.toBrowser[1..] && id in s.reqs && id in t.reqs
    requires t.reqs[id].epoch == s.reqs[id].epoch <= s.disables
    requires t.disables == s.disables + One(s.toBrowser[0].command == FetchDisable)
    ensures Doomed(t, id, i - 1) <==> Doomed(s, id, i)
  {
    assert forall k :: 0 <= k < |t.toBrowser| ==> t.toBrowser[k] == s.toBrowser[k + 1];
    if k :| 0 <= k < i && s.toBrowser[k].command == FetchDisable {
      assert k > 0 ==> t.toBrowser[k - 1].command == FetchDisable;
    }
    if k :| 0 <= k < i - 1 && t.toBrowser[k].command == FetchDisable {
      assert s.toBrowser[k + 1].command == FetchDisable;
    }
  }

  // -------- what comes of a miss --------

  /** As long as the browser has not switched interception off, no answer misses and nothing fails. */
  lemma NothingMissesWhileOn(s: System)
    requires Reachable(s) && s.disables == 0
    ensures forall id :: id in s.reqs ==> s.reqs[id].misses == 0
    ensures s.missed == {} && !s.ctl.failure && s.disposal != Closed(true)
  {
    ReachableInv(s);
    assert forall id :: id in s.reqs ==> ReqOk(s.reqs[id], s.disables, s.fetchOn, s.forgets);
  }

  /** The controller has failed, or is about to hear that it has, exactly if an answer
      has missed that was sent on arrival or by a timer; what a caller or the disposal
      sends does not count.  Likewise a disposal is aborted, or about to be, exactly for
      an answer of its own. */
  lemma FailureIff(s: System)
    requires Reachable(s)
    ensures s.ctl.failure ==> Arrival in s.missed || Timer in s.missed
    ensures s.disposal == Closed(true) ==> Teardown in s.missed
    ensures !s.disposal.Closed? ==>
              && (s.ctl.failure || HasError(s.toController, Arrival) || HasError(s.toController, Timer)
                  <==> Arrival in s.missed || Timer in s.missed)
              && (HasError(s.toController, Teardown) <==> Teardown in s.missed)
    ensures s.missed != {} <==> exists id :: id in s.reqs && s.reqs[id].misses == 1 && s.reqs[id].epoch < s.disables
  {
    ReachableInv(s);
    if s.missed != {} {
      var id :| id in s.reqs && s.reqs[id].misses > 0;
      assert ReqOk(s.reqs[id], s.disables, s.fetchOn, s.forgets);
    }
  }

  /** And it has failed for good: `read`, `suspend` and `resume` go on throwing. */
  lemma FailedForGood(s: System, es: seq<Event>)
    requires Reachable(s) && s.ctl.failure && Legal(s, es)
    ensures Run(s, es).ctl.failure && SuspendThrows(Run(s, es).ctl) && ResumeThrows(Run(s, es).ctl)
  {
    ReachableInv(s);
    RunOnward(s, es);
  }
}
