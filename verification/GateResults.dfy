/** What holds of every run of the gate controller and the browser. */
module GateResults {
  import opened Basics
  import opened GateProtocol
  import opened GateSystem
  import opened GateSteps
  import opened GateRuns

  // -------- every pause is answered once or held once --------

  ghost predicate Answering(cmds: seq<Sent>, id: RequestId) {
    exists i :: 0 <= i < |cmds| && IsAnswer(cmds[i].command) && cmds[i].command.id == id
  }

  /** Whatever crosses on the connection: of the pauses that the controller has
      handled, every one has been answered once, except one held right now; the held
      ones are exactly what the unreleased gates hold, each in one gate.  The answers
      have reached a paused request or missed it, except one still on its way; and
      every pause the browser has announced has been handled, except one still on its way. */
  lemma PausesConserved(s: System, id: RequestId)
    requires Reachable(s) && id in s.reqs
    ensures var r := s.reqs[id];
            && r.seen == r.told + One(exists j: nat :: HeldBy(s, j, id))
            && r.told == r.hits + r.misses + One(Answering(s.toBrowser, id))
            && (!s.disposal.Closed? ==> r.pauses == r.seen + One(Announced(s.toController, id)))
            && r.misses <= 1 && 1 <= r.pauses <= 2
    ensures forall i: nat, j: nat :: HeldBy(s, i, id) && HeldBy(s, j, id) ==> i == j
  {
    ReachableInv(s);
    assert ReqOk(s.reqs[id], s.disables, s.fetchOn, s.forgets);
    PlaceIsWhere(s, id);
  }

  /** Where a request's latest pause is can be told from the gates and the connection. */
  lemma PlaceIsWhere(s: System, id: RequestId)
    requires HeldOk(s.ctl.gates, s.reqs) && OutboxOk(s.toBrowser, s.reqs)
    requires InboxOk(s.toController, s.reqs, s.disposal.Closed?) && id in s.reqs
    ensures s.reqs[id].place.InGate? <==> exists j: nat :: HeldBy(s, j, id)
    ensures s.reqs[id].place.Outbox? <==> Answering(s.toBrowser, id)
    ensures !s.disposal.Closed? ==> (s.reqs[id].place == Inbox <==> Announced(s.toController, id))
    ensures forall i: nat, j: nat :: HeldBy(s, i, id) && HeldBy(s, j, id) ==> i == j
  {
    var place := s.reqs[id].place;
    assert place.InGate? ==> HeldBy(s, place.gate, id);
    if place.Outbox? {
      var i :| 0 <= i < |s.toBrowser| && s.toBrowser[i].command == place.command;
      assert IsAnswer(s.toBrowser[i].command) && s.toBrowser[i].command.id == id;
    }
  }

  // -------- the gates among themselves --------

  /** Nothing is held for ever: a gate that holds something has its timer running, and
      when the timer fires an answer goes out to everything it held. */
  lemma HeldUntilTimeout(s: System, j: nat, id: RequestId)
    requires Reachable(s) && HeldBy(s, j, id) && !s.disposal.Closed?
    ensures Enabled(s, ExpireGate(j))
    ensures var t := Next(s, ExpireGate(j));
            && id in s.reqs && id in t.reqs && t.reqs[id].told == s.reqs[id].told + 1 && Answering(t.toBrowser, id)
            && j < |t.ctl.gates| && t.ctl.gates[j].released && t.ctl.gates[j].expired && !t.ctl.gates[j].failed
            && forall i: nat :: !HeldBy(t, i, id)
  {
    ReachableInv(s);
    assert GateOk(s.ctl.gates[j]);
    var t := Next(s, ExpireGate(j));
    FinishEffect(s, j, false, true, Timer);
    StepKeeps(s, ExpireGate(j));
    AnsweredByTimer(s, t, j, id);
  }

  lemma AnsweredByTimer(s: System, t: System, j: nat, id: RequestId)
    requires HeldOk(s.ctl.gates, s.reqs) && HeldBy(s, j, id) && After(s, t, j, false, true, Timer)
    requires HeldOk(t.ctl.gates, t.reqs) && OutboxOk(t.toBrowser, t.reqs) && InboxOk(t.toController, t.reqs, t.disposal.Closed?)
    ensures id in s.reqs && id in t.reqs && t.reqs[id].told == s.reqs[id].told + 1 && Answering(t.toBrowser, id)
    ensures forall i: nat :: !HeldBy(t, i, id)
    ensures j < |t.ctl.gates| && t.ctl.gates[j].released && t.ctl.gates[j].expired && !t.ctl.gates[j].failed
  {
    PlaceIsWhere(t, id);
  }

  /** The later of two gates of the same kind and stage holds something only once the
      earlier one is released, so they are never active together. */
  lemma GatesTakeTurns(s: System, i: nat, j: nat)
    requires Reachable(s) && i < j < |s.ctl.gates| && SameSort(s.ctl.gates[i], s.ctl.gates[j])
    ensures s.ctl.gates[j].ids != [] ==> s.ctl.gates[i].released
    ensures !(Active(s.ctl.gates[i]) && Active(s.ctl.gates[j]))
  {
    ReachableInv(s);
  }

  /** Of every gate: its timer runs exactly while it holds something; it is noted when
      it began to hold exactly if it ever held something; and it ends in one way only,
      expired, failed or simply released. */
  lemma FlagsTellOneStory(s: System, j: nat)
    requires Reachable(s) && j < |s.ctl.gates|
    ensures var g := s.ctl.gates[j];
            && (g.timer <==> g.ids != [] && !g.released)
            && (g.heldAt.Some? <==> g.ids != [])
            && (g.expired ==> g.released && !g.failed)
            && (g.failed ==> g.released && !g.expired)
  {
    ReachableInv(s);
    assert GateOk(s.ctl.gates[j]);
  }

  /** How many gates of one sort are active. */
  ghost function CountSort(gates: seq<Gate>, kind: Kind, stage: Stage): nat {
    if gates == [] then 0
    else
      var g := gates[|gates| - 1];
      CountSort(gates[..|gates| - 1], kind, stage) + if Active(g) && g.kind == kind && g.stage == stage then 1 else 0
  }

  lemma {:induction false} CountBySort(gates: seq<Gate>)
    ensures ActiveCount(gates) == CountSort(gates, Creation, Request) + CountSort(gates, Creation, Response)
                                  + CountSort(gates, Prompt, Request) + CountSort(gates, Prompt, Response)
  {
    if gates != [] { CountBySort(gates[..|gates| - 1]); }
  }

  lemma {:induction false} NoneOfSort(gates: seq<Gate>, kind: Kind, stage: Stage)
    requires forall i :: 0 <= i < |gates| && gates[i].kind == kind && gates[i].stage == stage ==> gates[i].released
    ensures CountSort(gates, kind, stage) == 0
  {
    if gates != [] { NoneOfSort(gates[..|gates| - 1], kind, stage); }
  }

  lemma {:induction false} AtMostOneOfSort(gates: seq<Gate>, kind: Kind, stage: Stage)
    requires InOrder(gates)
    ensures CountSort(gates, kind, stage) <= 1
  {
    if gates != [] {
      var g := gates[|gates| - 1];
      AtMostOneOfSort(gates[..|gates| - 1], kind, stage);
      if Active(g) && g.kind == kind && g.stage == stage {
        NoneOfSort(gates[..|gates| - 1], kind, stage);
      }
    }
  }

  lemma AtMostFourActive(s: System)
    requires Reachable(s)
    ensures ActiveCount(s.ctl.gates) <= 4
  {
    ReachableInv(s);
    CountBySort(s.ctl.gates);
    AtMostOneOfSort(s.ctl.gates, Creation, Request);
    AtMostOneOfSort(s.ctl.gates, Creation, Response);
    AtMostOneOfSort(s.ctl.gates, Prompt, Request);
    AtMostOneOfSort(s.ctl.gates, Prompt, Response);
  }

  // -------- no response escapes a waiting gate --------

  /** From `s` to `t` the controller has let this request go on. */
  ghost predicate GoesOn(s: System, t: System, id: RequestId) {
    id in t.reqs && LetOn(t.reqs[id]) && !(id in s.reqs && s.reqs[id].place == t.reqs[id].place)
  }

  /** A request is let go on with its response asked for exactly when a response gate of its kind is open. */
  lemma ContinuedWithInterception(s: System, e: Event, id: RequestId)
    requires Reachable(s) && Enabled(s, e) && GoesOn(s, Next(s, e), id)
    ensures var t := Next(s, e);
            var r := t.reqs[id];
            && r.place.command == ContinueRequest(id, r.asked) && r.stage == Request && r.armed == |t.ctl.gates|
            && (r.asked <==> r.kind.Some? && HasOpen(t.ctl.gates, r.kind.value, Response))
  {
    ReachableInv(s);
    StepFollows(s, e);
    StepKeeps(s, e);
    AskedRight(s, Next(s, e), id);
  }

  lemma AskedRight(s: System, t: System, id: RequestId)
    requires Follows(s, t) && OutboxOk(t.toBrowser, t.reqs) && GoesOn(s, t, id)
    ensures var r := t.reqs[id];
            && r.place.command == ContinueRequest(id, r.asked) && r.stage == Request && r.armed == |t.ctl.gates|
            && (r.asked <==> r.kind.Some? && HasOpen(t.ctl.gates, r.kind.value, Response))
  {
    assert Fits(t.reqs[id].place.command, id, t.reqs[id]);
  }

  /** Over whole runs: at step `e` the controller lets a request go on while response
      gate `j` is open for its kind.  However the run continues, as long as `j` is
      still open and the browser has not switched interception off since the request
      paused, the response has not been delivered, unless an earlier gate of the same
      sort stopped it and was finished; and while stopped it is held no later than by `j`. */
  lemma ResponseNeverEscapes(s: System, e: Event, es: seq<Event>, id: RequestId, j: nat)
    requires Reachable(s) && Enabled(s, e) && Legal(Next(s, e), es) && GoesOn(s, Next(s, e), id)
    requires Next(s, e).reqs[id].kind.Some?
    requires j < |Next(s, e).ctl.gates| && Open(Next(s, e).ctl.gates[j], Next(s, e).reqs[id].kind.value, Response)
    requires j < |Run(Next(s, e), es).ctl.gates| && !Run(Next(s, e), es).ctl.gates[j].released
    requires Run(Next(s, e), es).disables == Next(s, e).reqs[id].epoch
    ensures Next(s, e).reqs[id].asked
    ensures var u := Run(Next(s, e), es);
            && id in u.reqs
            && (u.reqs[id].phase == Settled ==>
                  exists h: nat :: h < j && u.ctl.gates[h].released && SameSort(u.ctl.gates[h], u.ctl.gates[j]) && id in u.ctl.gates[h].ids)
            && (u.reqs[id].stage == Response ==> forall h: nat :: HeldBy(u, h, id) ==> h <= j)
  {
    ContinuedWithInterception(s, e, id);
    var t := Next(s, e);
    var u := Run(t, es);
    ReachableInv(s);
    StepKeeps(s, e);
    RunOnward(t, es);
    assert Later(t.reqs[id], u.reqs[id]) && SameSort(t.ctl.gates[j], u.ctl.gates[j]);
    StillWaiting(u, id, j);
  }

  lemma StillWaiting(u: System, id: RequestId, j: nat)
    requires Inv(u) && id in u.reqs && j < |u.ctl.gates| && u.reqs[id].kind.Some? && u.reqs[id].armed > j
    requires Open(u.ctl.gates[j], u.reqs[id].kind.value, Response) && u.disables <= u.reqs[id].epoch
    ensures u.reqs[id].phase == Settled ==>
              exists h: nat :: h < j && u.ctl.gates[h].released && SameSort(u.ctl.gates[h], u.ctl.gates[j]) && id in u.ctl.gates[h].ids
    ensures u.reqs[id].stage == Response ==> forall h: nat :: HeldBy(u, h, id) ==> h <= j
  {
    assert ReqOk(u.reqs[id], u.disables, u.fetchOn, u.forgets);
    assert Waiting(u.ctl.gates, u.reqs[id], u.disables, j);
    if u.reqs[id].phase == Settled {
      var h: nat :| CaughtBefore(u.ctl.gates, id, j, h);
    }
    forall h: nat | u.reqs[id].stage == Response && HeldBy(u, h, id) ensures h <= j {
      assert SameSort(u.ctl.gates[h], u.ctl.gates[j]);
    }
  }

  /** The story of a response without proviso.  A request is let go on while response
      gate `j` is open for its kind, and after any continuation its response arrives at
      the browser.  It is stopped there if and only if the answer had reached the
      request, interception is on, and, with a browser that forgets, it has not been
      switched off since the request paused; otherwise the page gets it. */
  lemma StoppedOnArrivalIff(s: System, e: Event, es: seq<Event>, id: RequestId, j: nat)
    requires Reachable(s) && Enabled(s, e) && Legal(Next(s, e), es) && GoesOn(s, Next(s, e), id)
    requires Next(s, e).reqs[id].kind.Some?
    requires j < |Next(s, e).ctl.gates| && Open(Next(s, e).ctl.gates[j], Next(s, e).reqs[id].kind.value, Response)
    requires id in Run(Next(s, e), es).reqs && Run(Next(s, e), es).reqs[id].phase.Flying?
    ensures var u := Run(Next(s, e), es);
            var t := Next(u, Arrive(id));
            && id in t.reqs
            && (t.reqs[id].phase == AtResponse <==>
                  u.reqs[id].hits == 1 && u.fetchOn && (u.forgets ==> u.disables == Next(s, e).reqs[id].epoch))
            && (t.reqs[id].phase != AtResponse ==> t.reqs[id].phase == Settled)
            && (t.reqs[id].phase == AtResponse && !u.disposal.Closed? ==> Announced(t.toController, id))
  {
    ContinuedWithInterception(s, e, id);
    ReachableInv(s);
    StepKeeps(s, e);
    var u := Run(Next(s, e), es);
    RunOnward(Next(s, e), es);
    assert Later(Next(s, e).reqs[id], u.reqs[id]);
    assert ReqOk(u.reqs[id], u.disables, u.fetchOn, u.forgets);
    StepKeeps(u, Arrive(id));
  }

  /** And when the controller hears of a pause, it holds it if and only if a gate is
      open for it, in the first such gate; otherwise it is continued at once. */
  lemma HeldOnDeliveryIff(s: System, now: int)
    requires Reachable(s) && s.toController != [] && s.toController[0].Pausing?
    ensures var id := s.toController[0].id;
            var t := Next(s, Deliver(now));
            && id in s.reqs && id in t.reqs
            && var kind, stage := s.reqs[id].kind, s.reqs[id].stage;
               && ((exists h: nat :: HeldBy(t, h, id)) <==> kind.Some? && HasOpen(s.ctl.gates, kind.value, stage))
               && (forall h: nat :: HeldBy(t, h, id) ==> kind.Some? && h == FirstOpen(s.ctl.gates, kind.value, stage))
               && (kind.Some? && HasOpen(s.ctl.gates, kind.value, stage) <==> t.reqs[id].told == s.reqs[id].told)
  {
    ReachableInv(s);
    HandlingFirst(s);
    StepKeeps(s, Deliver(now));
    var id, stage := s.toController[0].id, s.toController[0].stage;
    WantedIff(s.ctl.gates, s.reqs[id].kind, stage);
    PauseHandled(s, Next(s, Deliver(now)), id, stage, now);
  }

  lemma WantedIff(gates: seq<Gate>, kind: Option<Kind>, stage: Stage)
    ensures Wanted(gates, kind, stage) <==> kind.Some? && HasOpen(gates, kind.value, stage)
  {
    if kind.Some? && HasOpen(gates, kind.value, stage) {
      var i :| 0 <= i < |gates| && Open(gates[i], kind.value, stage);
      OpenIsWanted(gates, kind.value, stage, i);
    }
  }

  lemma PauseHandled(s: System, t: System, id: RequestId, stage: Stage, now: int)
    requires Handling(s, id, stage) && t == Next(s, Deliver(now)) && HeldOk(t.ctl.gates, t.reqs)
    ensures id in t.reqs
    ensures (exists h: nat :: HeldBy(t, h, id)) <==> Wanted(s.ctl.gates, s.reqs[id].kind, stage)
    ensures forall h: nat :: HeldBy(t, h, id) ==>
              s.reqs[id].kind.Some? && h == FirstOpen(s.ctl.gates, s.reqs[id].kind.value, stage)
    ensures Wanted(s.ctl.gates, s.reqs[id].kind, stage) <==> t.reqs[id].told == s.reqs[id].told
  {
    var kind := s.reqs[id].kind;
    if Wanted(s.ctl.gates, kind, stage) {
      HoldEffect(s, id, stage, now);
      assert HeldBy(t, FirstOpen(s.ctl.gates, kind.value, stage), id);
    } else {
      PassEffect(s, id, stage, now);
    }
  }

  /** A pause that is held is added at the end of its gate's list, and the gate notes
      the time at which it began to hold anything. */
  lemma HeldAtTheEnd(s: System, now: int, h: nat)
    requires Reachable(s) && s.toController != [] && s.toController[0].Pausing?
    requires HeldBy(Next(s, Deliver(now)), h, s.toController[0].id)
    ensures var t := Next(s, Deliver(now));
            && h < |s.ctl.gates| && t.ctl.gates[h].ids == s.ctl.gates[h].ids + [s.toController[0].id]
            && t.ctl.gates[h].heldAt == if s.ctl.gates[h].ids == [] then Some(now) else s.ctl.gates[h].heldAt
  {
    ReachableInv(s);
    HandlingFirst(s);
    StepKeeps(s, Deliver(now));
    PauseHandled(s, Next(s, Deliver(now)), s.toController[0].id, s.toController[0].stage, now);
    JoinsAtTheEnd(s, s.toController[0].id, s.toController[0].stage, now, h);
  }

  lemma JoinsAtTheEnd(s: System, id: RequestId, stage: Stage, now: int, h: nat)
    requires HeldOk(s.ctl.gates, s.reqs) && GatesOk(s.ctl.gates) && Handling(s, id, stage)
    requires Wanted(s.ctl.gates, s.reqs[id].kind, stage) && h == FirstOpen(s.ctl.gates, s.reqs[id].kind.value, stage)
    ensures var t := Next(s, Deliver(now));
            && h < |s.ctl.gates| == |t.ctl.gates| && t.ctl.gates[h].ids == s.ctl.gates[h].ids + [id]
            && t.ctl.gates[h].heldAt == if s.ctl.gates[h].ids == [] then Some(now) else s.ctl.gates[h].heldAt
  {
    HoldEffect(s, id, stage, now);
    assert GateOk(s.ctl.gates[h]);
    NotInGate(s, id, h);
  }

  // -------- suspend and resume --------

  /** `suspend` sends its disable if and only if the flag is on, the controller is
      neither disposed nor failed and no gate holds anything; otherwise it changes
      nothing, and it throws unless only the flag is off. */
  lemma SuspendSendsIff(s: System)
    requires Reachable(s)
    ensures SuspendThrows(s.ctl) <==> s.disposal.Closed? || s.ctl.failure || exists j: nat, id :: HeldBy(s, j, id)
    ensures Next(s, Suspend) ==
            if s.ctl.fetchEnabled && !s.disposal.Closed? && !s.ctl.failure && forall j: nat, id :: !HeldBy(s, j, id)
            then s.(toBrowser := s.toBrowser + [Sent(FetchDisable, Suspending)]) else s
  {
    DisposedIff(s);
    ActiveHolds(s);
  }

  lemma DisposedIff(s: System)
    requires Reachable(s)
    ensures s.ctl.disposed <==> s.disposal.Closed?
  {
    ReachableInv(s);
  }

  lemma ActiveHolds(s: System)
    ensures AnyActive(s.ctl.gates) <==> exists j: nat, id :: HeldBy(s, j, id)
  {
    if j: nat, id :| HeldBy(s, j, id) { assert Active(s.ctl.gates[j]); }
    if i :| 0 <= i < |s.ctl.gates| && Active(s.ctl.gates[i]) { assert HeldBy(s, i, s.ctl.gates[i].ids[0]); }
  }

  /** `resume` sends its enable if and only if the flag is off and the controller is
      neither disposed nor failed, whatever is held. */
  lemma ResumeSendsIff(s: System)
    requires Reachable(s)
    ensures ResumeThrows(s.ctl) <==> s.disposal.Closed? || s.ctl.failure
    ensures Next(s, Resume) ==
            if !s.ctl.fetchEnabled && !s.disposal.Closed? && !s.ctl.failure
            then s.(toBrowser := s.toBrowser + [Sent(FetchEnable, Resuming)]) else s
  {
    DisposedIff(s);
  }

  ghost predicate NoSwitchReply(msgs: seq<Message>) {
    forall i :: 0 <= i < |msgs| ==>
      !FromOrigin(msgs[i], Suspending) && !FromOrigin(msgs[i], Resuming) && !FromOrigin(msgs[i], Disposing)
  }

  lemma {:induction false} FetchUnchanged(on: bool, msgs: seq<Message>)
    requires NoSwitchReply(msgs)
    ensures FetchAfter(on, msgs) == on
  {
    if msgs != [] { FetchUnchanged(on, msgs[..|msgs| - 1]); }
  }

  /** With no acknowledgement of a switch undelivered, `read().enabled` is what the
      browser does; without interception nothing is paused in the browser; and of what
      the gates hold, exactly that is still paused which paused since interception was
      last switched off. */
  lemma EnabledIsTruthful(s: System)
    requires Reachable(s)
    ensures NoSwitchReply(s.toController) && !s.disposal.Closed? ==> s.ctl.fetchEnabled == s.fetchOn
    ensures !s.fetchOn ==> forall id :: id in s.reqs ==> !Paused(s.reqs[id])
    ensures forall j: nat, id :: HeldBy(s, j, id) ==> id in s.reqs && (Paused(s.reqs[id]) <==> s.reqs[id].epoch == s.disables)
  {
    ReachableInv(s);
    if NoSwitchReply(s.toController) && !s.disposal.Closed? { FetchUnchanged(s.ctl.fetchEnabled, s.toController); }
    assert forall id :: id in s.reqs ==> ReqOk(s.reqs[id], s.disables, s.fetchOn, s.forgets);
  }
}
